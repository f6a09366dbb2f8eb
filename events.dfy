/**
 * The log events the sink receives: levels, property values, and the
 * runtime library calls the encoders rely on without this model looking inside.
 */
module Events {
  import opened Wrappers

  /** The runtime's type codes; a boxed value reports the code of its type. */
  datatype TypeCode =
    | Empty | Object | DBNull | Boolean | Char | SByte | Byte | Int16 | UInt16
    | Int32 | UInt32 | Int64 | UInt64 | Single | Double | Decimal | DateTime | String

  /** The object inside a scalar property value. */
  datatype Obj =
    | Null
    | Bool(b: bool)
    | Str(s: string)
      /** Any other object (a number, a date, a GUID, an enum, a user type): its type code,
          whether its type is a value type, and `id`, which stands for the value itself. A real
          object of this kind never reports Empty, Boolean or String (see ValidObj). */
    | Boxed(code: TypeCode, isValueType: bool, id: string)

  /** The objects the runtime can hold: null, bools and strings are only ever Null, Bool and Str. */
  predicate ValidObj(o: Obj) {
    o.Boxed? ==> o.code != Empty && o.code != Boolean && o.code != String
  }

  function TypeCodeOf(o: Obj): TypeCode {
    match o
    case Null => Empty
    case Bool(_) => Boolean
    case Str(_) => String
    case Boxed(code, _, _) => code
  }

  /** For the objects the runtime can hold, the type code names the constructor: Empty only for
      null, Boolean only for a bool, String only for a string. */
  lemma TypeCodeOfValid(o: Obj)
    requires ValidObj(o)
    ensures TypeCodeOf(o) == Empty <==> o.Null?
    ensures TypeCodeOf(o) == Boolean <==> o.Bool?
    ensures TypeCodeOf(o) == String <==> o.Str?
  {
  }

  /** Whether the object is of one of the eleven numeric types; never a null, a bool or a string. */
  function IsNumeric(o: Obj): (r: bool)
    ensures r ==> !o.Null? && !o.Bool? && !o.Str?
  {
    match TypeCodeOf(o)
    case Byte | SByte | UInt16 | UInt32 | UInt64 | Int16 | Int32 | Int64 | Single | Double | Decimal => true
    case _ => false
  }

  /** A property value: a scalar or one of the three composite kinds. */
  datatype PropertyValue =
    | Scalar(obj: Obj)
    | Sequence(elements: seq<PropertyValue>)
    | Structure(typeTag: Option<string>, fields: seq<(string, PropertyValue)>)
    | Dictionary(entries: seq<(Obj, PropertyValue)>)

  /** An event's properties in iteration order. */
  type Properties = seq<(string, PropertyValue)>

  predicate UniqueKeys(props: Properties) {
    forall i, j :: 0 <= i < j < |props| ==> props[i].0 != props[j].0
  }

  /** Dictionary lookup (TryGetValue) on the property map. */
  function Lookup(props: Properties, key: string): (r: Option<PropertyValue>)
    ensures r.None? <==> forall i :: 0 <= i < |props| ==> props[i].0 != key
    ensures r.Some? ==> exists i :: 0 <= i < |props| && props[i] == (key, r.value)
    decreases |props|
  {
    if props == [] then None
    else if props[0].0 == key then Some(props[0].1)
    else
      var r := Lookup(props[1..], key);
      assert forall i :: 1 <= i < |props| ==> props[i] == props[1..][i - 1];
      r
  }

  /** The six levels, and any other value the level enum can hold. */
  datatype Level = Verbose | Debug | Information | Warning | Error | Fatal | Undefined(value: int)

  /** A level as the enum can hold it: Undefined only for values outside 0..5. */
  predicate ValidLevel(level: Level) {
    level.Undefined? ==> level.value < 0 || level.value > 5
  }

  /** An exception: its type's full name (null for some types), message and stack trace (null if never thrown). */
  datatype ExceptionInfo = ExceptionInfo(typeName: Option<string>, message: string, stackTrace: Option<string>)

  /** A log event; `timestamp` is already in Unix milliseconds. */
  datatype LogEvent = LogEvent(
    timestamp: int,
    level: Level,
    template: string,
    properties: Properties,
    exception: Option<ExceptionInfo>,
    traceId: Option<string>,
    spanId: Option<string>)

  /** The library calls the core makes and this model does not look inside. */
  datatype Runtime = Runtime(
    /** JsonValueFormatter.WriteQuotedJsonString: a JSON string literal, quotes included. */
    quote: string -> string,
    /** MessageTemplate.Render over the event's properties. */
    renderTemplate: (string, Properties) -> string,
    /** ScalarValue.Render. */
    renderScalar: Obj -> string,
    /** object.ToString, which may return null. */
    objToString: Obj -> Option<string>,
    /** JsonSerializer.Serialize of one object. */
    objToJson: Obj -> string,
    /** LogEventPropertyValue.ToString. */
    valueToString: PropertyValue -> string,
    /** JsonSerializer.Serialize of a composite's elements rendered to strings. */
    compositeToJson: PropertyValue -> string,
    /** JsonSerializer.Serialize of a non-null string-keyed dictionary. */
    dictToJson: seq<(string, Obj)> -> string,
    /** new Uri(s).ToString(); None when the text is not an absolute URI. */
    parseUri: string -> Option<string>)

  /** The array pair a property is written to, or none. */
  datatype Column = StringColumn | BoolColumn | NumberColumn | NoColumn

  /** The indices below `n`, in increasing order, of the properties `column` puts in `c`. */
  function PickedUpTo(props: Properties, column: PropertyValue -> Column, c: Column, n: nat): (ix: seq<nat>)
    requires n <= |props|
    ensures forall j :: 0 <= j < |ix| ==> ix[j] < n && column(props[ix[j]].1) == c
    decreases n
  {
    if n == 0 then []
    else PickedUpTo(props, column, c, n - 1) + (if column(props[n - 1].1) == c then [n - 1] else [])
  }

  predicate Increasing(s: seq<nat>) {
    forall j, k :: 0 <= j < k < |s| ==> s[j] < s[k]
  }

  lemma IncreasingSnoc(s: seq<nat>, x: nat)
    requires Increasing(s)
    requires forall j :: 0 <= j < |s| ==> s[j] < x
    ensures Increasing(s + [x])
  {
    var t := s + [x];
    forall j, k | 0 <= j < k < |t|
      ensures t[j] < t[k]
    {
      assert t[j] == s[j];
      if k < |s| {
        assert t[k] == s[k];
      }
    }
  }

  /** The picked indices are strictly increasing. */
  lemma {:induction false} PickedUpToIncreasing(props: Properties, column: PropertyValue -> Column, c: Column, n: nat)
    requires n <= |props|
    ensures Increasing(PickedUpTo(props, column, c, n))
    decreases n
  {
    if n > 0 {
      PickedUpToIncreasing(props, column, c, n - 1);
      var prev := PickedUpTo(props, column, c, n - 1);
      if column(props[n - 1].1) == c {
        IncreasingSnoc(prev, n - 1);
      } else {
        assert PickedUpTo(props, column, c, n) == prev + [] == prev;
      }
    }
  }

  /** Every property of the column among the first `n` is picked. */
  lemma {:induction false} PickedUpToComplete(props: Properties, column: PropertyValue -> Column, c: Column, n: nat)
    requires n <= |props|
    ensures forall i :: 0 <= i < n && column(props[i].1) == c ==> i in PickedUpTo(props, column, c, n)
    decreases n
  {
    if n > 0 {
      PickedUpToComplete(props, column, c, n - 1);
      var prev := PickedUpTo(props, column, c, n - 1);
      var last: seq<nat> := if column(props[n - 1].1) == c then [n - 1] else [];
      assert PickedUpTo(props, column, c, n) == prev + last;
      assert column(props[n - 1].1) == c ==> n - 1 in last;
    }
  }

  /** The indices, in increasing order, of all the properties `column` puts in `c`. */
  function Picked(props: Properties, column: PropertyValue -> Column, c: Column): (ix: seq<nat>)
    ensures forall j :: 0 <= j < |ix| ==> ix[j] < |props| && column(props[ix[j]].1) == c
    ensures forall j, k :: 0 <= j < k < |ix| ==> ix[j] < ix[k]
    ensures forall i :: 0 <= i < |props| && column(props[i].1) == c ==> i in ix
  {
    PickedUpToIncreasing(props, column, c, |props|);
    PickedUpToComplete(props, column, c, |props|);
    PickedUpTo(props, column, c, |props|)
  }

  /** A property is picked for `c` exactly when `column` puts it in `c`. */
  lemma PickedMembership(props: Properties, column: PropertyValue -> Column, c: Column, i: nat)
    requires i < |props|
    ensures i in Picked(props, column, c) <==> column(props[i].1) == c
  {
    var ix := Picked(props, column, c);
    if i in ix {
      var j :| 0 <= j < |ix| && ix[j] == i;
    }
  }

  /** Every property is in exactly one of the four columns, so the column sizes add up. */
  lemma {:induction false} PickedPartition(props: Properties, column: PropertyValue -> Column, n: nat)
    requires n <= |props|
    ensures |PickedUpTo(props, column, StringColumn, n)| + |PickedUpTo(props, column, BoolColumn, n)|
          + |PickedUpTo(props, column, NumberColumn, n)| + |PickedUpTo(props, column, NoColumn, n)| == n
    decreases n
  {
    if n > 0 {
      PickedPartition(props, column, n - 1);
    }
  }
}
