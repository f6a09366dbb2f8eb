/**
 * The object-model encoder: a ClickHouseLogEvent holds one row as six parallel lists plus
 * scalar columns, filled by a classification loop over the event's properties.
 */
module Encoder {
  import opened Wrappers
  import opened Events
  import Formatter

  // ---------------------------------------------------------------- levels

  /** The lowercase level vocabulary of the table. */
  function GetLevel(level: Level): (r: string)
    ensures r == "unknown" <==> level.Undefined?
  {
    match level
    case Debug => "debug"
    case Error => "error"
    case Fatal => "fatal"
    case Information => "info"
    case Verbose => "verbose"
    case Warning => "warning"
    case Undefined(_) => "unknown"
  }

  /** Every level maps into the table's seven-word vocabulary. */
  lemma GetLevelVocabulary(level: Level)
    ensures GetLevel(level) in ["verbose", "debug", "info", "warning", "error", "fatal", "unknown"]
  {
  }

  /** The six named levels get six different words, so the column tells them apart. */
  lemma GetLevelInjective(a: Level, b: Level)
    requires !a.Undefined? && GetLevel(a) == GetLevel(b)
    ensures a == b
  {
  }

  // ---------------------------------------------------------------- classification

  /** object.ToString of a non-null scalar object; a user type's ToString may return null. */
  function ObjText(rt: Runtime, o: Obj): Option<string>
    requires !o.Null?
  {
    match o
    case Bool(b) => Some(if b then "True" else "False")
    case Str(s) => Some(s)
    case Boxed(_, _, _) => rt.objToString(o)
  }

  /** The SourceContext column: the ToString of the property's object when the property
      exists and is a non-null scalar, null otherwise. */
  function SourceContextOf(rt: Runtime, props: Properties): Option<string> {
    match Lookup(props, "SourceContext")
    case None => None
    case Some(v) => if v.Scalar? && !v.obj.Null? then ObjText(rt, v.obj) else None
  }

  /** The column is set only from a present, non-null scalar SourceContext, and a string one is
      copied unchanged. */
  lemma SourceContextSpec(rt: Runtime, props: Properties)
    ensures var r := SourceContextOf(rt, props);
      var v := Lookup(props, "SourceContext");
      (r.Some? ==> v.Some? && v.value.Scalar? && !v.value.obj.Null?) &&
      (v.Some? && v.value.Scalar? && v.value.obj.Str? ==> r == Some(v.value.obj.s))
  {
  }

  /** The list pair the constructor adds a property to, or none for a null scalar. */
  function EncoderColumn(v: PropertyValue): Column {
    match v
    case Scalar(o) =>
      if o.Null? then NoColumn
      else if o.Bool? then BoolColumn
      else if o.Str? then StringColumn
      else if IsNumeric(o) then NumberColumn
      else StringColumn
    case _ => StringColumn
  }

  /** What the constructor adds for one property. */
  datatype Entry = Dropped | StringEntry(text: string) | BoolEntry(flag: bool) | NumberEntry(number: Obj)

  function EntryColumn(entry: Entry): Column {
    match entry
    case Dropped => NoColumn
    case StringEntry(_) => StringColumn
    case BoolEntry(_) => BoolColumn
    case NumberEntry(_) => NumberColumn
  }

  /**
   * The classification switch: a bool goes to the bool pair, a string to the string pair
   * unchanged, a numeric object to the number pair; any other value type becomes its ToString
   * ("" for null), any other reference its JSON text, and a composite its ToString.
   */
  function Classify(rt: Runtime, v: PropertyValue): (r: Entry)
    ensures EntryColumn(r) == EncoderColumn(v)
    ensures v.Scalar? && v.obj.Str? ==> r == StringEntry(v.obj.s)
    ensures v.Scalar? && v.obj.Bool? ==> r == BoolEntry(v.obj.b)
    ensures r.NumberEntry? ==> r.number == v.obj && IsNumeric(v.obj)
  {
    match v
    case Scalar(o) =>
      if o.Null? then Dropped
      else if o.Bool? then BoolEntry(o.b)
      else if o.Str? then StringEntry(o.s)
      else if IsNumeric(o) then NumberEntry(o)
      else if o.isValueType then StringEntry(OrElse(rt.objToString(o), ""))
      else StringEntry(rt.objToJson(o))
    case _ => StringEntry(rt.valueToString(v))
  }

  /**
   * The two encoders agree on every property the formatter keeps; the only properties they
   * place differently are non-null scalars of no string, bool or numeric type (a date, say),
   * which the formatter drops and this encoder turns into strings.
   */
  lemma ColumnsAgree(v: PropertyValue)
    ensures Formatter.FormatterColumn(v) != NoColumn ==> EncoderColumn(v) == Formatter.FormatterColumn(v)
    ensures EncoderColumn(v) != Formatter.FormatterColumn(v) <==>
      v.Scalar? && !v.obj.Null? && !v.obj.Str? && !v.obj.Bool? && !IsNumeric(v.obj)
    ensures EncoderColumn(v) != Formatter.FormatterColumn(v) ==> EncoderColumn(v) == StringColumn
  {
  }

  // ---------------------------------------------------------------- the six lists

  datatype Lists = Lists(
    stringKeys: seq<string>, stringValues: seq<string>,
    boolKeys: seq<string>, boolValues: seq<bool>,
    numberKeys: seq<string>, numberValues: seq<Obj>)

  /** The effect of AddString, AddBool or AddNumber, or of nothing for a dropped property. */
  function Place(l: Lists, key: string, entry: Entry): Lists {
    match entry
    case Dropped => l
    case StringEntry(s) => l.(stringKeys := l.stringKeys + [key], stringValues := l.stringValues + [s])
    case BoolEntry(b) => l.(boolKeys := l.boolKeys + [key], boolValues := l.boolValues + [b])
    case NumberEntry(o) => l.(numberKeys := l.numberKeys + [key], numberValues := l.numberValues + [o])
  }

  /** The lists after the loop has seen the first `n` properties. */
  function ListsUpTo(rt: Runtime, props: Properties, n: nat): Lists
    requires n <= |props|
    decreases n
  {
    if n == 0 then Lists([], [], [], [], [], [])
    else Place(ListsUpTo(rt, props, n - 1), props[n - 1].0, Classify(rt, props[n - 1].1))
  }

  /**
   * Each pair holds, in property order, exactly the properties of its column: the j-th key
   * and the j-th value both come from the j-th such property.
   */
  lemma {:induction false} ListsAtPicked(rt: Runtime, props: Properties, n: nat)
    requires n <= |props|
    ensures var l := ListsUpTo(rt, props, n);
      var ss := PickedUpTo(props, EncoderColumn, StringColumn, n);
      var bs := PickedUpTo(props, EncoderColumn, BoolColumn, n);
      var ns := PickedUpTo(props, EncoderColumn, NumberColumn, n);
      |l.stringKeys| == |ss| && |l.stringValues| == |ss| &&
      |l.boolKeys| == |bs| && |l.boolValues| == |bs| &&
      |l.numberKeys| == |ns| && |l.numberValues| == |ns| &&
      (forall j :: 0 <= j < |ss| ==>
         l.stringKeys[j] == props[ss[j]].0 && Classify(rt, props[ss[j]].1) == StringEntry(l.stringValues[j])) &&
      (forall j :: 0 <= j < |bs| ==>
         l.boolKeys[j] == props[bs[j]].0 && Classify(rt, props[bs[j]].1) == BoolEntry(l.boolValues[j])) &&
      (forall j :: 0 <= j < |ns| ==>
         l.numberKeys[j] == props[ns[j]].0 && Classify(rt, props[ns[j]].1) == NumberEntry(l.numberValues[j]))
    decreases n
  {
    if n > 0 {
      ListsAtPicked(rt, props, n - 1);
      var entry := Classify(rt, props[n - 1].1);
      assert EntryColumn(entry) == EncoderColumn(props[n - 1].1);
    }
  }

  /** The three pairs together hold one key per property that is not a null scalar. */
  lemma ListsCount(rt: Runtime, props: Properties)
    ensures var l := ListsUpTo(rt, props, |props|);
      var dropped := Picked(props, EncoderColumn, NoColumn);
      |l.stringKeys| + |l.boolKeys| + |l.numberKeys| + |dropped| == |props| &&
      forall i :: 0 <= i < |props| ==> (i in dropped <==> props[i].1 == Scalar(Null))
  {
    ListsAtPicked(rt, props, |props|);
    PickedPartition(props, EncoderColumn, |props|);
    forall i | 0 <= i < |props|
      ensures i in Picked(props, EncoderColumn, NoColumn) <==> props[i].1 == Scalar(Null)
    {
      PickedMembership(props, EncoderColumn, NoColumn, i);
    }
  }

  /** Every property that is not a null scalar lands in exactly one of the three pairs. */
  lemma ExactlyOnePair(props: Properties, i: nat)
    requires i < |props| && props[i].1 != Scalar(Null)
    ensures var inString := i in Picked(props, EncoderColumn, StringColumn);
      var inBool := i in Picked(props, EncoderColumn, BoolColumn);
      var inNumber := i in Picked(props, EncoderColumn, NumberColumn);
      (if inString then 1 else 0) + (if inBool then 1 else 0) + (if inNumber then 1 else 0) == 1
  {
    PickedMembership(props, EncoderColumn, StringColumn, i);
    PickedMembership(props, EncoderColumn, BoolColumn, i);
    PickedMembership(props, EncoderColumn, NumberColumn, i);
  }

  // ---------------------------------------------------------------- the raw dictionary

  /** The value the loop puts in the dictionary for a scalar it kept. */
  function DictValue(entry: Entry): Obj
    requires !entry.Dropped?
  {
    match entry
    case StringEntry(s) => Str(s)
    case BoolEntry(b) => Bool(b)
    case NumberEntry(o) => o
  }

  /** The dictionary entries for the first `n` properties: every non-null scalar, in order;
      composites are not added. */
  function DictUpTo(rt: Runtime, props: Properties, n: nat): seq<(string, Obj)>
    requires n <= |props|
    decreases n
  {
    if n == 0 then []
    else
      var v := props[n - 1].1;
      DictUpTo(rt, props, n - 1)
        + if v.Scalar? && !v.obj.Null? then [(props[n - 1].0, DictValue(Classify(rt, v)))] else []
  }

  function HasKey(entries: seq<(string, Obj)>, key: string): bool {
    exists k :: 0 <= k < |entries| && entries[k].0 == key
  }

  /** The MessageTemplate entry, added when no property already has that key. */
  function WithTemplate(entries: seq<(string, Obj)>, template: string): seq<(string, Obj)> {
    if HasKey(entries, "MessageTemplate") then entries else entries + [("MessageTemplate", Str(template))]
  }

  function UniqueEntryKeys(entries: seq<(string, Obj)>): bool {
    forall j, k :: 0 <= j < k < |entries| ==> entries[j].0 != entries[k].0
  }

  /** JsonSerializer.Serialize of a dictionary that may be null. */
  function SerializeDict(rt: Runtime, dict: Option<seq<(string, Obj)>>): string {
    match dict
    case None => "null"
    case Some(entries) => rt.dictToJson(entries)
  }

  /** The dictionary as the constructor builds it: it exists only when raw is not wanted. */
  function DictAsWritten(rt: Runtime, props: Properties, template: string, includeRaw: bool)
    : Option<seq<(string, Obj)>>
  {
    if includeRaw then None else Some(WithTemplate(DictUpTo(rt, props, |props|), template))
  }

  /** Raw as the constructor computes it: the serialization of that dictionary when raw is wanted. */
  function RawAsWritten(rt: Runtime, e: LogEvent, includeRaw: bool): (r: Option<string>)
    ensures r.Some? <==> includeRaw
  {
    if includeRaw then Some(SerializeDict(rt, DictAsWritten(rt, e.properties, e.template, includeRaw)))
    else None
  }

  /** As written, raw is the text null for every event: it carries nothing of the event. */
  lemma RawAsWrittenIsNull(rt: Runtime, e: LogEvent, includeRaw: bool)
    requires includeRaw
    ensures RawAsWritten(rt, e, includeRaw) == Some("null")
  {
  }

  /** Raw as evidently intended: the dictionary is built when raw is wanted. */
  function IntendedRaw(rt: Runtime, e: LogEvent, includeRaw: bool): (r: Option<string>)
    ensures r.Some? <==> includeRaw
  {
    if includeRaw then Some(rt.dictToJson(IntendedDict(rt, e))) else None
  }

  function IntendedDict(rt: Runtime, e: LogEvent): seq<(string, Obj)> {
    WithTemplate(DictUpTo(rt, e.properties, |e.properties|), e.template)
  }

  /** No key among the first `n` entries is the key of a later property, when keys are unique. */
  lemma {:induction false} DictKeysBelow(rt: Runtime, props: Properties, n: nat, m: nat)
    requires n <= m < |props| && UniqueKeys(props)
    ensures forall k :: 0 <= k < |DictUpTo(rt, props, n)| ==> DictUpTo(rt, props, n)[k].0 != props[m].0
    decreases n
  {
    if n > 0 {
      DictKeysBelow(rt, props, n - 1, m);
      var d := DictUpTo(rt, props, n - 1);
      var d' := DictUpTo(rt, props, n);
      var v := props[n - 1].1;
      assert props[n - 1].0 != props[m].0;
      if v.Scalar? && !v.obj.Null? {
        assert d' == d + [(props[n - 1].0, DictValue(Classify(rt, v)))];
        forall k | 0 <= k < |d'|
          ensures d'[k].0 != props[m].0
        {
          if k < |d| {
            assert d'[k] == d[k];
          } else {
            assert d'[k].0 == props[n - 1].0;
          }
        }
      } else {
        assert d' == d;
      }
    }
  }

  /** The first `n` entries have distinct keys when the properties do, and they hold every
      non-null scalar among the first `n` properties. */
  lemma {:induction false} DictUpToKeys(rt: Runtime, props: Properties, n: nat)
    requires n <= |props| && UniqueKeys(props)
    ensures UniqueEntryKeys(DictUpTo(rt, props, n))
    ensures forall i :: 0 <= i < n && props[i].1.Scalar? && !props[i].1.obj.Null? ==>
      HasKey(DictUpTo(rt, props, n), props[i].0)
    decreases n
  {
    if n > 0 {
      DictUpToKeys(rt, props, n - 1);
      DictKeysBelow(rt, props, n - 1, n - 1);
      var d := DictUpTo(rt, props, n - 1);
      var v := props[n - 1].1;
      if v.Scalar? && !v.obj.Null? {
        var d' := DictUpTo(rt, props, n);
        assert d' == d + [(props[n - 1].0, DictValue(Classify(rt, v)))];
        forall j, k | 0 <= j < k < |d'|
          ensures d'[j].0 != d'[k].0
        {
          if k < |d| {
            assert d'[j] == d[j] && d'[k] == d[k];
          } else {
            assert d'[j] == d[j] && d'[k].0 == props[n - 1].0;
            assert d[j].0 != props[n - 1].0;
          }
        }
        forall i | 0 <= i < n && props[i].1.Scalar? && !props[i].1.obj.Null?
          ensures HasKey(d', props[i].0)
        {
          if i < n - 1 {
            var k :| 0 <= k < |d| && d[k].0 == props[i].0;
            assert d'[k] == d[k];
          } else {
            assert d'[|d|].0 == props[i].0;
          }
        }
      } else {
        assert DictUpTo(rt, props, n) == d;
      }
    }
  }

  /**
   * The intended dictionary has distinct keys (so no Add throws), always has a MessageTemplate
   * entry, and has an entry for every non-null scalar property.
   */
  lemma IntendedDictKeys(rt: Runtime, e: LogEvent)
    requires UniqueKeys(e.properties)
    ensures var d := IntendedDict(rt, e);
      UniqueEntryKeys(d) && HasKey(d, "MessageTemplate") &&
      forall i :: 0 <= i < |e.properties| && e.properties[i].1.Scalar? && !e.properties[i].1.obj.Null? ==>
        HasKey(d, e.properties[i].0)
  {
    var props := e.properties;
    DictUpToKeys(rt, props, |props|);
    var d := DictUpTo(rt, props, |props|);
    if !HasKey(d, "MessageTemplate") {
      var d' := d + [("MessageTemplate", Str(e.template))];
      assert d'[|d|].0 == "MessageTemplate";
      forall i | 0 <= i < |props| && props[i].1.Scalar? && !props[i].1.obj.Null?
        ensures HasKey(d', props[i].0)
      {
        var k :| 0 <= k < |d| && d[k].0 == props[i].0;
        assert d'[k] == d[k];
      }
    }
  }

  // ---------------------------------------------------------------- the scalar columns

  /** The row's columns other than the six lists and raw. */
  datatype RowHeader = RowHeader(
    timestamp: int,
    application: Option<string>,
    level: string,
    message: string,
    traceId: Option<string>,
    spanId: Option<string>,
    sourceContext: Option<string>,
    exceptionType: Option<string>,
    exceptionMessage: Option<string>,
    exceptionStackTrace: Option<string>)

  /** The columns the constructor sets from the event, the configured application and the clock. */
  function HeaderOf(application: Option<string>, e: LogEvent, now: int, rt: Runtime): RowHeader {
    var x := e.exception;
    RowHeader(now, application, GetLevel(e.level), rt.renderTemplate(e.template, e.properties),
              e.traceId, e.spanId, SourceContextOf(rt, e.properties),
              if x.Some? then x.value.typeName else None,
              if x.Some? then Some(x.value.message) else None,
              if x.Some? then x.value.stackTrace else None)
  }

  /**
   * The timestamp is the clock reading, not the event's own; the level word is "unknown" exactly
   * for an undefined level; the exception columns are all null without an exception, and with one
   * the message is always present and the type name and stack trace are copied as they are.
   */
  lemma HeaderSpec(application: Option<string>, e: LogEvent, now: int, rt: Runtime)
    ensures var h := HeaderOf(application, e, now, rt);
      h.timestamp == now && h.application == application &&
      (h.level == "unknown" <==> e.level.Undefined?) &&
      h.traceId == e.traceId && h.spanId == e.spanId &&
      (h.exceptionMessage.Some? <==> e.exception.Some?) &&
      (e.exception.None? ==> h.exceptionType.None? && h.exceptionStackTrace.None?) &&
      (e.exception.Some? ==> h.exceptionType == e.exception.value.typeName &&
                             h.exceptionMessage == Some(e.exception.value.message) &&
                             h.exceptionStackTrace == e.exception.value.stackTrace)
  {
  }

  // ---------------------------------------------------------------- the row object

  /**
   * One row. The scalar columns are get-only properties, set once by the constructor, hence
   * constants here; the six lists are mutable list objects the constructor fills in place; Raw
   * is also get-only but is set at the end of the constructor, after the loop.
   */
  class ClickHouseLogEvent {
    var logEvent: LogEvent
    const timestamp: int
    const application: Option<string>
    const level: string
    const message: string
    const traceId: Option<string>
    const spanId: Option<string>
    const sourceContext: Option<string>
    const exceptionType: Option<string>
    const exceptionMessage: Option<string>
    const exceptionStackTrace: Option<string>
    var stringKeys: seq<string>
    var stringValues: seq<string>
    var boolKeys: seq<string>
    var boolValues: seq<bool>
    var numberKeys: seq<string>
    var numberValues: seq<Obj>
    var raw: Option<string>

    function Header(): RowHeader {
      RowHeader(timestamp, application, level, message, traceId, spanId, sourceContext,
                exceptionType, exceptionMessage, exceptionStackTrace)
    }

    function AllLists(): Lists
      reads this`stringKeys, this`stringValues, this`boolKeys, this`boolValues,
        this`numberKeys, this`numberValues
    {
      Lists(stringKeys, stringValues, boolKeys, boolValues, numberKeys, numberValues)
    }

    /**
     * Builds the row for `logEvent`; `now` is the clock reading in Unix milliseconds (the row's
     * timestamp is the time of encoding, not the event's own).
     */
    constructor (application: Option<string>, logEvent: LogEvent, includeRaw: bool, now: int, rt: Runtime)
      ensures this.logEvent == logEvent
      ensures Header() == HeaderOf(application, logEvent, now, rt)
      ensures AllLists() == ListsUpTo(rt, logEvent.properties, |logEvent.properties|)
      ensures raw == RawAsWritten(rt, logEvent, includeRaw)
    {
      this.logEvent := logEvent;
      timestamp := now;
      this.application := application;
      level := GetLevel(logEvent.level);
      message := rt.renderTemplate(logEvent.template, logEvent.properties);
      traceId := logEvent.traceId;
      spanId := logEvent.spanId;
      sourceContext := SourceContextOf(rt, logEvent.properties);
      if logEvent.exception.Some? {
        exceptionType := logEvent.exception.value.typeName;
        exceptionMessage := Some(logEvent.exception.value.message);
        exceptionStackTrace := logEvent.exception.value.stackTrace;
      } else {
        exceptionType, exceptionMessage, exceptionStackTrace := None, None, None;
      }
      stringKeys, stringValues := [], [];
      boolKeys, boolValues := [], [];
      numberKeys, numberValues := [], [];
      raw := None;
      new;
      AddProperties(logEvent, includeRaw, rt);
    }

    /** new ClickHouseLogEvent(...), whose first statement rejects a null event. */
    static method Create(application: Option<string>, logEvent: Option<LogEvent>, includeRaw: bool,
                         now: int, rt: Runtime) returns (r: Result<ClickHouseLogEvent, string>)
      ensures r.Failure? <==> logEvent.None?
      ensures r.Failure? ==> r.error == "ArgumentNullException"
      ensures r.Success? ==> fresh(r.value)
      ensures r.Success? ==> r.value.logEvent == logEvent.value
      ensures r.Success? ==>
        r.value.AllLists() == ListsUpTo(rt, logEvent.value.properties, |logEvent.value.properties|)
      ensures r.Success? ==> r.value.Header() == HeaderOf(application, logEvent.value, now, rt)
      ensures r.Success? ==> r.value.raw == RawAsWritten(rt, logEvent.value, includeRaw)
    {
      if logEvent.None? {
        return Failure("ArgumentNullException");
      }
      var row := new ClickHouseLogEvent(application, logEvent.value, includeRaw, now, rt);
      return Success(row);
    }

    /**
     * The rest of the constructor, from empty lists and a null raw: the loop sends every property
     * to its pair while the dictionary (which exists only when raw is not wanted) collects the
     * non-null scalars; then the message template joins the dictionary unless a property already
     * has its key, and raw is set, when wanted, to the dictionary's JSON text.
     */
    method AddProperties(e: LogEvent, includeRaw: bool, rt: Runtime)
      requires AllLists() == Lists([], [], [], [], [], []) && raw.None?
      modifies this`stringKeys, this`stringValues, this`boolKeys, this`boolValues,
        this`numberKeys, this`numberValues, this`raw
      ensures AllLists() == ListsUpTo(rt, e.properties, |e.properties|)
      ensures raw == RawAsWritten(rt, e, includeRaw)
    {
      var props := e.properties;
      var dict: Option<seq<(string, Obj)>> := if includeRaw then None else Some([]);
      for i := 0 to |props|
        invariant AllLists() == ListsUpTo(rt, props, i)
        invariant dict == if includeRaw then None else Some(DictUpTo(rt, props, i))
        invariant raw.None?
      {
        var key, value := props[i].0, props[i].1;
        var stored := AddProperty(key, value, rt);
        if stored.Some? {
          assert DictUpTo(rt, props, i + 1) == DictUpTo(rt, props, i) + [(key, stored.value)];
          if dict.Some? {
            dict := Some(dict.value + [(key, stored.value)]);
          }
        } else {
          assert DictUpTo(rt, props, i + 1) == DictUpTo(rt, props, i);
        }
      }
      if dict.Some? {
        if !HasKey(dict.value, "MessageTemplate") {
          dict := Some(dict.value + [("MessageTemplate", Str(e.template))]);
        }
      }
      if includeRaw {
        raw := Some(SerializeDict(rt, dict));
      }
    }

    /**
     * One turn of the constructor's loop: adds the property to its pair and returns what the
     * loop would put in the dictionary for it (nothing for a null scalar or a composite).
     */
    method AddProperty(key: string, value: PropertyValue, rt: Runtime) returns (stored: Option<Obj>)
      modifies this`stringKeys, this`stringValues, this`boolKeys, this`boolValues,
        this`numberKeys, this`numberValues
      ensures AllLists() == Place(old(AllLists()), key, Classify(rt, value))
      ensures stored == if value.Scalar? && !value.obj.Null? then Some(DictValue(Classify(rt, value))) else None
    {
      if value.Scalar? {
        var o := value.obj;
        if o.Null? {
          return None;
        }
        if o.Bool? {
          AddBool(key, o.b);
          stored := Some(o);
        } else if o.Str? {
          AddString(key, o.s);
          stored := Some(o);
        } else if IsNumeric(o) {
          AddNumber(key, o);
          stored := Some(o);
        } else if o.isValueType {
          var text := OrElse(rt.objToString(o), "");
          AddString(key, text);
          stored := Some(Str(text));
        } else {
          var text := rt.objToJson(o);
          AddString(key, text);
          stored := Some(Str(text));
        }
      } else {
        AddString(key, rt.valueToString(value));
        stored := None;
      }
    }

    method AddString(key: string, value: string)
      modifies this`stringKeys, this`stringValues
      ensures AllLists() == Place(old(AllLists()), key, StringEntry(value))
    {
      stringKeys := stringKeys + [key];
      stringValues := stringValues + [value];
    }

    method AddBool(key: string, value: bool)
      modifies this`boolKeys, this`boolValues
      ensures AllLists() == Place(old(AllLists()), key, BoolEntry(value))
    {
      boolKeys := boolKeys + [key];
      boolValues := boolValues + [value];
    }

    method AddNumber(key: string, value: Obj)
      modifies this`numberKeys, this`numberValues
      ensures AllLists() == Place(old(AllLists()), key, NumberEntry(value))
    {
      numberKeys := numberKeys + [key];
      numberValues := numberValues + [value];
    }

    /** Replaces the wrapped event by one with the given properties (the new event carries no
        trace or span id) and returns this same object; no column changes. */
    method CopyWithProperties(properties: Properties) returns (r: ClickHouseLogEvent)
      modifies this`logEvent
      ensures r == this
      ensures logEvent == LogEvent(old(logEvent).timestamp, old(logEvent).level, old(logEvent).template,
                                   properties, old(logEvent).exception, None, None)
      ensures AllLists() == old(AllLists()) && raw == old(raw)
    {
      logEvent := LogEvent(logEvent.timestamp, logEvent.level, logEvent.template,
                           properties, logEvent.exception, None, None);
      return this;
    }
  }
}
