/**
 * The streaming row formatter: one JSONEachRow object per event, appended to a
 * text writer, ending with a `raw` field that quotes the writer's whole content.
 */
module Formatter {
  import opened Wrappers
  import opened Events
  import opened Text

  // ---------------------------------------------------------------- levels

  /** The level as the enum prints it (its name, capitalised; a number when undefined). */
  function LevelName(level: Level): string {
    match level
    case Verbose => "Verbose"
    case Debug => "Debug"
    case Information => "Information"
    case Warning => "Warning"
    case Error => "Error"
    case Fatal => "Fatal"
    case Undefined(n) => DecimalText(n)
  }

  /** Enum parsing: a level name, or the number of a level. */
  function ParseLevel(s: string): Option<Level> {
    if s == "Verbose" then Some(Verbose)
    else if s == "Debug" then Some(Debug)
    else if s == "Information" then Some(Information)
    else if s == "Warning" then Some(Warning)
    else if s == "Error" then Some(Error)
    else if s == "Fatal" then Some(Fatal)
    else match ParseDecimal(s)
      case None => None
      case Some(n) =>
        Some(if n == 0 then Verbose else if n == 1 then Debug else if n == 2 then Information
             else if n == 3 then Warning else if n == 4 then Error else if n == 5 then Fatal
             else Undefined(n))
  }

  /** The level text reads back as the event's level: the column loses nothing. */
  lemma LevelNameRoundTrip(level: Level)
    requires ValidLevel(level)
    ensures ParseLevel(LevelName(level)) == Some(level)
  {
    if level.Undefined? {
      var s := DecimalText(level.value);
      DecimalRoundTrip(level.value);
      assert s[0] != 'V' && s[0] != 'D' && s[0] != 'I' && s[0] != 'W' && s[0] != 'E' && s[0] != 'F';
    }
  }

  // ---------------------------------------------------------------- classification

  /** The array pair the format assigns to a property value. */
  function FormatterColumn(v: PropertyValue): Column {
    match v
    case Scalar(o) =>
      if o.Str? then StringColumn
      else if o.Bool? then BoolColumn
      else if IsNumeric(o) then NumberColumn
      else NoColumn
    case _ => StringColumn
  }

  /** The predicates handed to WriteArray. */
  datatype Filter = IsBoolValue | IsNumericValue

  function Accepts(filter: Filter, o: Obj): bool {
    match filter
    case IsBoolValue => o.Bool?
    case IsNumericValue => IsNumeric(o)
  }

  /** The element formatters handed to WriteArray; absent means ScalarValue.Render. */
  datatype ElementWriter = QuotedKey | BoolLiteral

  /** One pass over the properties, writing one array. */
  datatype Pass = StringKeysPass | StringValuesPass | ArrayPass(filter: Filter, writer: Option<ElementWriter>)

  function PassColumn(pass: Pass): Column {
    match pass
    case StringKeysPass => StringColumn
    case StringValuesPass => StringColumn
    case ArrayPass(IsBoolValue, _) => BoolColumn
    case ArrayPass(IsNumericValue, _) => NumberColumn
  }

  /** The element a pass writes for one property, if any; each pass writes exactly for its column. */
  function PassItem(rt: Runtime, pass: Pass, key: string, value: PropertyValue): Option<string> {
    match pass
    case StringKeysPass =>
      if value.Scalar? then (if value.obj.Str? then Some(rt.quote(key)) else None)
      else Some(rt.quote(key))
    case StringValuesPass =>
      (match value
       case Scalar(o) => if o.Str? then Some(rt.quote(o.s)) else None
       case Dictionary(_) => Some(rt.quote(rt.compositeToJson(value)))
       case Sequence(_) => Some(rt.quote(rt.compositeToJson(value)))
       case Structure(_, _) => Some(rt.quote(rt.compositeToJson(value))))
    case ArrayPass(filter, writer) =>
      if value.Scalar? && !value.obj.Null? && Accepts(filter, value.obj) then
        Some(match writer
             case None => rt.renderScalar(value.obj)
             case Some(QuotedKey) => rt.quote(key)
             case Some(BoolLiteral) => if value.obj == Bool(true) then "true" else "false")
      else None
  }

  /** Each pass writes an element for a property exactly when the property is in the pass's column. */
  lemma PassSelectsColumn(rt: Runtime, pass: Pass, key: string, value: PropertyValue)
    ensures PassItem(rt, pass, key, value).Some? <==> FormatterColumn(value) == PassColumn(pass)
  {
  }

  /** The elements a pass writes for the first `n` properties, in property order. */
  function ItemsUpTo(rt: Runtime, props: Properties, pass: Pass, n: nat): seq<string>
    requires n <= |props|
    decreases n
  {
    if n == 0 then []
    else
      ItemsUpTo(rt, props, pass, n - 1)
        + (match PassItem(rt, pass, props[n - 1].0, props[n - 1].1) case Some(x) => [x] case None => [])
  }

  /** The elements a pass writes, in property order. */
  function Items(rt: Runtime, props: Properties, pass: Pass): seq<string> {
    ItemsUpTo(rt, props, pass, |props|)
  }

  /** One more property extends a pass by that property's element, if any. */
  lemma ItemsSnoc(rt: Runtime, props: Properties, pass: Pass, i: nat)
    requires i < |props|
    ensures PassItem(rt, pass, props[i].0, props[i].1).None? ==>
      ItemsUpTo(rt, props, pass, i + 1) == ItemsUpTo(rt, props, pass, i)
    ensures PassItem(rt, pass, props[i].0, props[i].1).Some? ==>
      ItemsUpTo(rt, props, pass, i + 1)
        == ItemsUpTo(rt, props, pass, i) + [PassItem(rt, pass, props[i].0, props[i].1).value]
  {
  }

  /** The j-th element of a pass comes from the j-th property of its column. */
  lemma {:induction false} ItemsAtPicked(rt: Runtime, props: Properties, pass: Pass, n: nat)
    requires n <= |props|
    ensures var ix := PickedUpTo(props, FormatterColumn, PassColumn(pass), n);
      var items := ItemsUpTo(rt, props, pass, n);
      |items| == |ix| &&
      forall j :: 0 <= j < |ix| ==> PassItem(rt, pass, props[ix[j]].0, props[ix[j]].1) == Some(items[j])
    decreases n
  {
    if n > 0 {
      ItemsAtPicked(rt, props, pass, n - 1);
      PassSelectsColumn(rt, pass, props[n - 1].0, props[n - 1].1);
    }
  }

  /** The text written to string_values for a property of the string column. */
  function StringText(rt: Runtime, v: PropertyValue): string
    requires FormatterColumn(v) == StringColumn
  {
    if v.Scalar? then v.obj.s else rt.compositeToJson(v)
  }

  /** string_keys and string_values are parallel: the j-th key and the j-th value are the same property's. */
  lemma StringArraysParallel(rt: Runtime, props: Properties)
    ensures var ix := Picked(props, FormatterColumn, StringColumn);
      var keys := Items(rt, props, StringKeysPass);
      var values := Items(rt, props, StringValuesPass);
      |keys| == |ix| && |values| == |ix| &&
      forall j :: 0 <= j < |ix| ==>
        keys[j] == rt.quote(props[ix[j]].0) && values[j] == rt.quote(StringText(rt, props[ix[j]].1))
  {
    ItemsAtPicked(rt, props, StringKeysPass, |props|);
    ItemsAtPicked(rt, props, StringValuesPass, |props|);
  }

  /** bool_keys and bool_values are parallel, with the literal true or false of the same property. */
  lemma BoolArraysParallel(rt: Runtime, props: Properties)
    ensures var ix := Picked(props, FormatterColumn, BoolColumn);
      var keys := Items(rt, props, ArrayPass(IsBoolValue, Some(QuotedKey)));
      var values := Items(rt, props, ArrayPass(IsBoolValue, Some(BoolLiteral)));
      |keys| == |ix| && |values| == |ix| &&
      forall j :: 0 <= j < |ix| ==>
        props[ix[j]].1.Scalar? && props[ix[j]].1.obj.Bool? &&
        keys[j] == rt.quote(props[ix[j]].0) &&
        values[j] == if props[ix[j]].1.obj.b then "true" else "false"
  {
    ItemsAtPicked(rt, props, ArrayPass(IsBoolValue, Some(QuotedKey)), |props|);
    ItemsAtPicked(rt, props, ArrayPass(IsBoolValue, Some(BoolLiteral)), |props|);
  }

  /** number_keys and number_values are parallel, with the rendered number of the same property. */
  lemma NumberArraysParallel(rt: Runtime, props: Properties)
    ensures var ix := Picked(props, FormatterColumn, NumberColumn);
      var keys := Items(rt, props, ArrayPass(IsNumericValue, Some(QuotedKey)));
      var values := Items(rt, props, ArrayPass(IsNumericValue, None));
      |keys| == |ix| && |values| == |ix| &&
      forall j :: 0 <= j < |ix| ==>
        props[ix[j]].1.Scalar? && IsNumeric(props[ix[j]].1.obj) &&
        keys[j] == rt.quote(props[ix[j]].0) &&
        values[j] == rt.renderScalar(props[ix[j]].1.obj)
  {
    ItemsAtPicked(rt, props, ArrayPass(IsNumericValue, Some(QuotedKey)), |props|);
    ItemsAtPicked(rt, props, ArrayPass(IsNumericValue, None), |props|);
  }

  /**
   * A property is in at most one of the three key arrays, and in none exactly when it is a
   * null scalar or a scalar that is neither a string, a bool nor a number (a date, say).
   */
  lemma KeyArraysExclusive(props: Properties, i: nat)
    requires i < |props|
    ensures var inString := i in Picked(props, FormatterColumn, StringColumn);
      var inBool := i in Picked(props, FormatterColumn, BoolColumn);
      var inNumber := i in Picked(props, FormatterColumn, NumberColumn);
      (if inString then 1 else 0) + (if inBool then 1 else 0) + (if inNumber then 1 else 0) <= 1 &&
      (!inString && !inBool && !inNumber <==>
         props[i].1.Scalar? && !props[i].1.obj.Str? && !props[i].1.obj.Bool? && !IsNumeric(props[i].1.obj))
  {
    PickedMembership(props, FormatterColumn, StringColumn, i);
    PickedMembership(props, FormatterColumn, BoolColumn, i);
    PickedMembership(props, FormatterColumn, NumberColumn, i);
  }

  // ---------------------------------------------------------------- the row

  // Each section of the row is specified by the writer's content after it is written onto `t`.

  /** Timestamp, level and rendered message: the fields every row starts with. */
  function HeadAfter(rt: Runtime, t: string, e: LogEvent): string {
    t + "{\"_timestamp\":" + DecimalText(e.timestamp)
      + ",\"level\":\"" + LevelName(e.level) + "\""
      + ",\"message\":" + rt.quote(rt.renderTemplate(e.template, e.properties))
  }

  /** An optional field: its label and quoted value when present, nothing otherwise. */
  function OptionalAfter(rt: Runtime, t: string, fieldName: string, value: Option<string>): string {
    match value
    case None => t
    case Some(v) => t + fieldName + rt.quote(v)
  }

  /** The exception triple, written exactly when the event has an exception; null names become "". */
  function ExceptionAfter(rt: Runtime, t: string, exception: Option<ExceptionInfo>): string {
    match exception
    case None => t
    case Some(x) =>
      t + ",\"exception_type\":" + rt.quote(OrElse(x.typeName, ""))
        + ",\"exception_message\":" + rt.quote(x.message)
        + ",\"exception_stacktrace\":" + rt.quote(OrElse(x.stackTrace, ""))
  }

  /** The application: the literal null when none is configured, else a quoted string. */
  function ApplicationAfter(rt: Runtime, t: string, application: Option<string>): string {
    match application
    case None => t + ",\"application\":" + "null"
    case Some(a) => t + ",\"application\":" + rt.quote(a)
  }

  /** `source_context`, written exactly when a SourceContext property exists; its value is the
      quoted string when the property is a string scalar, the literal null otherwise. */
  function SourceContextAfter(rt: Runtime, t: string, props: Properties): string {
    match Lookup(props, "SourceContext")
    case None => t
    case Some(v) => t + ",\"source_context\":" + if v.Scalar? && v.obj.Str? then rt.quote(v.obj.s) else "null"
  }

  /** One array: its header (`,"name":[`), the pass's elements separated by commas, `]`. */
  function PassAfter(rt: Runtime, t: string, props: Properties, header: string, pass: Pass): string {
    t + header + Join(Items(rt, props, pass)) + "]"
  }

  /** The six arrays, in the order the formatter writes them. */
  function ArraysAfter(rt: Runtime, t: string, props: Properties): string {
    var t1 := PassAfter(rt, t, props, ",\"string_keys\":[", StringKeysPass);
    var t2 := PassAfter(rt, t1, props, ",\"string_values\":[", StringValuesPass);
    var t3 := PassAfter(rt, t2, props, ",\"" + "bool_keys" + "\":[", ArrayPass(IsBoolValue, Some(QuotedKey)));
    var t4 := PassAfter(rt, t3, props, ",\"" + "bool_values" + "\":[", ArrayPass(IsBoolValue, Some(BoolLiteral)));
    var t5 := PassAfter(rt, t4, props, ",\"" + "number_keys" + "\":[", ArrayPass(IsNumericValue, Some(QuotedKey)));
    PassAfter(rt, t5, props, ",\"" + "number_values" + "\":[", ArrayPass(IsNumericValue, None))
  }

  /** Everything the formatter writes before the closing brace, in order, onto `t`. */
  function FieldsAfter(rt: Runtime, application: Option<string>, t: string, e: LogEvent): string {
    var t1 := HeadAfter(rt, t, e);
    var t2 := OptionalAfter(rt, t1, ",\"trace_id\":", e.traceId);
    var t3 := OptionalAfter(rt, t2, ",\"span_id\":", e.spanId);
    var t4 := ExceptionAfter(rt, t3, e.exception);
    var t5 := ApplicationAfter(rt, t4, application);
    var t6 := SourceContextAfter(rt, t5, e.properties);
    ArraysAfter(rt, t6, e.properties)
  }

  /** The object the formatter writes for `e` before it adds `raw`. */
  function Row(rt: Runtime, application: Option<string>, e: LogEvent): string {
    FieldsAfter(rt, application, [], e) + "}"
  }

  /** The writer's content after formatting `e` onto `prior`: the closing brace is written, then
      taken away again and replaced by a `raw` field quoting everything the writer held. */
  function FormatAfter(rt: Runtime, application: Option<string>, prior: string, e: LogEvent): string {
    var whole := FieldsAfter(rt, application, prior, e) + "}";
    whole[..|whole| - 1] + ",\"raw\":" + rt.quote(whole) + "}"
  }

  /** One more section: if the run so far is `t` followed by `done`, it stays so after `x`. */
  lemma AppendChain(t: string, done: string, x: string)
    ensures t + done + x == t + (done + x)
  {
    AppendAssoc(t, done, x);
  }

  // A section written onto `t` is `t` followed by that section written onto an empty writer.

  lemma HeadAppend(rt: Runtime, t: string, e: LogEvent)
    ensures HeadAfter(rt, t, e) == t + HeadAfter(rt, [], e)
  {
    var a1 := "{\"_timestamp\":";
    var a2 := DecimalText(e.timestamp);
    var a3 := ",\"level\":\"";
    var a4 := LevelName(e.level);
    var a5 := "\"";
    var a6 := ",\"message\":";
    var a7 := rt.quote(rt.renderTemplate(e.template, e.properties));
    assert [] + a1 == a1;
    AppendChain(t, a1, a2);
    AppendChain(t, a1 + a2, a3);
    AppendChain(t, a1 + a2 + a3, a4);
    AppendChain(t, a1 + a2 + a3 + a4, a5);
    AppendChain(t, a1 + a2 + a3 + a4 + a5, a6);
    AppendChain(t, a1 + a2 + a3 + a4 + a5 + a6, a7);
  }

  lemma OptionalAppend(rt: Runtime, t: string, fieldName: string, value: Option<string>)
    ensures OptionalAfter(rt, t, fieldName, value) == t + OptionalAfter(rt, [], fieldName, value)
  {
    if value.Some? {
      assert [] + fieldName == fieldName;
      AppendChain(t, fieldName, rt.quote(value.value));
    }
  }

  lemma ExceptionAppend(rt: Runtime, t: string, exception: Option<ExceptionInfo>)
    ensures ExceptionAfter(rt, t, exception) == t + ExceptionAfter(rt, [], exception)
  {
    if exception.Some? {
      var x := exception.value;
      var a1 := ",\"exception_type\":";
      var a2 := rt.quote(OrElse(x.typeName, ""));
      var a3 := ",\"exception_message\":";
      var a4 := rt.quote(x.message);
      var a5 := ",\"exception_stacktrace\":";
      var a6 := rt.quote(OrElse(x.stackTrace, ""));
      assert [] + a1 == a1;
      AppendChain(t, a1, a2);
      AppendChain(t, a1 + a2, a3);
      AppendChain(t, a1 + a2 + a3, a4);
      AppendChain(t, a1 + a2 + a3 + a4, a5);
      AppendChain(t, a1 + a2 + a3 + a4 + a5, a6);
    }
  }

  lemma ApplicationAppend(rt: Runtime, t: string, application: Option<string>)
    ensures ApplicationAfter(rt, t, application) == t + ApplicationAfter(rt, [], application)
  {
    var name := ",\"application\":";
    assert [] + name == name;
    AppendChain(t, name, if application.None? then "null" else rt.quote(application.value));
  }

  lemma SourceContextAppend(rt: Runtime, t: string, props: Properties)
    ensures SourceContextAfter(rt, t, props) == t + SourceContextAfter(rt, [], props)
  {
    match Lookup(props, "SourceContext")
    case None =>
    case Some(v) =>
      var name := ",\"source_context\":";
      assert [] + name == name;
      AppendChain(t, name, if v.Scalar? && v.obj.Str? then rt.quote(v.obj.s) else "null");
  }

  lemma PassAppend(rt: Runtime, t: string, props: Properties, header: string, pass: Pass)
    ensures PassAfter(rt, t, props, header, pass) == t + PassAfter(rt, [], props, header, pass)
  {
    var items := Join(Items(rt, props, pass));
    assert [] + header == header;
    AppendChain(t, header, items);
    AppendChain(t, header + items, "]");
  }

  lemma ArraysAppend(rt: Runtime, t: string, props: Properties)
    ensures ArraysAfter(rt, t, props) == t + ArraysAfter(rt, [], props)
  {
    var h1, p1 := ",\"string_keys\":[", StringKeysPass;
    var h2, p2 := ",\"string_values\":[", StringValuesPass;
    var h3, p3 := ",\"" + "bool_keys" + "\":[", ArrayPass(IsBoolValue, Some(QuotedKey));
    var h4, p4 := ",\"" + "bool_values" + "\":[", ArrayPass(IsBoolValue, Some(BoolLiteral));
    var h5, p5 := ",\"" + "number_keys" + "\":[", ArrayPass(IsNumericValue, Some(QuotedKey));
    var h6, p6 := ",\"" + "number_values" + "\":[", ArrayPass(IsNumericValue, None);
    var x1 := PassAfter(rt, [], props, h1, p1);
    var x2 := PassAfter(rt, [], props, h2, p2);
    var x3 := PassAfter(rt, [], props, h3, p3);
    var x4 := PassAfter(rt, [], props, h4, p4);
    var x5 := PassAfter(rt, [], props, h5, p5);
    var x6 := PassAfter(rt, [], props, h6, p6);
    var t1 := PassAfter(rt, t, props, h1, p1);
    var e1 := PassAfter(rt, [], props, h1, p1);
    PassAppend(rt, t, props, h1, p1);
    var t2 := PassAfter(rt, t1, props, h2, p2);
    var e2 := PassAfter(rt, e1, props, h2, p2);
    PassAppend(rt, t1, props, h2, p2);
    PassAppend(rt, e1, props, h2, p2);
    AppendChain(t, e1, x2);
    var t3 := PassAfter(rt, t2, props, h3, p3);
    var e3 := PassAfter(rt, e2, props, h3, p3);
    PassAppend(rt, t2, props, h3, p3);
    PassAppend(rt, e2, props, h3, p3);
    AppendChain(t, e2, x3);
    var t4 := PassAfter(rt, t3, props, h4, p4);
    var e4 := PassAfter(rt, e3, props, h4, p4);
    PassAppend(rt, t3, props, h4, p4);
    PassAppend(rt, e3, props, h4, p4);
    AppendChain(t, e3, x4);
    var t5 := PassAfter(rt, t4, props, h5, p5);
    var e5 := PassAfter(rt, e4, props, h5, p5);
    PassAppend(rt, t4, props, h5, p5);
    PassAppend(rt, e4, props, h5, p5);
    AppendChain(t, e4, x5);
    PassAppend(rt, t5, props, h6, p6);
    PassAppend(rt, e5, props, h6, p6);
    AppendChain(t, e5, x6);
  }

  lemma FieldsAppend(rt: Runtime, application: Option<string>, t: string, e: LogEvent)
    ensures FieldsAfter(rt, application, t, e) == t + FieldsAfter(rt, application, [], e)
  {
    var t1 := HeadAfter(rt, t, e);
    var e1 := HeadAfter(rt, [], e);
    HeadAppend(rt, t, e);
    var t2 := OptionalAfter(rt, t1, ",\"trace_id\":", e.traceId);
    var e2 := OptionalAfter(rt, e1, ",\"trace_id\":", e.traceId);
    OptionalAppend(rt, t1, ",\"trace_id\":", e.traceId);
    OptionalAppend(rt, e1, ",\"trace_id\":", e.traceId);
    AppendChain(t, e1, OptionalAfter(rt, [], ",\"trace_id\":", e.traceId));
    var t3 := OptionalAfter(rt, t2, ",\"span_id\":", e.spanId);
    var e3 := OptionalAfter(rt, e2, ",\"span_id\":", e.spanId);
    OptionalAppend(rt, t2, ",\"span_id\":", e.spanId);
    OptionalAppend(rt, e2, ",\"span_id\":", e.spanId);
    AppendChain(t, e2, OptionalAfter(rt, [], ",\"span_id\":", e.spanId));
    var t4 := ExceptionAfter(rt, t3, e.exception);
    var e4 := ExceptionAfter(rt, e3, e.exception);
    ExceptionAppend(rt, t3, e.exception);
    ExceptionAppend(rt, e3, e.exception);
    AppendChain(t, e3, ExceptionAfter(rt, [], e.exception));
    var t5 := ApplicationAfter(rt, t4, application);
    var e5 := ApplicationAfter(rt, e4, application);
    ApplicationAppend(rt, t4, application);
    ApplicationAppend(rt, e4, application);
    AppendChain(t, e4, ApplicationAfter(rt, [], application));
    var t6 := SourceContextAfter(rt, t5, e.properties);
    var e6 := SourceContextAfter(rt, e5, e.properties);
    SourceContextAppend(rt, t5, e.properties);
    SourceContextAppend(rt, e5, e.properties);
    AppendChain(t, e5, SourceContextAfter(rt, [], e.properties));
    ArraysAppend(rt, t6, e.properties);
    ArraysAppend(rt, e6, e.properties);
    AppendChain(t, e6, ArraysAfter(rt, [], e.properties));
  }

  /**
   * Format only appends: what the writer held is untouched, the row follows it without its
   * closing brace, and `raw` quotes the prior content followed by the whole row.
   */
  lemma FormatOnlyAppends(rt: Runtime, application: Option<string>, prior: string, e: LogEvent)
    ensures FormatAfter(rt, application, prior, e)
      == prior + FieldsAfter(rt, application, [], e) + ",\"raw\":" + rt.quote(prior + Row(rt, application, e)) + "}"
  {
    var fields := FieldsAfter(rt, application, [], e);
    FieldsAppend(rt, application, prior, e);
    AppendAssoc(prior, fields, "}");
    var whole := FieldsAfter(rt, application, prior, e) + "}";
    assert whole[..|whole| - 1] == prior + fields;
  }

  /** On an empty writer `raw` holds exactly the row, nothing before it. */
  lemma RawSelfContained(rt: Runtime, application: Option<string>, e: LogEvent)
    ensures FormatAfter(rt, application, [], e)
      == FieldsAfter(rt, application, [], e) + ",\"raw\":" + rt.quote(Row(rt, application, e)) + "}"
  {
    FormatOnlyAppends(rt, application, [], e);
    AppendEmpty(Row(rt, application, e));
    AppendEmpty(FieldsAfter(rt, application, [], e));
  }

  // ---------------------------------------------------------------- the formatter

  class ApplicationLogFormatter {
    const application: Option<string>
    const rt: Runtime

    constructor (application: Option<string>, rt: Runtime)
      ensures this.application == application && this.rt == rt
    {
      this.application := application;
      this.rt := rt;
    }

    /** Writes one event as a JSON object, `raw` last. */
    method Format(e: LogEvent, output: StringWriter)
      modifies output
      ensures output.text == FormatAfter(rt, application, old(output.text), e)
    {
      WriteMetadata(e, output);
      WriteOptional(",\"trace_id\":", e.traceId, output);
      WriteOptional(",\"span_id\":", e.spanId, output);
      WriteException(e.exception, output);
      WriteApplication(output);
      WriteSourceContext(e.properties, output);
      WriteArrays(e.properties, output);
      output.Write("}");
      var raw := output.text;
      output.RemoveLast();
      output.Write(",\"raw\":");
      output.Write(rt.quote(raw));
      output.Write("}");
    }

    /** Timestamp in Unix milliseconds, level name and rendered message. */
    method WriteMetadata(e: LogEvent, output: StringWriter)
      modifies output
      ensures output.text == HeadAfter(rt, old(output.text), e)
    {
      output.Write("{\"_timestamp\":");
      output.Write(DecimalText(e.timestamp));
      output.Write(",\"level\":\"");
      output.Write(LevelName(e.level));
      output.Write("\"");
      output.Write(",\"message\":");
      var message := rt.renderTemplate(e.template, e.properties);
      output.Write(rt.quote(message));
    }

    /** trace_id or span_id, only when the event carries one. */
    method WriteOptional(fieldName: string, value: Option<string>, output: StringWriter)
      modifies output
      ensures output.text == OptionalAfter(rt, old(output.text), fieldName, value)
    {
      if value.Some? {
        output.Write(fieldName);
        output.Write(rt.quote(value.value));
      }
    }

    method WriteException(exception: Option<ExceptionInfo>, output: StringWriter)
      modifies output
      ensures output.text == ExceptionAfter(rt, old(output.text), exception)
    {
      if exception.Some? {
        var x := exception.value;
        output.Write(",\"exception_type\":");
        output.Write(rt.quote(OrElse(x.typeName, "")));
        output.Write(",\"exception_message\":");
        output.Write(rt.quote(x.message));
        output.Write(",\"exception_stacktrace\":");
        output.Write(rt.quote(OrElse(x.stackTrace, "")));
      }
    }

    method WriteApplication(output: StringWriter)
      modifies output
      ensures output.text == ApplicationAfter(rt, old(output.text), application)
    {
      output.Write(",\"application\":");
      if application == None {
        output.Write("null");
      } else {
        output.Write(rt.quote(application.value));
      }
    }

    method WriteSourceContext(props: Properties, output: StringWriter)
      modifies output
      ensures output.text == SourceContextAfter(rt, old(output.text), props)
    {
      var sourceContext := Lookup(props, "SourceContext");
      if sourceContext.Some? {
        output.Write(",\"source_context\":");
        var v := sourceContext.value;
        if !v.Scalar? {
          output.Write("null");
        } else if !v.obj.Str? {
          output.Write("null");
        } else {
          output.Write(rt.quote(v.obj.s));
        }
      }
    }

    method WriteArrays(props: Properties, output: StringWriter)
      modifies output
      ensures output.text == ArraysAfter(rt, old(output.text), props)
    {
      WriteStringKeys(props, output);
      WriteStringValues(props, output);
      WriteArray(props, "bool_keys", IsBoolValue, output, Some(QuotedKey));
      WriteArray(props, "bool_values", IsBoolValue, output, Some(BoolLiteral));
      WriteArray(props, "number_keys", IsNumericValue, output, Some(QuotedKey));
      WriteArray(props, "number_values", IsNumericValue, output, None);
    }

    /** Writes the separator before every element but the first. */
    method WriteHead(first: bool, output: StringWriter) returns (stillFirst: bool)
      modifies output
      ensures !stillFirst
      ensures output.text == old(output.text) + (if first then "" else ",")
    {
      if first {
        stillFirst := false;
        return;
      }
      stillFirst := false;
      output.Write(",");
    }

    /** The keys of string scalars and of every composite. */
    method WriteStringKeys(props: Properties, output: StringWriter)
      modifies output
      ensures output.text == PassAfter(rt, old(output.text), props, ",\"string_keys\":[", StringKeysPass)
    {
      output.Write(",\"string_keys\":[");
      ghost var start := output.text;
      var first := true;
      for i := 0 to |props|
        invariant output.text == start + Join(ItemsUpTo(rt, props, StringKeysPass, i))
        invariant first <==> ItemsUpTo(rt, props, StringKeysPass, i) == []
      {
        ItemsSnoc(rt, props, StringKeysPass, i);
        ghost var done := ItemsUpTo(rt, props, StringKeysPass, i);
        ghost var next := ItemsUpTo(rt, props, StringKeysPass, i + 1);
        var (key, value) := props[i];
        if value.Scalar? {
          if !value.obj.Str? {
            assert next == done;
            continue;
          }
          JoinAfter(start, done, rt.quote(key));
          first := WriteHead(first, output);
          output.Write(rt.quote(key));
          assert output.text == start + Join(next);
        } else {
          JoinAfter(start, done, rt.quote(key));
          first := WriteHead(first, output);
          output.Write(rt.quote(key));
          assert output.text == start + Join(next);
        }
      }
      output.Write("]");
    }

    /** The values of string scalars, and each composite serialised to a JSON string. */
    method WriteStringValues(props: Properties, output: StringWriter)
      modifies output
      ensures output.text == PassAfter(rt, old(output.text), props, ",\"string_values\":[", StringValuesPass)
    {
      output.Write(",\"string_values\":[");
      ghost var start := output.text;
      var first := true;
      for i := 0 to |props|
        invariant output.text == start + Join(ItemsUpTo(rt, props, StringValuesPass, i))
        invariant first <==> ItemsUpTo(rt, props, StringValuesPass, i) == []
      {
        ItemsSnoc(rt, props, StringValuesPass, i);
        ghost var done := ItemsUpTo(rt, props, StringValuesPass, i);
        ghost var next := ItemsUpTo(rt, props, StringValuesPass, i + 1);
        var (key, value) := props[i];
        if value.Scalar? {
          if !value.obj.Str? {
            assert next == done;
            continue;
          }
          JoinAfter(start, done, rt.quote(value.obj.s));
          first := WriteHead(first, output);
          output.Write(rt.quote(value.obj.s));
          assert output.text == start + Join(next);
        } else if value.Dictionary? {
          first := WriteHead(first, output);
          var text := rt.compositeToJson(value);
          JoinAfter(start, done, rt.quote(text));
          output.Write(rt.quote(text));
          assert output.text == start + Join(next);
        } else if value.Sequence? {
          var text := rt.compositeToJson(value);
          JoinAfter(start, done, rt.quote(text));
          first := WriteHead(first, output);
          output.Write(rt.quote(text));
          assert output.text == start + Join(next);
        } else {
          first := WriteHead(first, output);
          var text := rt.compositeToJson(value);
          JoinAfter(start, done, rt.quote(text));
          output.Write(rt.quote(text));
          assert output.text == start + Join(next);
        }
      }
      output.Write("]");
    }

    /** The non-null scalars `filter` accepts, each written by `writer` (Render when absent). */
    method WriteArray(props: Properties, key: string, filter: Filter, output: StringWriter,
                      writer: Option<ElementWriter>)
      modifies output
      ensures output.text == PassAfter(rt, old(output.text), props, ",\"" + key + "\":[", ArrayPass(filter, writer))
    {
      ghost var t := output.text;
      output.Write(",\"");
      output.Write(key);
      output.Write("\":[");
      ghost var start := output.text;
      AppendAssoc(t, ",\"" + key, "\":[");
      AppendAssoc(t, ",\"", key);
      var first := true;
      for i := 0 to |props|
        invariant output.text == start + Join(ItemsUpTo(rt, props, ArrayPass(filter, writer), i))
        invariant first <==> ItemsUpTo(rt, props, ArrayPass(filter, writer), i) == []
      {
        ItemsSnoc(rt, props, ArrayPass(filter, writer), i);
        ghost var done := ItemsUpTo(rt, props, ArrayPass(filter, writer), i);
        ghost var next := ItemsUpTo(rt, props, ArrayPass(filter, writer), i + 1);
        var (name, property) := props[i];
        if !property.Scalar? {
          assert next == done;
          continue;
        }
        var value := property.obj;
        if value.Null? {
          assert next == done;
          continue;
        }
        if !Accepts(filter, value) {
          assert next == done;
          continue;
        }
        var element := match writer
          case None => rt.renderScalar(value)
          case Some(QuotedKey) => rt.quote(name)
          case Some(BoolLiteral) => if value == Bool(true) then "true" else "false";
        assert next == done + [element];
        JoinAfter(start, done, element);
        first := WriteHead(first, output);
        output.Write(element);
        assert output.text == start + Join(next);
      }
      output.Write("]");
    }
  }
}
