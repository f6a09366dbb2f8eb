# Serilog ClickHouse sink — a verified model

This project models the core of a Serilog sink that ships log events to ClickHouse over its HTTP
interface.

- **The streaming row formatter** (`ApplicationLogFormatter`, module `Formatter`) appends one
  JSONEachRow object per event to a text writer, in a fixed field order: timestamp, level,
  message, trace id, span id, the exception triple, application, source context, then the
  string, bool and number key/value arrays. The row ends with a `raw` field that quotes
  everything the writer held.
- **The object-model encoder** (`ClickHouseLogEvent`, module `Encoder`) builds one row as scalar
  columns plus six parallel lists, with a loop that sorts every property except a null scalar into a
  string, bool or number pair. It also builds an optional `Raw` column.
- **The batch dispatcher** (`ClickHouseSink`, module `Sink`) works in two steps:
  - it formats a whole batch on one shared writer, writing a newline after each event;
  - it POSTs that body to `<endpoint>?query=INSERT+INTO+application_log_test+FORMAT+JSONEachRow+SETTINGS+async_insert=1`
    in at most five attempts, pausing after every failed attempt and reporting it only to the
    diagnostic log.

Module `Events` holds the event model: levels, property values, objects and their type codes. It
also holds a `Runtime` record of the library calls the core makes without this model looking
inside them: JSON string quoting, template rendering, `ToString`, `JsonSerializer.Serialize` and
URI parsing. Every lemma therefore holds for any result those calls return; that they never throw
is assumed (see "Left out"). Module `Text` holds
decimal printing, comma joining and the in-memory `StringWriter`. Module `Wrappers` holds
`Option` and `Result`.

Imperative code stays imperative:

- `Format` and its section writers are methods on a `StringWriter` object. Each is proved against
  a function giving the writer's text afterwards.
- The encoder is a class whose get-only scalar properties are constants. Its list properties are
  fields that `AddString`, `AddBool` and `AddNumber` extend in place.
- `EmitBatch` calls two methods with a loop each, `WriteBody` and `PostWithRetry`. Each loop is
  proved against a specification function: `Body` for the text and `Attempts`/`LogUpTo` for the
  retries.

Behaviours of the code that are easy to get wrong, and that the model keeps:

- `EmitBatchAsync` posts even an empty batch; only `OnEmptyBatchAsync` does nothing.
- The table name is part of the fixed query string, not taken from the options. `Sink.UriIgnoresTable`
  states this.
- The encoder stores a scalar whose type is neither string, bool nor numeric as its `ToString` text
  when its type is a value type (a date, say), and as its JSON serialization otherwise (a `Uri`,
  say), while the formatter drops it. `Encoder.ColumnsAgree` states exactly where the
  two differ.
- The encoder's timestamp is the clock reading passed in, not the event's own.

## Model

| member | source | states |
|---|---|---|
| Text.DecimalRoundTrip | src/ApplicationLogFormatter.cs:44 | the timestamp text written for any integer reads back as that integer, sign included |
| Text.JoinSnoc | src/ApplicationLogFormatter.cs:247-256 | one more element adds a comma exactly when the array already had one, so commas only ever sit between elements |
| Text.StringWriter.RemoveLast | src/ApplicationLogFormatter.cs:121-123 | removing the last character keeps everything before it, and needs a non-empty buffer |
| Events.TypeCodeOfValid | src/ApplicationLogFormatter.cs:265 | for objects the runtime can hold, the type code is Empty, Boolean or String exactly for null, bools and strings |
| Events.IsNumeric | src/ApplicationLogFormatter.cs:258-272 | true only for the eleven numeric type codes, hence never for null, a bool or a string (the encoder's copy of the switch is the same) |
| Events.Lookup | src/ApplicationLogFormatter.cs:87 | TryGetValue finds nothing exactly when no property has the key, and what it finds is that key's value |
| Events.Picked | src/ApplicationLogFormatter.cs:134-152 | the properties an array pass visits, in dictionary order: strictly increasing indices, each in the column, and every property of the column among them |
| Events.PickedMembership | src/ApplicationLogFormatter.cs:134-152 | a property is visited by a column's pass if and only if it belongs to that column |
| Events.PickedPartition | src/ClickHouseLogEvent.cs:59-110 | every property falls in exactly one of the four columns (string, bool, number, none), so the column sizes add up to the property count |
| Formatter.LevelNameRoundTrip | src/ApplicationLogFormatter.cs:45-47 | the level text written (enum name, or number when undefined) parses back to the event's level |
| Formatter.PassSelectsColumn | src/ApplicationLogFormatter.cs:129-245 | each of the six array passes writes an element for a property if and only if the property is in that pass's column |
| Formatter.ItemsAtPicked | src/ApplicationLogFormatter.cs:204-245 | a pass writes one element per property of its column, the j-th element from the j-th such property |
| Formatter.StringArraysParallel | src/ApplicationLogFormatter.cs:129-202 | string_keys and string_values have equal length, and position j holds the quoted key and the quoted string (or composite JSON) of the same property |
| Formatter.BoolArraysParallel | src/ApplicationLogFormatter.cs:110-113 | bool_keys and bool_values have equal length, and position j holds the quoted key and the true/false literal of the same bool property |
| Formatter.NumberArraysParallel | src/ApplicationLogFormatter.cs:115-117 | number_keys and number_values have equal length, and position j holds the quoted key and the rendered number of the same numeric property |
| Formatter.KeyArraysExclusive | src/ApplicationLogFormatter.cs:107-117 | a property appears in at most one key array, and in none exactly when it is a scalar that is not a string, a bool or a number |
| Formatter.FieldsAppend | src/ApplicationLogFormatter.cs:43-117 | writing the fields only appends: the text written does not depend on what the writer held |
| Formatter.FormatOnlyAppends | src/ApplicationLogFormatter.cs:119-126 | Format keeps the writer's prior text, appends the row without its brace, then a raw field quoting the prior text followed by the whole row |
| Formatter.RawSelfContained | tests/Serilog.Sinks.Clickhouse.Tests/UnitTest1.cs:76-84 | on an empty writer, raw quotes exactly the row's own fields and closing brace |
| Formatter.ApplicationLogFormatter.constructor | src/ApplicationLogFormatter.cs:29-32 | keeps the configured application |
| Formatter.ApplicationLogFormatter.Format | src/ApplicationLogFormatter.cs:41-127 | the writer's text becomes FormatAfter of its old text: sections in order, then raw |
| Formatter.ApplicationLogFormatter.WriteMetadata | src/ApplicationLogFormatter.cs:43-51 | appends timestamp, level name and quoted rendered message |
| Formatter.ApplicationLogFormatter.WriteOptional | src/ApplicationLogFormatter.cs:53-63 | appends trace_id or span_id only when present |
| Formatter.ApplicationLogFormatter.WriteException | src/ApplicationLogFormatter.cs:65-75 | appends the exception triple only with an exception; a missing type name or stack trace becomes "" |
| Formatter.ApplicationLogFormatter.WriteApplication | src/ApplicationLogFormatter.cs:77-85 | appends the application, or the literal null when none is configured |
| Formatter.ApplicationLogFormatter.WriteSourceContext | src/ApplicationLogFormatter.cs:87-105 | appends source_context only when the property exists: its string, or null for any other value |
| Formatter.ApplicationLogFormatter.WriteArrays | src/ApplicationLogFormatter.cs:107-117 | appends the six arrays in order |
| Formatter.ApplicationLogFormatter.WriteHead | src/ApplicationLogFormatter.cs:247-256 | writes a comma except before the first element, and clears the first flag |
| Formatter.ApplicationLogFormatter.WriteStringKeys | src/ApplicationLogFormatter.cs:129-155 | appends the comma-joined quoted keys of string scalars and composites |
| Formatter.ApplicationLogFormatter.WriteStringValues | src/ApplicationLogFormatter.cs:157-202 | appends the comma-joined quoted string values and composite JSON texts |
| Formatter.ApplicationLogFormatter.WriteArray | src/ApplicationLogFormatter.cs:204-245 | appends one array over the non-null scalars the predicate accepts, each written by the element formatter or rendered |
| Encoder.GetLevel | src/ClickHouseLogEvent.cs:276-288 | the word is "unknown" exactly for a level outside the six named ones |
| Encoder.GetLevelVocabulary | src/ClickHouseLogEvent.cs:276-288 | every level maps into the seven-word vocabulary |
| Encoder.GetLevelInjective | src/ClickHouseLogEvent.cs:276-288 | different named levels get different words |
| Encoder.SourceContextSpec | src/ClickHouseLogEvent.cs:41-43 | the column is set only from an existing non-null scalar SourceContext, and a string one is copied unchanged |
| Encoder.Classify | src/ClickHouseLogEvent.cs:61-109 | the entry's list is the property's column; strings and bools are kept as they are; a number entry holds the numeric object itself |
| Encoder.ColumnsAgree | src/ClickHouseLogEvent.cs:61-109 | the encoder and the formatter place every property alike, except non-null scalars of no string, bool or numeric type, which only the encoder keeps, as strings |
| Encoder.ListsAtPicked | src/ClickHouseLogEvent.cs:59-110 | each list pair has one entry per property of its column, in property order, and key and value at j come from the same property |
| Encoder.ListsCount | src/ClickHouseLogEvent.cs:59-110 | the three pairs together hold one key per property that is not a null scalar |
| Encoder.ExactlyOnePair | src/ClickHouseLogEvent.cs:59-110 | a property that is not a null scalar lands in exactly one pair |
| Encoder.DictUpToKeys | src/ClickHouseLogEvent.cs:104 | with distinct property keys, the dictionary entries have distinct keys and cover every non-null scalar |
| Encoder.RawAsWritten | src/ClickHouseLogEvent.cs:120-123 | Raw is set exactly when raw is wanted |
| Encoder.RawAsWrittenIsNull | src/ClickHouseLogEvent.cs:58 | as written, a wanted Raw is always the text null |
| Encoder.IntendedRaw | src/ClickHouseLogEvent.cs:120-123 | the corrected Raw is set exactly when wanted, from the dictionary of the event's scalars |
| Encoder.IntendedDictKeys | src/ClickHouseLogEvent.cs:104-118 | the corrected dictionary never repeats a key (no Add throws), always has MessageTemplate, and has every non-null scalar |
| Encoder.HeaderSpec | src/ClickHouseLogEvent.cs:35-49 | the timestamp is the clock reading; the level is unknown exactly when undefined; ids are copied; the exception columns are all null without an exception and copied with one |
| Encoder.ClickHouseLogEvent.constructor | src/ClickHouseLogEvent.cs:31-124 | the scalar columns are HeaderOf the event, the lists are ListsUpTo over all properties, and Raw is RawAsWritten |
| Encoder.ClickHouseLogEvent.Create | src/ClickHouseLogEvent.cs:31-124 | a null event fails with ArgumentNullException (line 33); otherwise a fresh row wrapping the event whose columns are HeaderOf the event, whose lists are ListsUpTo over all properties and whose Raw is RawAsWritten |
| Encoder.ClickHouseLogEvent.AddProperties | src/ClickHouseLogEvent.cs:58-123 | the loop leaves the lists at ListsUpTo over all properties and Raw at RawAsWritten |
| Encoder.ClickHouseLogEvent.AddProperty | src/ClickHouseLogEvent.cs:61-109 | one turn adds the property's entry to its pair and returns the dictionary value, for non-null scalars only |
| Encoder.ClickHouseLogEvent.AddString | src/ClickHouseLogEvent.cs:238-242 | appends the key and the value to the string pair, nothing else |
| Encoder.ClickHouseLogEvent.AddBool | src/ClickHouseLogEvent.cs:249-253 | appends the key and the value to the bool pair, nothing else |
| Encoder.ClickHouseLogEvent.AddNumber | src/ClickHouseLogEvent.cs:260-264 | appends the key and the value to the number pair, nothing else |
| Encoder.ClickHouseLogEvent.CopyWithProperties | src/ClickHouseLogEvent.cs:290-300 | swaps in an event with the new properties and no trace or span id, returns the same object, and leaves every column unchanged |
| Sink.RequestUri | src/ClickHouseSink.cs:32-33 | fails with UriFormatException exactly when the endpoint does not parse; otherwise ends with the fixed query string |
| Sink.UriIgnoresTable | src/ClickHouseSink.cs:22-23 | the request URI depends only on the endpoint, not on the configured table |
| Sink.BodyLine | src/ClickHouseSink.cs:48-56 | as written, line n is the event's fields followed by a raw quoting the whole body so far plus its own row |
| Sink.BatchRawLeak | src/ClickHouseSink.cs:48-56 | for any two events, the body sent differs from the two rows formatted on their own |
| Sink.SingleEventBody | src/ClickHouseSink.cs:48-56 | a batch of one event is sent as intended |
| Sink.IsolatedLine | src/ClickHouseSink.cs:48-56 | in the corrected body, each line's raw quotes only its own row |
| Sink.IsolatedBodyAppend | src/ClickHouseSink.cs:48-56 | the corrected body of two batches back to back is the two bodies back to back |
| Sink.AttemptsSpec | src/ClickHouseSink.cs:57-87 | one to five attempts; every attempt but the last failed; fewer than five means the last succeeded |
| Sink.FirstSuccessAt | src/ClickHouseSink.cs:64-68 | a first success at attempt k+1 stops the loop there, with k failures logged |
| Sink.AllAttemptsFail | src/ClickHouseSink.cs:57-87 | when every attempt fails, five are made, all five are logged and each is followed by a pause |
| Sink.ClickHouseSink.constructor | src/ClickHouseSink.cs:28-41 | keeps the options, a formatter for the configured application, and the request URI |
| Sink.ClickHouseSink.Create | src/ClickHouseSink.cs:28-41 | construction fails exactly when the endpoint does not parse (UriFormatException, checked first) or the timeout is not a positive number of seconds within Int32.MaxValue milliseconds (ArgumentOutOfRangeException); a built sink keeps the options, the newline and the request URI, and its formatter uses the configured application |
| Sink.ClickHouseSink.EmitBatch | src/ClickHouseSink.cs:46-88 | Attempts requests, each a POST of the whole shared-writer body as application/json to the URI; one log line and one pause per failure |
| Sink.ClickHouseSink.WriteBody | src/ClickHouseSink.cs:48-56 | the body is each event formatted onto the text so far, followed by a newline |
| Sink.ClickHouseSink.WriteIsolatedBody | src/ClickHouseSink.cs:48-56 | corrected body: each event formatted on a writer of its own, giving exactly IsolatedBody |
| Sink.ClickHouseSink.PostWithRetry | src/ClickHouseSink.cs:57-87 | the same request is sent until the first success or five times; the log holds one line per failed attempt |
| Sink.ClickHouseSink.OnEmptyBatch | src/ClickHouseSink.cs:95-98 | completes at once and sends nothing |

## Left out

- Library calls are `Runtime` parameters, not models: JSON string escaping, MessageTemplate
  rendering, `ToString`, `JsonSerializer.Serialize` and `Uri` parsing. `Sink.BatchRawLeak`
  assumes only that escaping keeps different texts apart.
- The clock is the `now` parameter of the encoder constructor. `Environment.NewLine` is a sink
  field.
- HTTP, async and timing are not modelled as such. The outcome of attempt i is the `transport`
  parameter, and the 100 ms pauses are counted, not waited for.
- Authentication headers, decompression and certificate validation (`DefaultHttpClientHandler`)
  are outside the model; `SkipServerCertificateValidation` appears only as an option field.
  `Timeout` is checked when the sink is built (`Sink.ValidTimeout`). A request that exceeds it
  makes SendAsync throw a TaskCanceledException, which the general catch logs, so it is a `Faulted`
  outcome of the `transport` parameter; `TimedOut` stands only for a `TimeoutException` thrown by
  the handler.
- `ClickHouseSink.Initialize`: the table DDL, posted fire-and-forget, is not modelled. Neither are
  `Dispose`, the logger configuration extensions or `ClickHouseLogEvent.ToString`.
- Number values are kept as objects and rendered by the runtime. Floating point and
  `dynamic` are not modelled.
- `Dictionary.Add` throwing on a duplicate key is not modelled. Event properties come from a
  dictionary, so keys are unique (`Events.UniqueKeys`), and `Encoder.IntendedDictKeys` shows no
  `Add` can throw.
- The `ArgumentNullException` of the encoder is modelled in `Create`. Null writers, null
  formatters and null events passed to `Format` are not modelled.
- `LogEvent` is a value; its internals and property binding are not modelled.
- Encoder.ClickHouseLogEvent.CopyWithProperties: stores the given properties as they are. The
  `LogEvent` constructor keys them by name, so repeated names collapse there, but not in the model;
  the new event can then break `Events.UniqueKeys`. The model states that trace and span ids are
  dropped; it does not model `Select` laziness.
- Sink.ClickHouseSink.PostWithRetry: the text of a `Faulted` outcome is logged verbatim. The
  source passes `ex.ToString()` to `SelfLog.WriteLine` as its format string
  (src/ClickHouseSink.cs:83), so with the diagnostic log enabled a stray `{` or `}` in that text
  makes the logging call throw inside the catch. That skips the pause, ends the retries after that
  attempt and lets the exception escape `EmitBatchAsync`. A `{0}` or `{{` in the text is logged
  altered. The model does not capture this; it also leaves out the format expansion and the
  timestamp prefix of diagnostic lines.
- Library calls are modelled as never throwing. In `EmitBatchAsync` the body is built outside the
  `try` (src/ClickHouseSink.cs:50-54), so a throw while formatting (a `JsonSerializer.Serialize` of
  a composite, or `ToDictionary` meeting a repeated structure field name) would escape to the caller
  and lose the batch; the model cannot show this. The encoder's `Serialize` of a reference object
  (src/ClickHouseLogEvent.cs:94) would escape its constructor the same way.
- Text.DecimalText: the writer prints the timestamp with the current culture; the model always uses
  '-' as the negative sign, as the invariant culture does.
- `Obj.Boxed` can be given a type code (Empty, Boolean, String) no real boxed object reports;
  `Events.ValidObj` excludes these, and the encoder and formatter functions are stated for every
  object, valid or not.

## Findings

| source | as written | input that shows it | evidently intended | confidence | as-written member | corrected member |
|---|---|---|---|---|---|---|
| src/ClickHouseSink.cs:48-56 | all events of a batch are formatted onto one writer, and `Format` quotes the writer's whole content as `raw`, so line n's raw also holds lines 1..n-1 | any batch of two events: the second line's raw starts with the first line | each line's raw is that row alone, as on a fresh writer (the unit test checks exactly this for one event) | not executed | Sink.BatchRawLeak | Sink.IsolatedLine |
| src/ClickHouseLogEvent.cs:58 | the dictionary is created only when raw is NOT wanted, and Raw serializes it only when raw IS wanted | any event with includeRaw = true: Raw is the text null | Raw is the JSON of the dictionary of the event's scalars plus MessageTemplate | not executed | Encoder.RawAsWrittenIsNull | Encoder.IntendedRaw |
