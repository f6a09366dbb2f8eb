/**
 * The batch dispatcher: the sink formats a whole batch into one newline-separated body on one
 * shared writer, then POSTs it with at most five attempts, pausing after every failed one and
 * reporting failures only to the diagnostic log.
 */
module Sink {
  import opened Wrappers
  import opened Events
  import opened Text
  import opened Formatter

  // ---------------------------------------------------------------- configuration and endpoint

  /** The sink's options; Timeout and SkipServerCertificateValidation configure the HTTP client. */
  datatype ClickHouseOptions = ClickHouseOptions(
    user: string,
    key: string,
    endpointAddr: string,
    database: string,
    table: string,
    application: Option<string>,
    timeout: int,
    skipServerCertificateValidation: bool)

  /** The fixed insert query appended to the endpoint; the table name is part of the constant. */
  const QueryString: string :=
    "?query=INSERT+INTO+application_log_test+FORMAT+JSONEachRow+SETTINGS+async_insert=1"

  /** `$"{new Uri(EndpointAddr)}{QueryString}"`; an endpoint that is not an absolute URI makes the
      Uri constructor throw. */
  function RequestUri(rt: Runtime, options: ClickHouseOptions): (r: Result<string, string>)
    ensures r.Failure? <==> rt.parseUri(options.endpointAddr).None?
    ensures r.Failure? ==> r.error == "UriFormatException"
    ensures r.Success? ==> |r.value| >= |QueryString| && r.value[|r.value| - |QueryString|..] == QueryString
  {
    match rt.parseUri(options.endpointAddr)
    case None => Failure("UriFormatException")
    case Some(endpoint) =>
      var u := endpoint + QueryString;
      assert u[|u| - |QueryString|..] == QueryString;
      Success(u)
  }

  /** Whether HttpClient.Timeout accepts TimeSpan.FromSeconds(seconds): it must be positive and at
      most Int32.MaxValue milliseconds (the infinite timeout is -1 ms, which no whole number of
      seconds gives). */
  predicate ValidTimeout(seconds: int) {
    0 < seconds && seconds * 1000 <= 0x7FFF_FFFF
  }

  /** Only the endpoint decides the request URI: the configured table, database and credentials
      do not reach it, so every sink inserts into the table named in the constant. */
  lemma UriIgnoresTable(rt: Runtime, a: ClickHouseOptions, b: ClickHouseOptions)
    requires a.endpointAddr == b.endpointAddr
    ensures RequestUri(rt, a) == RequestUri(rt, b)
  {
  }

  // ---------------------------------------------------------------- the request body

  /** How the formatter turns the writer's content and one event into the new content. */
  function Formatting(rt: Runtime, application: Option<string>): (string, LogEvent) -> string {
    (prior, e) => FormatAfter(rt, application, prior, e)
  }

  /** The body after the first `n` events, all written to one writer: each event is formatted
      onto the text so far, then a newline is written. */
  function BodyUpTo(format: (string, LogEvent) -> string, newLine: string, batch: seq<LogEvent>, n: nat): string
    requires n <= |batch|
    decreases n
  {
    if n == 0 then [] else format(BodyUpTo(format, newLine, batch, n - 1), batch[n - 1]) + newLine
  }

  function Body(format: (string, LogEvent) -> string, newLine: string, batch: seq<LogEvent>): string {
    BodyUpTo(format, newLine, batch, |batch|)
  }

  /**
   * As written, each line's fields follow the earlier lines unchanged, but its `raw` quotes the
   * whole body so far followed by its own row: every line after the first carries copies of all
   * the lines before it.
   */
  lemma BodyLine(rt: Runtime, application: Option<string>, newLine: string, batch: seq<LogEvent>, n: nat)
    requires n < |batch|
    ensures var prior := BodyUpTo(Formatting(rt, application), newLine, batch, n);
      BodyUpTo(Formatting(rt, application), newLine, batch, n + 1)
        == prior + FieldsAfter(rt, application, [], batch[n]) + ",\"raw\":"
           + rt.quote(prior + Row(rt, application, batch[n])) + "}" + newLine
  {
    FormatOnlyAppends(rt, application, BodyUpTo(Formatting(rt, application), newLine, batch, n), batch[n]);
  }

  /** The body as evidently intended: every line is its event formatted on an empty writer. */
  function IsolatedBodyUpTo(format: (string, LogEvent) -> string, newLine: string, batch: seq<LogEvent>, n: nat)
    : string
    requires n <= |batch|
    decreases n
  {
    if n == 0 then [] else IsolatedBodyUpTo(format, newLine, batch, n - 1) + format([], batch[n - 1]) + newLine
  }

  function IsolatedBody(format: (string, LogEvent) -> string, newLine: string, batch: seq<LogEvent>): string {
    IsolatedBodyUpTo(format, newLine, batch, |batch|)
  }

  lemma {:induction false} IsolatedPrefix(format: (string, LogEvent) -> string, newLine: string,
                                          a: seq<LogEvent>, b: seq<LogEvent>, n: nat)
    requires n <= |a|
    ensures IsolatedBodyUpTo(format, newLine, a + b, n) == IsolatedBodyUpTo(format, newLine, a, n)
    decreases n
  {
    if n > 0 {
      IsolatedPrefix(format, newLine, a, b, n - 1);
      assert (a + b)[n - 1] == a[n - 1];
    }
  }

  lemma {:induction false} IsolatedAppendUpTo(format: (string, LogEvent) -> string, newLine: string,
                                              a: seq<LogEvent>, b: seq<LogEvent>, n: nat)
    requires n <= |b|
    ensures IsolatedBodyUpTo(format, newLine, a + b, |a| + n)
      == IsolatedBody(format, newLine, a) + IsolatedBodyUpTo(format, newLine, b, n)
    decreases n
  {
    var front := IsolatedBody(format, newLine, a);
    if n == 0 {
      IsolatedPrefix(format, newLine, a, b, |a|);
    } else {
      IsolatedAppendUpTo(format, newLine, a, b, n - 1);
      assert (a + b)[|a| + n - 1] == b[n - 1];
      var line := format([], b[n - 1]);
      var rest := IsolatedBodyUpTo(format, newLine, b, n - 1);
      AppendAssoc(front, rest, line);
      AppendAssoc(front, rest + line, newLine);
    }
  }

  /**
   * The intended body is a concatenation of independent lines: the body of two batches one
   * after the other is the two bodies one after the other, so no line depends on another.
   */
  lemma IsolatedBodyAppend(format: (string, LogEvent) -> string, newLine: string, a: seq<LogEvent>, b: seq<LogEvent>)
    ensures IsolatedBody(format, newLine, a + b) == IsolatedBody(format, newLine, a) + IsolatedBody(format, newLine, b)
  {
    IsolatedAppendUpTo(format, newLine, a, b, |b|);
  }

  /** Each intended line's `raw` quotes exactly that line's own row. */
  lemma IsolatedLine(rt: Runtime, application: Option<string>, newLine: string, batch: seq<LogEvent>, n: nat)
    requires n < |batch|
    ensures IsolatedBodyUpTo(Formatting(rt, application), newLine, batch, n + 1)
      == IsolatedBodyUpTo(Formatting(rt, application), newLine, batch, n) + FieldsAfter(rt, application, [], batch[n])
         + ",\"raw\":" + rt.quote(Row(rt, application, batch[n])) + "}" + newLine
  {
    RawSelfContained(rt, application, batch[n]);
    var prior := IsolatedBodyUpTo(Formatting(rt, application), newLine, batch, n);
    var fields := FieldsAfter(rt, application, [], batch[n]);
    var quoted := rt.quote(Row(rt, application, batch[n]));
    AppendAssoc(prior, fields + ",\"raw\":" + quoted, "}");
    AppendAssoc(prior, fields + ",\"raw\":", quoted);
    AppendAssoc(prior, fields, ",\"raw\":");
  }

  /** The first line of any body sees an empty writer, so a batch of one is sent as intended. */
  lemma SingleEventBody(format: (string, LogEvent) -> string, newLine: string, e: LogEvent)
    ensures Body(format, newLine, [e]) == IsolatedBody(format, newLine, [e])
  {
    assert BodyUpTo(format, newLine, [e], 0) == [] && [e][0] == e;
    assert IsolatedBodyUpTo(format, newLine, [e], 0) == [];
    AppendEmpty(format([], e));
  }

  lemma NeqAround(p: string, x: string, y: string, s: string)
    requires x != y
    ensures p + x + s != p + y + s
  {
    if |x| != |y| {
      assert |p + x + s| != |p + y + s|;
    } else {
      var k :| 0 <= k < |x| && x[k] != y[k];
      assert (p + x + s)[|p| + k] == x[k];
      assert (p + y + s)[|p| + k] == y[k];
    }
  }

  /** With an injective quoting, quoting a longer text gives a different line. */
  lemma QuoteSeparates(quote: string -> string, p: string, first: string, row: string, s: string)
    requires forall a: string, b: string :: quote(a) == quote(b) ==> a == b
    requires |first| > 0
    ensures p + quote(first + row) + s != p + quote(row) + s
  {
    assert |first + row| != |row|;
    NeqAround(p, quote(first + row), quote(row), s);
  }

  /**
   * The shared writer leaks: for any two events, with an escaping that keeps different texts
   * apart, the body the sink sends is not the body of the two events formatted on their own.
   */
  lemma BatchRawLeak(rt: Runtime, application: Option<string>, newLine: string, e1: LogEvent, e2: LogEvent)
    requires forall a: string, b: string :: rt.quote(a) == rt.quote(b) ==> a == b
    ensures Body(Formatting(rt, application), newLine, [e1, e2])
      != IsolatedBody(Formatting(rt, application), newLine, [e1, e2])
  {
    var format := Formatting(rt, application);
    var batch := [e1, e2];
    var first := BodyUpTo(format, newLine, batch, 1);
    assert first == IsolatedBodyUpTo(format, newLine, batch, 1) by {
      assert BodyUpTo(format, newLine, batch, 0) == [] && IsolatedBodyUpTo(format, newLine, batch, 0) == [];
      AppendEmpty(format([], e1));
    }
    assert |first| > 0;
    var row := Row(rt, application, e2);
    var fields := FieldsAfter(rt, application, [], e2);
    BodyLine(rt, application, newLine, batch, 1);
    IsolatedLine(rt, application, newLine, batch, 1);
    var p := first + fields + ",\"raw\":";
    var s := "}" + newLine;
    var leaked := rt.quote(first + row);
    var own := rt.quote(row);
    AppendAssoc(p + leaked, "}", newLine);
    AppendAssoc(p + own, "}", newLine);
    QuoteSeparates(rt.quote, p, first, row, s);
  }

  // ---------------------------------------------------------------- attempts

  /** What one POST came to: a response, a TimeoutException, or any other exception (as its
      ToString text). */
  datatype Outcome = Response(status: int, content: string) | TimedOut(message: string) | Faulted(text: string)

  /** IsSuccessStatusCode: a status in 200-299. */
  predicate IsSuccess(o: Outcome) {
    o.Response? && 200 <= o.status <= 299
  }

  /** The SelfLog line written for a failed attempt. */
  function LogLine(o: Outcome): (line: string)
    requires !IsSuccess(o)
  {
    match o
    case Response(_, content) => "Failed to write event: " + content
    case TimedOut(message) => "Write event timeout: " + message
    case Faulted(text) => text
  }

  /** One POST of the body, as sent. */
  datatype Request = Request(httpMethod: string, uri: string, body: string, contentType: string)

  const MaxAttempts: nat := 5

  /** The attempts made from attempt `i` on (counting those before it), given what each attempt
      would come to. */
  function AttemptsFrom(transport: nat -> Outcome, i: nat): nat
    requires i <= MaxAttempts
    decreases MaxAttempts - i
  {
    if i == MaxAttempts then MaxAttempts
    else if IsSuccess(transport(i)) then i + 1
    else AttemptsFrom(transport, i + 1)
  }

  function Attempts(transport: nat -> Outcome): nat {
    AttemptsFrom(transport, 0)
  }

  /** The diagnostic lines after the first `k` attempts: one per failed attempt, in order. */
  function LogUpTo(transport: nat -> Outcome, k: nat): seq<string>
    decreases k
  {
    if k == 0 then []
    else LogUpTo(transport, k - 1) + if IsSuccess(transport(k - 1)) then [] else [LogLine(transport(k - 1))]
  }

  lemma {:induction false} AttemptsFromSpec(transport: nat -> Outcome, i: nat)
    requires i < MaxAttempts
    ensures var r := AttemptsFrom(transport, i);
      i < r <= MaxAttempts &&
      (forall j :: i <= j < r - 1 ==> !IsSuccess(transport(j))) &&
      (r < MaxAttempts ==> IsSuccess(transport(r - 1)))
    decreases MaxAttempts - i
  {
    if !IsSuccess(transport(i)) && i + 1 < MaxAttempts {
      AttemptsFromSpec(transport, i + 1);
    }
  }

  /**
   * Between one and five attempts are made; every attempt but the last failed; and stopping
   * before the fifth means the last attempt succeeded.
   */
  lemma AttemptsSpec(transport: nat -> Outcome)
    ensures 1 <= Attempts(transport) <= MaxAttempts
    ensures forall j :: 0 <= j < Attempts(transport) - 1 ==> !IsSuccess(transport(j))
    ensures Attempts(transport) < MaxAttempts ==> IsSuccess(transport(Attempts(transport) - 1))
  {
    AttemptsFromSpec(transport, 0);
  }

  lemma {:induction false} LogOfFailures(transport: nat -> Outcome, k: nat)
    requires forall j :: 0 <= j < k ==> !IsSuccess(transport(j))
    ensures |LogUpTo(transport, k)| == k
    decreases k
  {
    if k > 0 {
      LogOfFailures(transport, k - 1);
    }
  }

  /** If attempt k+1 is the first success, exactly k+1 attempts are made and k of them are
      logged (each followed by a pause). */
  lemma FirstSuccessAt(transport: nat -> Outcome, k: nat)
    requires k < MaxAttempts && IsSuccess(transport(k))
    requires forall j :: 0 <= j < k ==> !IsSuccess(transport(j))
    ensures Attempts(transport) == k + 1
    ensures |LogUpTo(transport, k + 1)| == k
  {
    AttemptsSpec(transport);
    LogOfFailures(transport, k);
    assert LogUpTo(transport, k + 1) == LogUpTo(transport, k) + [];
  }

  /** If every attempt fails, five are made and all five are logged and followed by a pause,
      the last one included. */
  lemma AllAttemptsFail(transport: nat -> Outcome)
    requires forall j :: 0 <= j < MaxAttempts ==> !IsSuccess(transport(j))
    ensures Attempts(transport) == MaxAttempts
    ensures |LogUpTo(transport, MaxAttempts)| == MaxAttempts
  {
    AttemptsSpec(transport);
    LogOfFailures(transport, MaxAttempts);
  }

  // ---------------------------------------------------------------- the sink

  class ClickHouseSink {
    const options: ClickHouseOptions
    const uri: string
    const textFormatter: ApplicationLogFormatter
    /** Environment.NewLine of the platform. */
    const newLine: string

    /** The constructor past its two checks (the Uri parse and the client's timeout); `Create` is
        the whole of it. */
    constructor (options: ClickHouseOptions, rt: Runtime, newLine: string)
      requires RequestUri(rt, options).Success? && ValidTimeout(options.timeout)
      ensures this.options == options && uri == RequestUri(rt, options).value && this.newLine == newLine
      ensures fresh(textFormatter) && textFormatter.application == options.application && textFormatter.rt == rt
    {
      this.options := options;
      textFormatter := new ApplicationLogFormatter(options.application, rt);
      uri := RequestUri(rt, options).value;
      this.newLine := newLine;
    }

    /** new ClickHouseSink(options): fails when the endpoint is not an absolute URI, and otherwise
        when the HttpClient rejects the configured timeout. */
    static method Create(options: ClickHouseOptions, rt: Runtime, newLine: string)
      returns (r: Result<ClickHouseSink, string>)
      ensures r.Failure? <==> RequestUri(rt, options).Failure? || !ValidTimeout(options.timeout)
      ensures r.Failure? ==> r.error == if RequestUri(rt, options).Failure? then "UriFormatException"
                                       else "ArgumentOutOfRangeException"
      ensures r.Success? ==> fresh(r.value) && r.value.uri == RequestUri(rt, options).value
      ensures r.Success? ==> r.value.options == options && r.value.newLine == newLine
      ensures r.Success? ==> r.value.textFormatter.application == options.application && r.value.textFormatter.rt == rt
    {
      var u := RequestUri(rt, options);
      if u.Failure? {
        return Failure(u.error);
      }
      if !ValidTimeout(options.timeout) {
        return Failure("ArgumentOutOfRangeException");
      }
      var sink := new ClickHouseSink(options, rt, newLine);
      return Success(sink);
    }

    /**
     * Sends one batch. `transport(i)` is what attempt i comes to. Returns the requests made, the
     * number of 100 ms pauses and the diagnostic lines. No exception raised by a POST reaches the
     * caller, provided logging a failure does not throw itself (the text of a general exception
     * is used as the log's format string, so a stray brace in it would).
     */
    method EmitBatch(batch: seq<LogEvent>, transport: nat -> Outcome)
      returns (requests: seq<Request>, delays: nat, selfLog: seq<string>)
      ensures |requests| == Attempts(transport)
      ensures forall j :: 0 <= j < |requests| ==>
        requests[j] == Request("POST", uri, Body(Formatting(textFormatter.rt, textFormatter.application), newLine, batch),
                               "application/json")
      ensures selfLog == LogUpTo(transport, |requests|)
      ensures delays == |selfLog|
    {
      var json := WriteBody(batch);
      requests, delays, selfLog := PostWithRetry(json, transport);
    }

    /** The second half of EmitBatchAsync: the body computed once, then up to five POSTs of it,
        stopping at the first success status and pausing after every failure. */
    method PostWithRetry(json: string, transport: nat -> Outcome)
      returns (requests: seq<Request>, delays: nat, selfLog: seq<string>)
      ensures |requests| == Attempts(transport)
      ensures forall j :: 0 <= j < |requests| ==> requests[j] == Request("POST", uri, json, "application/json")
      ensures selfLog == LogUpTo(transport, |requests|)
      ensures delays == |selfLog|
    {
      requests, delays, selfLog := [], 0, [];
      ghost var succeeded := false;
      for i := 0 to MaxAttempts
        invariant |requests| == i && !succeeded
        invariant forall j :: 0 <= j < i ==> requests[j] == Request("POST", uri, json, "application/json")
        invariant forall j :: 0 <= j < i ==> !IsSuccess(transport(j))
        invariant selfLog == LogUpTo(transport, i) && delays == |selfLog|
      {
        requests := requests + [Request("POST", uri, json, "application/json")];
        var outcome := transport(i);
        if IsSuccess(outcome) {
          FirstSuccessAt(transport, i);
          assert LogUpTo(transport, i + 1) == LogUpTo(transport, i) + [];
          succeeded := true;
          break;
        }
        selfLog := selfLog + [LogLine(outcome)];
        delays := delays + 1;
      }
      if !succeeded {
        AllAttemptsFail(transport);
      }
    }

    /** The first half of EmitBatchAsync: every event formatted, then a newline, on one fresh
        writer whose text becomes the request body. */
    method WriteBody(batch: seq<LogEvent>) returns (json: string)
      ensures json == Body(Formatting(textFormatter.rt, textFormatter.application), newLine, batch)
    {
      ghost var format := Formatting(textFormatter.rt, textFormatter.application);
      var bodyBuilder := new StringWriter();
      for i := 0 to |batch|
        invariant bodyBuilder.text == BodyUpTo(format, newLine, batch, i)
      {
        textFormatter.Format(batch[i], bodyBuilder);
        bodyBuilder.Write(newLine);
      }
      json := bodyBuilder.text;
    }

    /** The body as evidently intended: each event formatted on a writer of its own, so that its
        `raw` holds its own row only; the lines are then joined as before. */
    method WriteIsolatedBody(batch: seq<LogEvent>) returns (json: string)
      ensures json == IsolatedBody(Formatting(textFormatter.rt, textFormatter.application), newLine, batch)
    {
      ghost var format := Formatting(textFormatter.rt, textFormatter.application);
      json := [];
      for i := 0 to |batch|
        invariant json == IsolatedBodyUpTo(format, newLine, batch, i)
      {
        var lineBuilder := new StringWriter();
        textFormatter.Format(batch[i], lineBuilder);
        json := json + lineBuilder.text + newLine;
      }
    }

    /** OnEmptyBatchAsync: when the scheduler finds no events the sink sends nothing and hands
        back a task that has already completed. */
    method OnEmptyBatch() returns (completed: bool, requests: seq<Request>)
      ensures completed && requests == []
    {
      completed, requests := true, [];
    }
  }
}
