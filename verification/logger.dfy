/**
 * The `Logger`: drops records below the minimum severity, builds the
 * structured record (including the caller's file path, found by parsing a
 * captured stack trace) and hands it to every transport in list order.
 *
 * The clock, the captured stack text and the working directory are inputs
 * of each call (`CallContext`); the `Promise.all` fan-out runs sequentially.
 */
module Logging {
  import opened Common
  import opened Strings
  import opened LogInterfaces

  /** The sentinel returned when no caller location can be found. */
  const UnknownFile := "unknown file"

  /** What the `catch` at the fan-out boundary writes to standard error. */
  const FanOutFailure := "FATAL: Logging to a transport failed."

  /** The stack line that names the caller: error header, getCallerFilePath, log, debug/info/warn/error, caller. */
  const CallerFrameIndex := 4

  // ---------------------------------------------------------------------
  // The pattern /\((.*?):\d+:\d+\)$/ applied to one stack line
  // ---------------------------------------------------------------------

  /** The characters `.` does not match in a JavaScript regular expression. */
  predicate IsLineTerminator(c: char) {
    c == '\n' || c == '\r' || c == '\U{2028}' || c == '\U{2029}'
  }

  predicate NoLineTerminator(s: string) {
    forall i :: 0 <= i < |s| ==> !IsLineTerminator(s[i])
  }

  /** `t` is exactly `:\d+:\d+\)`: a colon, digits, a colon, digits and a closing parenthesis. */
  predicate IsLocationTail(t: string) {
    |t| >= 5 && t[0] == ':' && t[|t| - 1] == ')' &&
    exists k :: 1 < k < |t| - 2 && t[k] == ':' && AllDigits(t[1..k]) && AllDigits(t[k + 1..|t| - 1])
  }

  /**
   * The pattern matches `line` with its `(` at index `p` and its `:\d+:\d+\)`
   * part starting at index `q` and running to the end of the line; the
   * captured group is `line[p + 1..q]`.
   */
  predicate MatchesAt(line: string, p: nat, q: nat) {
    p < q <= |line| && line[p] == '(' && NoLineTerminator(line[p + 1..q]) && IsLocationTail(line[q..])
  }

  /** Start of the run of digits that ends just before index `end`. */
  function DigitRunStart(s: string, end: nat): (r: nat)
    requires end <= |s|
    ensures r <= end && AllDigits(s[r..end])
    ensures r == 0 || !IsDigit(s[r - 1])
    decreases end
  {
    if end > 0 && IsDigit(s[end - 1]) then
      var r := DigitRunStart(s, end - 1);
      assert s[r..end] == s[r..end - 1] + [s[end - 1]];
      r
    else end
  }

  /** A maximal run of digits is found exactly. */
  lemma {:induction false} DigitRunStartExact(s: string, start: nat, end: nat)
    requires start <= end <= |s|
    requires AllDigits(s[start..end])
    requires start == 0 || !IsDigit(s[start - 1])
    ensures DigitRunStart(s, end) == start
    decreases end - start
  {
    if end > start {
      assert IsDigit(s[start..end][end - 1 - start]);
      assert s[start..end - 1] == s[start..end][..end - 1 - start];
      DigitRunStartExact(s, start, end - 1);
    }
  }

  /** Where the `:\d+:\d+\)` part of a match must begin, scanning back from the end of the line. */
  function TailStart(line: string): (r: Option<nat>)
    ensures r.Some? ==> r.value <= |line| && IsLocationTail(line[r.value..])
  {
    var n := |line|;
    if n == 0 || line[n - 1] != ')' then None
    else
      var d2 := DigitRunStart(line, n - 1);
      if d2 == n - 1 || d2 == 0 || line[d2 - 1] != ':' then None
      else
        var d1 := DigitRunStart(line, d2 - 1);
        if d1 == d2 - 1 || d1 == 0 || line[d1 - 1] != ':' then None
        else
          LocationTailAt(line, d1 - 1, d2 - d1);
          Some(d1 - 1)
  }

  /** Two digit runs between colons, closed by `)` at the end of the line, make a location tail. */
  lemma {:induction false} LocationTailAt(line: string, q: nat, k: nat)
    requires q + k + 2 < |line|
    requires 1 < k && line[q] == ':' && line[q + k] == ':' && line[|line| - 1] == ')'
    requires AllDigits(line[q + 1..q + k]) && AllDigits(line[q + k + 1..|line| - 1])
    ensures IsLocationTail(line[q..])
  {
    var t := line[q..];
    assert t[1..k] == line[q + 1..q + k];
    assert t[k + 1..|t| - 1] == line[q + k + 1..|line| - 1];
  }

  /** Every place a `:\d+:\d+\)` tail could begin is the one `TailStart` finds, so it is unique. */
  lemma {:induction false} TailStartComplete(line: string, q: nat)
    requires q <= |line| && IsLocationTail(line[q..])
    ensures TailStart(line) == Some(q)
  {
    var t := line[q..];
    var k :| 1 < k < |t| - 2 && t[k] == ':' && AllDigits(t[1..k]) && AllDigits(t[k + 1..|t| - 1]);
    assert line[q + 1..q + k] == t[1..k];
    assert line[q + k + 1..|line| - 1] == t[k + 1..|t| - 1];
    TailStartAt(line, q, k);
  }

  lemma {:induction false} TailStartAt(line: string, q: nat, k: nat)
    requires q + k + 2 < |line|
    requires 1 < k && line[q] == ':' && line[q + k] == ':' && line[|line| - 1] == ')'
    requires AllDigits(line[q + 1..q + k]) && AllDigits(line[q + k + 1..|line| - 1])
    ensures TailStart(line) == Some(q)
  {
    var n := |line|;
    DigitRunStartExact(line, q + k + 1, n - 1);
    DigitRunStartExact(line, q + 1, q + k);
  }

  /** The leftmost `(` at or after `from` from which `.*?` can reach index `q`. */
  function FirstOpen(line: string, from: nat, q: nat): (r: Option<nat>)
    requires q <= |line|
    decreases q - from
    ensures r.Some? ==> from <= r.value < q && line[r.value] == '(' && NoLineTerminator(line[r.value + 1..q])
    ensures r.Some? ==> forall p :: from <= p < r.value ==> !(line[p] == '(' && NoLineTerminator(line[p + 1..q]))
    ensures r.None? ==> forall p :: from <= p < q ==> !(line[p] == '(' && NoLineTerminator(line[p + 1..q]))
  {
    if from >= q then None
    else if line[from] == '(' && NoLineTerminator(line[from + 1..q]) then Some(from)
    else FirstOpen(line, from + 1, q)
  }

  /** `line.match(/\((.*?):\d+:\d+\)$/)?.[1]`: the captured group of the first match. */
  function MatchLocation(line: string): Option<string> {
    match TailStart(line)
    case None => None
    case Some(q) =>
      match FirstOpen(line, 0, q)
      case None => None
      case Some(p) => Some(line[p + 1..q])
  }

  /**
   * `MatchLocation` behaves as the regular expression does: it finds a match
   * whenever there is one, and then it captures the group of the match that
   * starts leftmost.
   */
  lemma {:induction false} MatchLocationIsLeftmostMatch(line: string)
    ensures MatchLocation(line).Some? <==> exists p: nat, q: nat :: MatchesAt(line, p, q)
    ensures MatchLocation(line).Some? ==>
      exists p: nat, q: nat :: MatchesAt(line, p, q) && MatchLocation(line).value == line[p + 1..q] &&
        forall p': nat, q': nat :: MatchesAt(line, p', q') ==> q' == q && p <= p'
  {
    if MatchLocation(line).Some? {
      var q := TailStart(line).value;
      var p := FirstOpen(line, 0, q).value;
      assert MatchesAt(line, p, q);
    }
    if exists p: nat, q: nat :: MatchesAt(line, p, q) {
      var p: nat, q: nat :| MatchesAt(line, p, q);
      TailStartComplete(line, q);
      var r := FirstOpen(line, 0, q);
      assert r.Some?;
      forall p': nat, q': nat | MatchesAt(line, p', q') ensures q' == q && r.value <= p' {
        TailStartComplete(line, q');
      }
      assert MatchesAt(line, r.value, q);
    }
  }

  /**
   * A V8 stack frame `<prefix>(<path>:<line>:<column>)` yields exactly
   * `<path>`, whatever the path contains (colons and parentheses included),
   * provided the text before the frame's `(` has none.
   */
  lemma {:induction false} MatchLocationOfFrame(prefix: string, path: string, lineNo: string, column: string)
    requires '(' !in prefix
    requires NoLineTerminator(path)
    requires |lineNo| > 0 && AllDigits(lineNo) && |column| > 0 && AllDigits(column)
    ensures MatchLocation(prefix + "(" + path + ":" + lineNo + ":" + column + ")") == Some(path)
  {
    FrameRegroup(prefix, path, lineNo, column);
    LocationTailOf(lineNo, column);
    MatchLocationOfParts(prefix, path, ":" + lineNo + ":" + column + ")");
  }

  lemma {:induction false} FrameRegroup(prefix: string, path: string, lineNo: string, column: string)
    ensures prefix + "(" + path + ":" + lineNo + ":" + column + ")" == prefix + "(" + path + (":" + lineNo + ":" + column + ")")
  {
  }

  /** `:<line>:<column>)` with two non-empty digit runs is a location tail. */
  lemma {:induction false} LocationTailOf(lineNo: string, column: string)
    requires |lineNo| > 0 && AllDigits(lineNo) && |column| > 0 && AllDigits(column)
    ensures IsLocationTail(":" + lineNo + ":" + column + ")")
  {
    var t := ":" + lineNo + ":" + column + ")";
    var k := 1 + |lineNo|;
    assert t[k] == ':';
    assert t[1..k] == lineNo;
    assert t[k + 1..|t| - 1] == column;
  }

  /** A frame `<prefix>(<path><tail>` with a location tail and no `(` in the prefix yields `<path>`. */
  lemma {:induction false} MatchLocationOfParts(prefix: string, path: string, tail: string)
    requires '(' !in prefix && NoLineTerminator(path) && IsLocationTail(tail)
    ensures MatchLocation(prefix + "(" + path + tail) == Some(path)
  {
    var line := prefix + "(" + path + tail;
    var p := |prefix|;
    var q := p + 1 + |path|;
    assert line[q..] == tail;
    TailStartComplete(line, q);
    assert line[p + 1..q] == path;
    assert forall i :: 0 <= i < p ==> line[i] == prefix[i];
    FirstOpenIs(line, p, q);
  }

  /** The first `(` of the line, when `.*?` can reach `q` from it, is the one `FirstOpen` finds. */
  lemma {:induction false} FirstOpenIs(line: string, p: nat, q: nat)
    requires p < q <= |line| && line[p] == '(' && NoLineTerminator(line[p + 1..q])
    requires forall i :: 0 <= i < p ==> line[i] != '('
    ensures FirstOpen(line, 0, q) == Some(p)
  {
    var r := FirstOpen(line, 0, q);
    assert r.Some?;
  }

  // ---------------------------------------------------------------------
  // getCallerFilePath
  // ---------------------------------------------------------------------

  /**
   * `getCallerFilePath`: split the captured stack text (`error.stack || ''`)
   * on line feeds; when there are more than four lines, match line 4 and
   * return the non-empty captured path with the first occurrence of
   * `cwd + "/"` removed; in every other case the sentinel `"unknown file"`.
   */
  function CallerFilePath(stack: Option<string>, cwd: string): string {
    var text := stack.GetOr("");
    var lines := Split(text, '\n');
    if |lines| > CallerFrameIndex then
      match MatchLocation(lines[CallerFrameIndex])
      case Some(path) => if path != "" then RemoveFirst(path, cwd + "/") else UnknownFile
      case None => UnknownFile
    else UnknownFile
  }

  /** With at most four line feeds in the stack text there is no caller line. */
  lemma {:induction false} CallerFilePathShortStack(stack: Option<string>, cwd: string)
    requires Count(stack.GetOr(""), '\n') < CallerFrameIndex
    ensures CallerFilePath(stack, cwd) == UnknownFile
  {
  }

  /** A line 4 without a `(path:line:column)` frame at its end gives the sentinel. */
  lemma {:induction false} CallerFilePathNoFrame(stack: Option<string>, cwd: string)
    requires |Split(stack.GetOr(""), '\n')| > CallerFrameIndex
    requires forall p, q :: !MatchesAt(Split(stack.GetOr(""), '\n')[CallerFrameIndex], p, q)
    ensures CallerFilePath(stack, cwd) == UnknownFile
  {
    MatchLocationIsLeftmostMatch(Split(stack.GetOr(""), '\n')[CallerFrameIndex]);
  }

  /**
   * A stack whose fifth line is a frame for a file under the working
   * directory yields the path relative to it.
   */
  lemma {:induction false} CallerFilePathOfFrame(
    lines: seq<string>, prefix: string, cwd: string, relative: string, lineNo: string, column: string)
    requires |lines| > CallerFrameIndex
    requires forall i :: 0 <= i < |lines| ==> '\n' !in lines[i]
    requires lines[CallerFrameIndex] == prefix + "(" + cwd + "/" + relative + ":" + lineNo + ":" + column + ")"
    requires '(' !in prefix && NoLineTerminator(cwd + "/" + relative)
    requires |lineNo| > 0 && AllDigits(lineNo) && |column| > 0 && AllDigits(column)
    ensures CallerFilePath(Some(Join(lines, '\n')), cwd) == relative
  {
    SplitJoin(lines, '\n');
    var path := cwd + "/" + relative;
    assert lines[CallerFrameIndex] == prefix + "(" + path + ":" + lineNo + ":" + column + ")";
    MatchLocationOfFrame(prefix, path, lineNo, column);
    assert path != "";
    assert path[..|cwd + "/"|] == cwd + "/";
    RemoveFirstPrefix(path, cwd + "/");
    assert path[|cwd + "/"|..] == relative;
  }

  // ---------------------------------------------------------------------
  // Records and dispatch
  // ---------------------------------------------------------------------

  /** The inputs of one logging call that come from outside the program. */
  datatype CallContext = CallContext(now: string, callStack: Option<string>, cwd: string)

  /** `error`'s argument: a plain message, or an `Error` with its message and stack. */
  datatype MessageOrError = Text(text: string) | ErrorValue(message: string, stack: Option<string>)

  /** One call of a transport's `log`: the transport's index in the list and the record. */
  datatype Delivery = Delivery(transport: nat, record: LogData)

  /** How a logging call ends. */
  datatype LogOutcome =
    | Filtered                                // below the minimum level: nothing built
    | Dispatched(record: LogData)             // every transport was called
    | Escaped(record: LogData, transport: nat) // a transport threw; the exception leaves the call

  /** What one logging call adds: transport calls in order, standard-error lines, and how it ended. */
  datatype Effect = Effect(deliveries: seq<Delivery>, diagnostics: seq<string>, outcome: LogOutcome)

  /** The record `log` builds for a call that passes the filter. */
  function BuildRecord(level: LogLevel, message: string, meta: Option<Json>, stack: Option<string>, ctx: CallContext): (r: LogData)
  {
    LogData(ctx.now, level, level.Name(), message, CallerFilePath(ctx.callStack, ctx.cwd), meta, stack)
  }

  /** Index of the first transport whose `log` throws on `rec`, or the list's length when none does. */
  function FirstThrow(transports: seq<Transport>, rec: LogData): (k: nat)
    ensures k <= |transports|
    ensures forall j :: 0 <= j < k ==> transports[j].outcome(rec) != Threw
    ensures k < |transports| ==> transports[k].outcome(rec) == Threw
  {
    if |transports| == 0 then 0
    else if transports[0].outcome(rec) == Threw then 0
    else 1 + FirstThrow(transports[1..], rec)
  }

  /** Calls of transports 0 .. n-1, each with `rec`. */
  function FanOut(rec: LogData, n: nat): (d: seq<Delivery>)
  {
    seq(n, i requires 0 <= i => Delivery(i, rec))
  }

  predicate AnyRejected(transports: seq<Transport>, rec: LogData) {
    exists j :: 0 <= j < |transports| && transports[j].outcome(rec) == Rejected
  }

  /**
   * The effect of `log(level, message, meta, stack)` on a logger with
   * minimum `minLevel` and the given transports. `transports.map(t =>
   * t.log(rec))` calls them in order; a synchronous throw stops the map and
   * leaves the call; otherwise `Promise.all(...).catch` reports a rejection
   * once on standard error.
   */
  function Dispatch(
    minLevel: LogLevel, transports: seq<Transport>,
    level: LogLevel, message: string, meta: Option<Json>, stack: Option<string>, ctx: CallContext): Effect
  {
    if level.Below(minLevel) then Effect([], [], Filtered)
    else
      var rec := BuildRecord(level, message, meta, stack, ctx);
      var k := FirstThrow(transports, rec);
      if k < |transports| then Effect(FanOut(rec, k + 1), [], Escaped(rec, k))
      else Effect(FanOut(rec, |transports|), if AnyRejected(transports, rec) then [FanOutFailure] else [], Dispatched(rec))
  }

  /** Below the minimum level nothing is built, no transport is called and nothing is reported. */
  lemma {:induction false} FilteredCallDoesNothing(
    minLevel: LogLevel, transports: seq<Transport>,
    level: LogLevel, message: string, meta: Option<Json>, stack: Option<string>, ctx: CallContext)
    requires level.Ordinal() < minLevel.Ordinal()
    ensures Dispatch(minLevel, transports, level, message, meta, stack, ctx) == Effect([], [], Filtered)
  {
  }

  /**
   * At or above the minimum level, when no transport throws, every transport
   * is called exactly once, in list order, with the same record, whose
   * fields are the call's own and whose level name is the enum member's name.
   */
  lemma {:induction false} FanOutIsComplete(
    minLevel: LogLevel, transports: seq<Transport>,
    level: LogLevel, message: string, meta: Option<Json>, stack: Option<string>, ctx: CallContext)
    requires !level.Below(minLevel)
    requires forall j :: 0 <= j < |transports| ==>
      transports[j].outcome(BuildRecord(level, message, meta, stack, ctx)) != Threw
    ensures var e := Dispatch(minLevel, transports, level, message, meta, stack, ctx);
      && e.outcome.Dispatched?
      && var rec := e.outcome.record;
      && rec.level == level && rec.levelName == level.Name() && rec.message == message
      && rec.meta == meta && rec.stack == stack && rec.timestamp == ctx.now
      && |e.deliveries| == |transports|
      && (forall i :: 0 <= i < |e.deliveries| ==> e.deliveries[i] == Delivery(i, rec))
  {
  }

  /**
   * Rejections are reported once per call, however many transports reject,
   * and only when the fan-out completed.
   */
  lemma {:induction false} RejectionsReportedOnce(
    minLevel: LogLevel, transports: seq<Transport>,
    level: LogLevel, message: string, meta: Option<Json>, stack: Option<string>, ctx: CallContext)
    ensures var e := Dispatch(minLevel, transports, level, message, meta, stack, ctx);
      && |e.diagnostics| <= 1
      && (|e.diagnostics| == 1 <==> e.outcome.Dispatched? && AnyRejected(transports, e.outcome.record))
  {
  }

  /**
   * A transport that throws synchronously stops the fan-out: it and the
   * transports before it were called, the later ones were not, and the
   * exception leaves the logging call.
   */
  lemma {:induction false} ThrowStopsFanOut(
    minLevel: LogLevel, transports: seq<Transport>,
    level: LogLevel, message: string, meta: Option<Json>, stack: Option<string>, ctx: CallContext, k: nat)
    requires !level.Below(minLevel)
    requires k < |transports|
    requires transports[k].outcome(BuildRecord(level, message, meta, stack, ctx)) == Threw
    requires forall j :: 0 <= j < k ==> transports[j].outcome(BuildRecord(level, message, meta, stack, ctx)) != Threw
    ensures var e := Dispatch(minLevel, transports, level, message, meta, stack, ctx);
      e.outcome == Escaped(BuildRecord(level, message, meta, stack, ctx), k) &&
      |e.deliveries| == k + 1 && e.diagnostics == []
  {
    var rec := BuildRecord(level, message, meta, stack, ctx);
    var f := FirstThrow(transports, rec);
    assert f == k;
  }

  /** Which message and stack `error` logs for each kind of argument. */
  function ErrorMessage(m: MessageOrError): string {
    match m
    case Text(t) => t
    case ErrorValue(msg, _) => msg
  }

  function ErrorStack(m: MessageOrError): Option<string> {
    match m
    case Text(_) => None
    case ErrorValue(_, st) => st
  }

  /**
   * `error(new Error("boom"))` logs message "boom" with the error's stack;
   * `error("boom")` logs message "boom" and no stack.
   */
  lemma {:induction false} ErrorRecordFields(
    minLevel: LogLevel, transports: seq<Transport>, m: MessageOrError, meta: Option<Json>, ctx: CallContext)
    ensures var e := Dispatch(minLevel, transports, ERROR, ErrorMessage(m), meta, ErrorStack(m), ctx);
      e.outcome != Filtered &&
      (m.ErrorValue? ==> e.outcome.record.message == m.message && e.outcome.record.stack == m.stack) &&
      (m.Text? ==> e.outcome.record.message == m.text && e.outcome.record.stack == None)
  {
  }

  /**
   * The scenario of a logger at INFO with one capturing transport: after
   * `debug("x")` and then `info("y")` the transport has been called exactly
   * once, for "y".
   */
  lemma {:induction false} DebugThenInfoScenario(capture: Transport, ctx1: CallContext, ctx2: CallContext)
    requires forall rec :: capture.outcome(rec) != Threw
    ensures var d1 := Dispatch(INFO, [capture], DEBUG, "x", None, None, ctx1).deliveries;
      var d2 := Dispatch(INFO, [capture], INFO, "y", None, None, ctx2).deliveries;
      |d1 + d2| == 1 && (d1 + d2)[0].transport == 0 && (d1 + d2)[0].record.message == "y"
  {
  }

  // ---------------------------------------------------------------------
  // The Logger class
  // ---------------------------------------------------------------------

  /**
   * A logger: its minimum level and transports are fixed at construction.
   * What the transports received and what went to standard error are
   * recorded as traces.
   */
  class Logger {
    const minLevel: LogLevel
    const transports: seq<Transport>
    var deliveries: seq<Delivery>
    var diagnostics: seq<string>

    constructor (options: LoggerOptions)
      ensures minLevel == options.level && transports == options.transports
      ensures deliveries == [] && diagnostics == []
    {
      minLevel := options.level;
      transports := options.transports;
      deliveries := [];
      diagnostics := [];
    }

    /** The traces grew by exactly what `e` says. */
    twostate predicate Applied(e: Effect)
      reads this
    {
      deliveries == old(deliveries) + e.deliveries && diagnostics == old(diagnostics) + e.diagnostics
    }

    /** The private `log`: filter, build the record, call the transports in order. */
    method Log(level: LogLevel, message: string, meta: Option<Json>, stack: Option<string>, ctx: CallContext)
      returns (outcome: LogOutcome)
      modifies this
      ensures Applied(Dispatch(minLevel, transports, level, message, meta, stack, ctx))
      ensures outcome == Dispatch(minLevel, transports, level, message, meta, stack, ctx).outcome
    {
      if level.Below(minLevel) {
        return Filtered;
      }
      var rec := BuildRecord(level, message, meta, stack, ctx);
      var rejected := false;
      var i := 0;
      while i < |transports|
        invariant 0 <= i <= |transports|
        invariant forall j :: 0 <= j < i ==> transports[j].outcome(rec) != Threw
        invariant deliveries == old(deliveries) + FanOut(rec, i)
        invariant diagnostics == old(diagnostics)
        invariant rejected <==> exists j :: 0 <= j < i && transports[j].outcome(rec) == Rejected
      {
        deliveries := deliveries + [Delivery(i, rec)];
        var o := transports[i].outcome(rec);
        if o == Threw {
          assert FirstThrow(transports, rec) == i;
          assert FanOut(rec, i) + [Delivery(i, rec)] == FanOut(rec, i + 1);
          return Escaped(rec, i);
        }
        if o == Rejected {
          rejected := true;
        }
        assert FanOut(rec, i) + [Delivery(i, rec)] == FanOut(rec, i + 1);
        i := i + 1;
      }
      if rejected {
        diagnostics := diagnostics + [FanOutFailure];
      }
      return Dispatched(rec);
    }

    method Debug(message: string, meta: Option<Json>, ctx: CallContext) returns (outcome: LogOutcome)
      modifies this
      ensures Applied(Dispatch(minLevel, transports, DEBUG, message, meta, None, ctx))
      ensures outcome == Dispatch(minLevel, transports, DEBUG, message, meta, None, ctx).outcome
    {
      outcome := Log(DEBUG, message, meta, None, ctx);
    }

    method Info(message: string, meta: Option<Json>, ctx: CallContext) returns (outcome: LogOutcome)
      modifies this
      ensures Applied(Dispatch(minLevel, transports, INFO, message, meta, None, ctx))
      ensures outcome == Dispatch(minLevel, transports, INFO, message, meta, None, ctx).outcome
    {
      outcome := Log(INFO, message, meta, None, ctx);
    }

    method Warn(message: string, meta: Option<Json>, ctx: CallContext) returns (outcome: LogOutcome)
      modifies this
      ensures Applied(Dispatch(minLevel, transports, WARN, message, meta, None, ctx))
      ensures outcome == Dispatch(minLevel, transports, WARN, message, meta, None, ctx).outcome
    {
      outcome := Log(WARN, message, meta, None, ctx);
    }

    /** `error` takes its message and stack from an `Error`, or the message alone from a string. */
    method Error(message: MessageOrError, meta: Option<Json>, ctx: CallContext) returns (outcome: LogOutcome)
      modifies this
      ensures Applied(Dispatch(minLevel, transports, ERROR, ErrorMessage(message), meta, ErrorStack(message), ctx))
      ensures outcome == Dispatch(minLevel, transports, ERROR, ErrorMessage(message), meta, ErrorStack(message), ctx).outcome
    {
      match message {
        case ErrorValue(msg, st) =>
          outcome := Log(ERROR, msg, meta, st, ctx);
        case Text(t) =>
          outcome := Log(ERROR, t, meta, None, ctx);
      }
    }
  }
}
