/**
 * `Test`: one named test and the log of its attempts.
 *
 * `execute` runs attempts 1..repeats. A synchronous attempt calls the user
 * callback and classifies what happened by the thrown value's `code`:
 * nothing thrown is 'SUCCESS', 'ERR_ASSERTION' is 'FAIL', anything else is
 * 'ERROR'; it then appends one `resultEntry` to `_tests`. Afterwards only
 * the first entry is printed. Whatever goes wrong is caught and logged, so
 * `execute` itself never throws.
 *
 * The callback, the clock and the console are outside the model: a callback
 * is given by what each of its invocations does, the clock by the duration
 * it reports for each attempt, and the console by the `Output` a run ends with.
 */
module Tests {
  import opened JsValues
  import opened ResultErrors
  import opened ResultEntries
  import StaticsChecker

  /** What one invocation of the user callback does. */
  datatype CallOutcome = Returns | Throws(thrown: Value)

  /** The callback, by what its invocation for attempt `i` does. */
  type Callback = nat -> CallOutcome

  /** The duration `_resolveMark` reports for attempt `i` of the test called `name`. */
  type Clock = (string, nat) -> real

  /** The test's settings, none of which the test changes after construction. */
  datatype TestConfig = TestConfig(name: string, callback: Callback, isAsync: Value, repeats: int)

  /** The attempts a run made: the entries appended and, if one was thrown, what stopped the loop. */
  datatype Trace = Trace(entries: seq<ResultEntry>, fault: Option<Value>)

  /** The fields `print` renders: name, colour, result, duration and error name. */
  datatype ReportLine = ReportLine(name: string, green: bool, result: Value, duration: Value, errorName: Value)

  /** What a run writes to the console: the report line, or the value its catch-all logs. */
  datatype Output = Printed(line: ReportLine) | Logged(caught: Value)

  /** A run's effect: the new log, and its output. */
  datatype Run = Run(log: seq<ResultEntry>, out: Output)

  const Success: Value := Str("SUCCESS")
  const Fail: Value := Str("FAIL")
  const Error: Value := Str("ERROR")

  /** `async = false`: the default parameter replaces an omitted (undefined) flag only. */
  function AsyncFlag(async: Value): (r: Value)
    ensures r != Undefined && (async != Undefined ==> r == async)
    ensures Truthy(r) <==> Truthy(async)
  {
    if async == Undefined then Bool(false) else async
  }

  /** The object `data` an attempt builds: `{retry: i}`, then `result`, `error` if caught, `duration`. */
  function AttemptData(i: nat, result: Value, error: Option<Value>, duration: real): Value
  {
    Object([("retry", Num(i as real)), ("result", result)]
           + (if error.Some? then [("error", error.value)] else [])
           + [("duration", Num(duration))])
  }

  /** `new resultEntry(data)` for an attempt's data. */
  function AttemptEntry(i: nat, result: Value, error: Option<Value>, duration: real): (e: ResultEntry)
    requires error.Some? ==> Truthy(error.value)
    ensures NewResultEntry(AttemptData(i, result, error, duration)) == Normal(e)
    ensures e.result == result && e.retry == Num(i as real)
    ensures e.error == (if error.Some? then error.value else Null)
    ensures e.duration == (if duration == 0.0 then Null else Num(duration))
  {
    var data := AttemptData(i, result, error, duration);
    var props := data.props;
    LookupFirst(props, "result", 1);
    LookupFirst(props, "duration", |props| - 1);
    if error.Some? then
      LookupFirst(props, "error", 2);
      NewResultEntry(data).value
    else
      assert forall j :: 0 <= j < |props| ==> props[j].0 != "error";
      NewResultEntry(data).value
  }

  /** The result an attempt records for a thrown value whose `code` can be read. */
  function Classify(e: Value): (result: Value)
    requires !Nullish(e)
    ensures result == Fail <==> Get(e, "code") == Str("ERR_ASSERTION")
    ensures result == Fail || result == Error
  {
    if Get(e, "code") == Str("ERR_ASSERTION") then Fail else Error
  }

  /** The entry of an attempt whose callback threw `e`, a value that is not null or undefined. */
  function CaughtEntry(i: nat, e: Value, duration: real): (entry: ResultEntry)
    requires !Nullish(e)
    ensures entry.result == Classify(e) && entry.retry == Num(i as real)
    ensures entry.error == ErrorObject(NewResultError(e).value) && entry.error != Null
    ensures entry.duration == Or(Num(duration), Null)
  {
    var error := ErrorObject(NewResultError(e).value);
    assert Truthy(error) && error != Null;
    assert Or(Num(duration), Null) == if duration == 0.0 then Null else Num(duration);
    AttemptEntry(i, Classify(e), Some(error), duration)
  }

  /**
   * `_executeSync(i)`: the entry attempt `i` appends, or the value that
   * escapes it. Reading `e.code` of a thrown null or undefined throws a
   * TypeError out of the catch block, and then nothing is appended.
   */
  function SyncAttempt(cfg: TestConfig, i: nat, clock: Clock): (r: Completion<ResultEntry>)
    ensures r.Throw? <==> cfg.callback(i).Throws? && Nullish(cfg.callback(i).thrown)
    ensures r.Throw? ==> Get(r.exc, "name") == Str("TypeError")
    ensures r.Normal? ==> r.value.retry == Num(i as real)
    ensures r.Normal? ==> r.value.duration == Or(Num(clock(cfg.name, i)), Null)
    ensures r.Normal? ==> (r.value.result == Success <==> cfg.callback(i) == Returns)
    ensures r.Normal? ==> (r.value.error == Null <==> r.value.result == Success)
    ensures r.Normal? && cfg.callback(i).Throws? ==> r.value == CaughtEntry(i, cfg.callback(i).thrown, clock(cfg.name, i))
  {
    var d := clock(cfg.name, i);
    match cfg.callback(i)
    case Returns => Normal(AttemptEntry(i, Success, None, d))
    case Throws(e) =>
      match GetProp(e, "code")
      case Throw(t) => Throw(t)
      case Normal(_) => Normal(CaughtEntry(i, e, d))
  }

  /**
   * `await _executeAsync()`: the promise rejects with what the callback
   * throws before it settles the promise; a callback that returns is taken
   * to settle the promise through `done`, which records nothing in
   * `_tests`. `Throws` stands for a callback that throws before calling
   * `done`.
   */
  function AsyncAttempt(cfg: TestConfig, i: nat): (fault: Option<Value>)
    ensures fault.Some? <==> cfg.callback(i).Throws?
    ensures fault.Some? ==> fault.value == cfg.callback(i).thrown
  {
    match cfg.callback(i)
    case Returns => None
    case Throws(e) => Some(e)
  }

  /** The effect of attempt `i` alone: the entry it appends, or the value that escapes it. */
  function Step(cfg: TestConfig, i: nat, clock: Clock): (t: Trace)
    ensures |t.entries| <= 1 && (t.fault.Some? ==> t.entries == [])
  {
    if Truthy(cfg.isAsync) then Trace([], AsyncAttempt(cfg, i))
    else
      match SyncAttempt(cfg, i, clock)
      case Throw(e) => Trace([], Some(e))
      case Normal(entry) => Trace([entry], None)
  }

  /**
   * The loop `for (i = from; i <= last; i++)` over attempts whose effects are
   * `step(i)`: their entries in order, up to the first attempt that throws,
   * which ends the loop.
   */
  function Loop(step: nat -> Trace, from: nat, last: int): Trace
    decreases last - from
  {
    if from > last then Trace([], None)
    else if step(from).fault.Some? then Trace([], step(from).fault)
    else Prepend(step(from).entries, Loop(step, from + 1, last))
  }

  /** The attempts `from..repeats` of `execute`'s loop, up to the first that throws. */
  function Attempts(cfg: TestConfig, from: nat, clock: Clock): Trace
  {
    Loop((i: nat) => Step(cfg, i, clock), from, cfg.repeats)
  }

  /**
   * `print()`: reports `_tests[0]` only, green exactly when its result is
   * 'SUCCESS', with the error's name or ''. An empty log makes it read
   * `undefined.result`, which throws.
   */
  function Print(name: string, log: seq<ResultEntry>): (r: Completion<ReportLine>)
    ensures r.Throw? <==> log == [] || log[0].error == Undefined
    ensures r.Normal? ==> r.value.name == name && r.value.result == log[0].result
                          && r.value.duration == log[0].duration
                          && (r.value.green <==> log[0].result == Success)
                          && r.value.errorName == (if log[0].error == Null then Str("") else Get(log[0].error, "name"))
  {
    if log == [] then Throw(TypeError("Cannot read properties of undefined (reading 'result')"))
    else
      var first := log[0];
      var errorName := if first.error != Null then GetProp(first.error, "name") else Normal(Str(""));
      match errorName
      case Throw(t) => Throw(t)
      case Normal(n) => Normal(ReportLine(name, first.result == Success, first.result, first.duration, n))
  }

  /** `execute()`: the attempts, then `print`; a value thrown by either is logged instead. */
  function RunTest(cfg: TestConfig, before: seq<ResultEntry>, clock: Clock): (r: Run)
    ensures |before| <= |r.log| && r.log[..|before|] == before
    ensures r.log[|before|..] == Attempts(cfg, 1, clock).entries
    ensures r.out.Printed? <==> Attempts(cfg, 1, clock).fault.None? && Print(cfg.name, r.log).Normal?
    ensures r.out.Printed? ==> r.out.line == Print(cfg.name, r.log).value
    ensures Attempts(cfg, 1, clock).fault.Some? ==> r.out == Logged(Attempts(cfg, 1, clock).fault.value)
    ensures Attempts(cfg, 1, clock).fault.None? && Print(cfg.name, r.log).Throw? ==>
              r.out == Logged(Print(cfg.name, r.log).exc)
  {
    var t := Attempts(cfg, 1, clock);
    var log := before + t.entries;
    if t.fault.Some? then Run(log, Logged(t.fault.value))
    else
      match Print(cfg.name, log)
      case Normal(line) => Run(log, Printed(line))
      case Throw(e) => Run(log, Logged(e))
  }

  class Test {
    const name: string
    const callback: Callback
    const isAsync: Value
    const repeats: int
    /** `_tests`: the log of attempts, appended to in place. */
    var tests: seq<ResultEntry>

    function Config(): TestConfig
    {
      TestConfig(name, callback, isAsync, repeats)
    }

    /** `new Test(name, callback, async = false, repeats = 1)` */
    constructor(name: string, callback: Callback, async: Value := Undefined, repeats: int := 1)
      ensures Config() == TestConfig(name, callback, AsyncFlag(async), repeats)
      ensures tests == []
    {
      this.name := name;
      this.callback := callback;
      this.isAsync := AsyncFlag(async);
      this.tests := [];
      this.repeats := repeats;
    }

    /** `_executeSync(i)`: one synchronous attempt, appended to the log unless it escapes. */
    method ExecuteSync(i: nat, clock: Clock) returns (fault: Option<Value>)
      modifies this
      ensures SyncAttempt(Config(), i, clock).Normal? ==>
                tests == old(tests) + [SyncAttempt(Config(), i, clock).value] && fault == None
      ensures SyncAttempt(Config(), i, clock).Throw? ==>
                tests == old(tests) && fault == Some(SyncAttempt(Config(), i, clock).exc)
    {
      fault := None;
      var result: Value;
      var error: Option<Value> := None;
      match callback(i) {
        case Returns =>
          result := Success;
        case Throws(e) =>
          var code := GetProp(e, "code");
          if code.Throw? {
            return Some(code.exc);
          }
          if code.value == Str("ERR_ASSERTION") {
            result := Fail;
          } else {
            result := Error;
          }
          var record := NewResultError(e);
          error := Some(ErrorObject(record.value));
      }
      var duration := clock(name, i);
      var entry := NewResultEntry(AttemptData(i, result, error, duration));
      assert entry == Normal(AttemptEntry(i, result, error, duration));
      tests := tests + [entry.value];
    }

    /** `await _executeAsync()`: nothing is recorded; a callback that throws before calling `done` rejects the promise. */
    method ExecuteAsync(i: nat) returns (fault: Option<Value>)
      ensures fault == AsyncAttempt(Config(), i)
    {
      fault := None;
      match callback(i) {
        case Returns =>
        case Throws(e) =>
          fault := Some(e);
      }
    }

    /** The body of `execute`'s loop: attempt `i`, synchronous or not as the test is. */
    method Attempt(i: nat, clock: Clock) returns (fault: Option<Value>)
      modifies this
      ensures tests == old(tests) + Step(Config(), i, clock).entries
      ensures fault == Step(Config(), i, clock).fault
    {
      if !Truthy(isAsync) {
        fault := ExecuteSync(i, clock);
      } else {
        fault := ExecuteAsync(i);
      }
    }

    /** `execute()` */
    method Execute(clock: Clock) returns (out: Output)
      modifies this
      ensures Run(tests, out) == RunTest(Config(), old(tests), clock)
    {
      ghost var before := tests;
      ghost var cfg := Config();
      ghost var done: seq<ResultEntry> := [];
      var fault: Option<Value> := None;
      var i := 1;
      while i <= repeats && fault.None?
        invariant 1 <= i && tests == before + done
        invariant fault.None? ==> Attempts(cfg, 1, clock) == Prepend(done, Attempts(cfg, i, clock))
        invariant fault.Some? ==> Attempts(cfg, 1, clock) == Trace(done, fault)
        decreases repeats - i
      {
        ghost var s := Step(cfg, i, clock);
        AttemptsStep(cfg, i, clock, done);
        fault := Attempt(i, clock);
        done := done + s.entries;
        i := i + 1;
      }
      if fault.None? {
        assert Attempts(cfg, i, clock) == Trace([], None);
      }
      if fault.Some? {
        out := Logged(fault.value);
      } else {
        var line := Print(name, tests);
        if line.Normal? {
          out := Printed(line.value);
        } else {
          out := Logged(line.exc);
        }
      }
    }
  }

  function Prepend(entries: seq<ResultEntry>, t: Trace): Trace
  {
    Trace(entries + t.entries, t.fault)
  }

  /** One turn of `execute`'s loop, as the attempts that remain see it. */
  lemma AttemptsStep(cfg: TestConfig, i: nat, clock: Clock, done: seq<ResultEntry>)
    requires i <= cfg.repeats
    ensures Step(cfg, i, clock).fault.None? ==>
              Prepend(done, Attempts(cfg, i, clock))
              == Prepend(done + Step(cfg, i, clock).entries, Attempts(cfg, i + 1, clock))
    ensures Step(cfg, i, clock).fault.Some? ==>
              Prepend(done, Attempts(cfg, i, clock)) == Trace(done, Step(cfg, i, clock).fault)
  {
    AttemptsUnfold(cfg, i, clock);
    var s := Step(cfg, i, clock);
    var rest := Attempts(cfg, i + 1, clock);
    if s.fault.None? {
      assert Attempts(cfg, i, clock) == Trace(s.entries + rest.entries, rest.fault);
      assert done + (s.entries + rest.entries) == (done + s.entries) + rest.entries;
    } else {
      assert Attempts(cfg, i, clock) == Trace([], s.fault);
      assert done + [] == done;
    }
  }

  /** The attempts from `i` on: attempt `i`, then the ones after it unless it throws. */
  lemma AttemptsUnfold(cfg: TestConfig, i: nat, clock: Clock)
    requires i <= cfg.repeats
    ensures Attempts(cfg, i, clock)
         == if Step(cfg, i, clock).fault.Some? then Trace([], Step(cfg, i, clock).fault)
            else Prepend(Step(cfg, i, clock).entries, Attempts(cfg, i + 1, clock))
  {
    var step := (j: nat) => Step(cfg, j, clock);
    assert step(i) == Step(cfg, i, clock);
  }

  /** A loop whose attempts each append one entry and none throws appends one entry per attempt, in order. */
  lemma {:induction false} LoopRecordsEach(step: nat -> Trace, from: nat, last: int)
    requires forall i: nat :: from <= i <= last ==> step(i).fault.None? && |step(i).entries| == 1
    ensures Loop(step, from, last).fault.None?
    ensures |Loop(step, from, last).entries| == if from <= last then last - from + 1 else 0
    ensures forall k :: 0 <= k < |Loop(step, from, last).entries| ==>
              Loop(step, from, last).entries[k] == step(from + k).entries[0]
    decreases last - from
  {
    if from <= last {
      LoopRecordsEach(step, from + 1, last);
      var all := Loop(step, from, last);
      var rest := Loop(step, from + 1, last);
      forall k | 0 <= k < |all.entries| ensures all.entries[k] == step(from + k).entries[0] {
        if k > 0 {
          assert all.entries[k] == rest.entries[k - 1];
        }
      }
    }
  }

  /**
   * A loop whose attempt `k` throws, after attempts that each appended one
   * entry, appends exactly those entries and stops with what `k` threw.
   */
  lemma {:induction false} LoopStopsAt(step: nat -> Trace, from: nat, k: nat, last: int)
    requires from <= k <= last && step(k).fault.Some?
    requires forall i: nat :: from <= i < k ==> step(i).fault.None? && |step(i).entries| == 1
    ensures |Loop(step, from, last).entries| == k - from
    ensures forall j :: 0 <= j < k - from ==> Loop(step, from, last).entries[j] == step(from + j).entries[0]
    ensures Loop(step, from, last).fault == step(k).fault
    decreases k - from
  {
    if from < k {
      LoopStopsAt(step, from + 1, k, last);
      var all := Loop(step, from, last);
      var rest := Loop(step, from + 1, last);
      forall j | 0 <= j < k - from ensures all.entries[j] == step(from + j).entries[0] {
        if j > 0 {
          assert all.entries[j] == rest.entries[j - 1];
        }
      }
    }
  }

  /** Whatever every attempt's entries satisfy, every entry of the loop satisfies. */
  lemma {:induction false} LoopKeeps(step: nat -> Trace, from: nat, last: int, p: ResultEntry -> bool)
    requires forall i: nat, e :: from <= i <= last && e in step(i).entries ==> p(e)
    ensures forall e :: e in Loop(step, from, last).entries ==> p(e)
    decreases last - from
  {
    if from <= last && step(from).fault.None? {
      LoopKeeps(step, from + 1, last, p);
    }
  }

  /** A loop whose attempts append nothing appends nothing, and ends normally exactly when no attempt throws. */
  lemma {:induction false} LoopAppendsNothing(step: nat -> Trace, from: nat, last: int)
    requires forall i: nat :: from <= i <= last ==> step(i).entries == []
    ensures Loop(step, from, last).entries == []
    ensures Loop(step, from, last).fault.None? <==> forall i: nat :: from <= i <= last ==> step(i).fault.None?
    decreases last - from
  {
    if from <= last && step(from).fault.None? {
      LoopAppendsNothing(step, from + 1, last);
    }
  }

  /** No attempt in `from..to` throws null or undefined. */
  predicate NoNullishThrow(cfg: TestConfig, from: int, to: int)
  {
    forall k: nat :: from <= k <= to ==> !(cfg.callback(k).Throws? && Nullish(cfg.callback(k).thrown))
  }

  /**
   * A synchronous test whose callback never throws null or undefined runs
   * every attempt: one entry per attempt, with `retry` counting up from the
   * first attempt's index.
   */
  lemma SyncRunRecordsEveryAttempt(cfg: TestConfig, from: nat, clock: Clock)
    requires !Truthy(cfg.isAsync) && NoNullishThrow(cfg, from, cfg.repeats)
    ensures Attempts(cfg, from, clock).fault == None
    ensures |Attempts(cfg, from, clock).entries| == if from <= cfg.repeats then cfg.repeats - from + 1 else 0
    ensures forall k :: 0 <= k < |Attempts(cfg, from, clock).entries| ==>
              Attempts(cfg, from, clock).entries[k] == SyncAttempt(cfg, from + k, clock).value
              && Attempts(cfg, from, clock).entries[k].retry == Num((from + k) as real)
  {
    var step := (i: nat) => Step(cfg, i, clock);
    forall i: nat | from <= i <= cfg.repeats
      ensures step(i).fault.None? && step(i).entries == [SyncAttempt(cfg, i, clock).value]
    {
      assert SyncAttempt(cfg, i, clock).Normal?;
    }
    LoopRecordsEach(step, from, cfg.repeats);
    var all := Attempts(cfg, from, clock).entries;
    forall k | 0 <= k < |all| ensures all[k] == SyncAttempt(cfg, from + k, clock).value {
      assert all[k] == step(from + k).entries[0];
    }
  }

  /** A result the engine records, with its error present exactly when it is not a success. */
  predicate Classified(e: ResultEntry)
  {
    (e.result == Success || e.result == Fail || e.result == Error)
    && (e.error == Null <==> e.result == Success)
  }

  /** Every entry `execute` appends is classified. */
  lemma EntriesAreClassified(cfg: TestConfig, from: nat, clock: Clock)
    ensures forall e :: e in Attempts(cfg, from, clock).entries ==> Classified(e)
  {
    var step := (i: nat) => Step(cfg, i, clock);
    forall i: nat, e | from <= i <= cfg.repeats && e in step(i).entries ensures Classified(e) {
      var r := SyncAttempt(cfg, i, clock);
      assert r.Normal? && e == r.value;
      if cfg.callback(i).Throws? {
        assert e.result == Classify(cfg.callback(i).thrown);
      }
    }
    LoopKeeps(step, from, cfg.repeats, Classified);
  }

  /**
   * A synchronous attempt whose callback throws null or undefined ends the
   * run: the attempts before it are recorded, it and the later ones are not,
   * and the TypeError from reading `e.code` is what `execute` logs.
   */
  lemma NullishThrowStops(cfg: TestConfig, from: nat, k: nat, clock: Clock)
    requires !Truthy(cfg.isAsync) && from <= k <= cfg.repeats
    requires cfg.callback(k).Throws? && Nullish(cfg.callback(k).thrown)
    requires NoNullishThrow(cfg, from, k - 1)
    ensures |Attempts(cfg, from, clock).entries| == k - from
    ensures forall j :: 0 <= j < k - from ==> Attempts(cfg, from, clock).entries[j] == SyncAttempt(cfg, from + j, clock).value
    ensures Attempts(cfg, from, clock).fault.Some?
    ensures Get(Attempts(cfg, from, clock).fault.value, "name") == Str("TypeError")
  {
    var step := (i: nat) => Step(cfg, i, clock);
    forall i: nat | from <= i < k ensures step(i).fault.None? && step(i).entries == [SyncAttempt(cfg, i, clock).value] {
      assert SyncAttempt(cfg, i, clock).Normal?;
    }
    assert SyncAttempt(cfg, k, clock).Throw?;
    LoopStopsAt(step, from, k, cfg.repeats);
  }

  /**
   * An asynchronous test records nothing; its run stops at the first
   * callback that throws before calling `done`.
   */
  lemma AsyncRecordsNothing(cfg: TestConfig, from: nat, clock: Clock)
    requires Truthy(cfg.isAsync)
    ensures Attempts(cfg, from, clock).entries == []
    ensures Attempts(cfg, from, clock).fault.None? <==> forall k: nat :: from <= k <= cfg.repeats ==> cfg.callback(k) == Returns
  {
    var step := (i: nat) => Step(cfg, i, clock);
    forall i: nat ensures step(i).entries == [] && (step(i).fault.None? <==> cfg.callback(i) == Returns) {
    }
    LoopAppendsNothing(step, from, cfg.repeats);
  }

  /**
   * A run that appends nothing to an empty log cannot print: `print` reads
   * `_tests[0]` and throws, and the catch-all logs that TypeError. Every
   * fresh asynchronous test ends this way.
   */
  lemma EmptyRunLogsFault(cfg: TestConfig, clock: Clock)
    requires Attempts(cfg, 1, clock).entries == []
    ensures RunTest(cfg, [], clock).log == []
    ensures RunTest(cfg, [], clock).out.Logged?
    ensures Attempts(cfg, 1, clock).fault.None? ==> Get(RunTest(cfg, [], clock).out.caught, "name") == Str("TypeError")
  {
  }

  lemma FreshAsyncTestLogsFault(cfg: TestConfig, clock: Clock)
    requires Truthy(cfg.isAsync)
    ensures RunTest(cfg, [], clock).log == [] && RunTest(cfg, [], clock).out.Logged?
  {
    AsyncRecordsNothing(cfg, 1, clock);
  }

  /** Only the first entry is reported: entries after it never change the line. */
  lemma PrintFirstOnly(name: string, log: seq<ResultEntry>, more: seq<ResultEntry>)
    requires log != []
    ensures Print(name, log + more) == Print(name, log)
  {
    assert (log + more)[0] == log[0];
  }

  /**
   * A fresh synchronous test with at least one attempt and no null or
   * undefined thrown prints a line for its first attempt: green exactly when
   * the first callback returned.
   */
  lemma FirstAttemptIsReported(cfg: TestConfig, clock: Clock)
    requires !Truthy(cfg.isAsync) && 1 <= cfg.repeats && NoNullishThrow(cfg, 1, cfg.repeats)
    ensures RunTest(cfg, [], clock).out.Printed?
    ensures RunTest(cfg, [], clock).out.line.green <==> cfg.callback(1) == Returns
    ensures RunTest(cfg, [], clock).out.line.result == RunTest(cfg, [], clock).log[0].result
  {
    SyncRunRecordsEveryAttempt(cfg, 1, clock);
    var t := Attempts(cfg, 1, clock);
    assert ([] + t.entries)[0] == t.entries[0];
  }

  /**
   * A callback that throws what `assert.equalSchema` throws for rejected
   * data records 'FAIL', and the record keeps the schema operator, the
   * assertion code, the data, the schema and the validator's errors (each
   * through the record's `|| null` defaulting).
   */
  lemma SchemaFailureIsRecorded(cfg: TestConfig, i: nat, clock: Clock,
                                data: Value, schema: Value, message: Value,
                                v: StaticsChecker.Validation, okFailure: Value)
    requires StaticsChecker.Rejected(v) && Get(okFailure, "code") == StaticsChecker.AssertionCode
    requires cfg.callback(i) == Throws(StaticsChecker.EqualSchemaSync(data, schema, message, v, okFailure).exc)
    ensures SyncAttempt(cfg, i, clock).Normal?
    ensures SyncAttempt(cfg, i, clock).value.result == Fail
    ensures Get(SyncAttempt(cfg, i, clock).value.error, "operator") == Str("equalSchema")
    ensures Get(SyncAttempt(cfg, i, clock).value.error, "code") == StaticsChecker.AssertionCode
    ensures Get(SyncAttempt(cfg, i, clock).value.error, "actual") == Or(data, Null)
    ensures Get(SyncAttempt(cfg, i, clock).value.error, "expected") == Or(schema, Null)
    ensures Get(SyncAttempt(cfg, i, clock).value.error, "schemaError") == Or(v.errors, Null)
  {
    var e := StaticsChecker.EqualSchemaSync(data, schema, message, v, okFailure).exc;
    assert StaticsChecker.FailureReport(e, "equalSchema", okFailure, data, schema, v.errors);
    assert Get(e, "operator") == Str("equalSchema") && Truthy(Get(e, "operator"));
    assert Get(e, "code") == StaticsChecker.AssertionCode && Truthy(Get(e, "code"));
    RecordedCatch(cfg, i, clock, e);
  }

  /** A callback that throws what `assert.equalSchema` throws for a validator fault records 'ERROR', coded 'AJV Error'. */
  lemma SchemaFaultIsRecorded(cfg: TestConfig, i: nat, clock: Clock,
                              data: Value, schema: Value, message: Value,
                              v: StaticsChecker.Validation, okFailure: Value)
    requires StaticsChecker.EngineFault(v)
    requires cfg.callback(i) == Throws(StaticsChecker.EqualSchemaSync(data, schema, message, v, okFailure).exc)
    ensures SyncAttempt(cfg, i, clock).Normal?
    ensures SyncAttempt(cfg, i, clock).value.result == Error
    ensures Get(SyncAttempt(cfg, i, clock).value.error, "code") == StaticsChecker.EngineFaultCode
    ensures Get(SyncAttempt(cfg, i, clock).value.error, "name") == StaticsChecker.EngineFaultCode
    ensures Get(SyncAttempt(cfg, i, clock).value.error, "actual") == Null
  {
    var e := StaticsChecker.EqualSchemaSync(data, schema, message, v, okFailure).exc;
    assert StaticsChecker.EngineReport(e, "equalSchema", v.call.exc, message, v.errors);
    assert Get(e, "code") == StaticsChecker.EngineFaultCode && Truthy(Get(e, "code"));
    assert Get(e, "name") == StaticsChecker.EngineFaultCode && Truthy(Get(e, "name"));
    RecordedCatch(cfg, i, clock, e);
  }

  /**
   * An attempt that throws an object records the entry built from it: its
   * error keeps each truthy field of the object and defaults the others.
   */
  lemma RecordedCatch(cfg: TestConfig, i: nat, clock: Clock, e: Value)
    requires cfg.callback(i) == Throws(e) && e.Obj?
    ensures SyncAttempt(cfg, i, clock).Normal?
    ensures SyncAttempt(cfg, i, clock).value.result == Classify(e)
    ensures Get(SyncAttempt(cfg, i, clock).value.error, "operator") == Or(Get(e, "operator"), Str(""))
    ensures Get(SyncAttempt(cfg, i, clock).value.error, "code") == Or(Get(e, "code"), Str(""))
    ensures Get(SyncAttempt(cfg, i, clock).value.error, "name") == Or(Get(e, "name"), Str(""))
    ensures Get(SyncAttempt(cfg, i, clock).value.error, "actual") == Or(Get(e, "actual"), Null)
    ensures Get(SyncAttempt(cfg, i, clock).value.error, "expected") == Or(Get(e, "expected"), Null)
    ensures Get(SyncAttempt(cfg, i, clock).value.error, "schemaError") == Or(Get(e, "schemaError"), Null)
  {
    var entry := CaughtEntry(i, e, clock(cfg.name, i));
    assert SyncAttempt(cfg, i, clock) == Normal(entry);
    var rec := NewResultError(e).value;
    assert BuiltFrom(e, rec) && entry.error == ErrorObject(rec);
  }

  /** The logs of the tests `ts`, by test. */
  ghost function Snapshot(ts: set<Test>): map<Test, seq<ResultEntry>>
    reads ts
  {
    map t | t in ts :: t.tests
  }

  /**
   * The tests `ts` were each executed once, in this order, from the logs in
   * `before`: each one's log and output are what `execute` produces.
   */
  ghost predicate RanInOrder(ts: seq<Test>, before: map<Test, seq<ResultEntry>>, outs: seq<Output>, clock: Clock)
    reads set t | t in ts
  {
    |ts| == |outs|
    && forall k :: 0 <= k < |ts| ==>
         ts[k] in before && Run(ts[k].tests, outs[k]) == RunTest(ts[k].Config(), before[ts[k]], clock)
  }

  /** Two runs in order are one run of both. */
  lemma RanInOrderAppend(a: seq<Test>, b: seq<Test>, before: map<Test, seq<ResultEntry>>,
                         outsA: seq<Output>, outsB: seq<Output>, clock: Clock)
    requires RanInOrder(a, before, outsA, clock) && RanInOrder(b, before, outsB, clock)
    ensures RanInOrder(a + b, before, outsA + outsB, clock)
  {
    forall k | 0 <= k < |a + b|
      ensures (a + b)[k] in before
              && Run((a + b)[k].tests, (outsA + outsB)[k]) == RunTest((a + b)[k].Config(), before[(a + b)[k]], clock)
    {
      if k >= |a| {
        assert (a + b)[k] == b[k - |a|] && (outsA + outsB)[k] == outsB[k - |a|];
      }
    }
  }
}
