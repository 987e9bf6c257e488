/** The guard every agent tool call passes through (internal/agent/tool_guard.go): call limits, idempotency keys, and
    the attempt loop around one call. */
module ToolGuard {
  import opened Types

  const MAXIMUM_CALLS_PER_TOOL := 4
  const MAXIMUM_CONSECUTIVE_ERRORS := 3
  const MAXIMUM_READ_ATTEMPTS := 3

  datatype ToolKind = Read | Write | Irreversible

  datatype GuardError = ConsecutiveFailures | ToolCallLimit | RepeatedToolLimit

  // ---------------------------------------------------------------- call IDs and keys

  /** strconv.Itoa on the natural numbers. */
  function Itoa(n: nat): (s: string)
    ensures s != "" && forall c <- s :: '0' <= c <= '9'
  {
    var last := [('0' as int + n % 10) as char];
    if n < 10 then last else Itoa(n / 10) + last
  }

  function Atoi(s: string): int {
    if s == "" then 0 else Atoi(s[..|s| - 1]) * 10 + (s[|s| - 1] as int - '0' as int)
  }

  lemma {:induction false} AtoiItoa(n: nat)
    ensures Atoi(Itoa(n)) == n
  {
    if n >= 10 {
      AtoiItoa(n / 10);
      assert Itoa(n)[..|Itoa(n)| - 1] == Itoa(n / 10);
    } else {
      assert Itoa(n)[..0] == "";
    }
  }

  function CallID(tool: string, n: nat): string {
    tool + "-" + Itoa(n)
  }

  /** The number can be read off a call ID whatever the tool is called. */
  lemma CallIDsAreApart(tool: string, n: nat, tool': string, n': nat)
    ensures CallID(tool, n) == CallID(tool', n') <==> tool == tool' && n == n'
  {
    if CallID(tool, n) == CallID(tool', n') {
      SameNumberPart(tool, Itoa(n), tool', Itoa(n'));
      AtoiItoa(n);
      AtoiItoa(n');
    }
  }

  lemma SameNumberPart(tool: string, d: string, tool': string, d': string)
    requires tool + "-" + d == tool' + "-" + d' && (forall c <- d :: '0' <= c <= '9')
    requires forall c <- d' :: '0' <= c <= '9'
    ensures tool == tool' && d == d'
  {
    var s := tool + "-" + d;
    assert s[|tool|] == '-' && s[|tool'|] == '-';
    assert forall k :: |tool| < k < |s| ==> s[k] == d[k - |tool| - 1] && s[k] in d;
    assert forall k :: |tool'| < k < |s| ==> s[k] == d'[k - |tool'| - 1] && s[k] in d';
    assert |tool| == |tool'|;
    assert s[..|tool|] == tool && s[..|tool|] == tool' && s[|tool| + 1..] == d && s[|tool| + 1..] == d';
  }

  function IdempotencyKey(runID: string, callID: string): string {
    "agent:" + runID + ":tool:" + callID
  }

  /** One run never gives two of its calls one key, and run IDs without a colon keep the keys of different runs
      apart. */
  lemma KeysAreApart(run: string, call: string, run': string, call': string)
    requires run == run' || (':' !in run && ':' !in run')
    ensures IdempotencyKey(run, call) == IdempotencyKey(run', call') <==> run == run' && call == call'
  {
    var key, key' := IdempotencyKey(run, call), IdempotencyKey(run', call');
    assert key[6..] == run + ":tool:" + call && key'[6..] == run' + ":tool:" + call';
    assert key[6..][..|run|] == run && key'[6..][..|run'|] == run';
    assert key[6..][|run|] == ':' && key'[6..][|run'|] == ':';
    assert key[6..][|run| + 6..] == call && key'[6..][|run'| + 6..] == call';
    if run != run' {
      assert |run| < |run'| ==> key'[6..][|run|] == run'[|run|] && run'[|run|] in run';
      assert |run'| < |run| ==> key[6..][|run'|] == run[|run'|] && run[|run'|] in run;
    }
  }

  // ---------------------------------------------------------------- the guard

  datatype Counters = Counters(total: int, byTool: map<string, int>, failures: int, next: nat)

  const FRESH := Counters(0, map[], 0, 0)

  function CallsOf(c: Counters, tool: string): int {
    if tool in c.byTool then c.byTool[tool] else 0
  }

  function Admit(c: Counters, limit: int, tool: string): Result<Counters, GuardError> {
    if c.failures >= MAXIMUM_CONSECUTIVE_ERRORS then Err(ConsecutiveFailures)
    else if c.total >= limit then Err(ToolCallLimit)
    else if CallsOf(c, tool) >= MAXIMUM_CALLS_PER_TOOL then Err(RepeatedToolLimit)
    else Ok(Counters(c.total + 1, c.byTool[tool := CallsOf(c, tool) + 1], c.failures, c.next + 1))
  }

  function Settle(c: Counters, success: bool): Counters {
    c.(failures := if success then 0 else c.failures + 1)
  }

  class ToolExecutionGuard {
    const totalLimit: int
    var totalCalls: int
    var callsByTool: map<string, int>
    var consecutiveFailures: int
    var nextCall: nat

    function State(): Counters
      reads this
    {
      Counters(totalCalls, callsByTool, consecutiveFailures, nextCall)
    }

    constructor (totalLimit: int)
      ensures State() == FRESH && this.totalLimit == totalLimit
    {
      this.totalLimit := totalLimit;
      totalCalls, callsByTool, consecutiveFailures, nextCall := 0, map[], 0, 0;
    }

    method Begin(toolName: string) returns (callID: Result<string, GuardError>)
      modifies this
      ensures match old(Admit(State(), totalLimit, toolName))
              case Err(e) => callID == Err(e) && State() == old(State())
              case Ok(c) => State() == c && callID == Ok(CallID(toolName, c.next))
    {
      if consecutiveFailures >= MAXIMUM_CONSECUTIVE_ERRORS {
        return Err(ConsecutiveFailures);
      }
      if totalCalls >= totalLimit {
        return Err(ToolCallLimit);
      }
      var calls := if toolName in callsByTool then callsByTool[toolName] else 0;
      if calls >= MAXIMUM_CALLS_PER_TOOL {
        return Err(RepeatedToolLimit);
      }
      totalCalls := totalCalls + 1;
      callsByTool := callsByTool[toolName := calls + 1];
      nextCall := nextCall + 1;
      return Ok(CallID(toolName, nextCall));
    }

    method Finish(success: bool)
      modifies this
      ensures State() == old(Settle(State(), success))
    {
      if success {
        consecutiveFailures := 0;
        return;
      }
      consecutiveFailures := consecutiveFailures + 1;
    }
  }

  // ---------------------------------------------------------------- any interleaving of the calls of one run

  datatype Event = Began(tool: string) | Finished(success: bool)

  datatype Admission = Admission(tool: string, id: string)

  function After(c: Counters, limit: int, e: Event): Counters {
    match e
    case Began(tool) => var r := Admit(c, limit, tool); if r.Ok? then r.value else c
    case Finished(success) => Settle(c, success)
  }

  /** The calls the guard lets through, in order. */
  function Admitted(c: Counters, limit: int, events: seq<Event>): seq<Admission>
    decreases |events|
  {
    if events == [] then []
    else
      (if events[0].Began? && Admit(c, limit, events[0].tool).Ok?
       then [Admission(events[0].tool, CallID(events[0].tool, c.next + 1))] else [])
      + Admitted(After(c, limit, events[0]), limit, events[1..])
  }

  function Count(calls: seq<Admission>, tool: string): nat {
    if calls == [] then 0 else (if calls[0].tool == tool then 1 else 0) + Count(calls[1..], tool)
  }

  ghost predicate NumberedAfter(calls: seq<Admission>, n: nat) {
    forall k :: 0 <= k < |calls| ==> calls[k].id == CallID(calls[k].tool, n + k + 1)
  }

  /** Numbering is consecutive whatever interleaves. */
  lemma {:induction false} AdmissionsAreNumbered(c: Counters, limit: int, events: seq<Event>)
    ensures NumberedAfter(Admitted(c, limit, events), c.next)
    decreases |events|
  {
    if events != [] {
      var rest := Admitted(After(c, limit, events[0]), limit, events[1..]);
      AdmissionsAreNumbered(After(c, limit, events[0]), limit, events[1..]);
      if events[0].Began? && Admit(c, limit, events[0].tool).Ok? {
        assert Admitted(c, limit, events)[1..] == rest;
      } else {
        assert Admitted(c, limit, events) == rest;
      }
    }
  }

  /** The limits hold for what is admitted. */
  lemma {:induction false} AdmissionsAreBounded(c: Counters, limit: int, events: seq<Event>, tool: string)
    ensures c.total <= limit ==> c.total + |Admitted(c, limit, events)| <= limit
    ensures CallsOf(c, tool) <= MAXIMUM_CALLS_PER_TOOL ==>
      CallsOf(c, tool) + Count(Admitted(c, limit, events), tool) <= MAXIMUM_CALLS_PER_TOOL
    decreases |events|
  {
    if events != [] {
      AdmissionsAreBounded(After(c, limit, events[0]), limit, events[1..], tool);
      var rest := Admitted(After(c, limit, events[0]), limit, events[1..]);
      if events[0].Began? && Admit(c, limit, events[0].tool).Ok? {
        assert Admitted(c, limit, events)[1..] == rest && Admitted(c, limit, events)[0].tool == events[0].tool;
      } else {
        assert Admitted(c, limit, events) == rest;
      }
    }
  }

  /** The failures since the last success. */
  function FailureStreak(events: seq<Event>): nat {
    if events == [] then 0
    else
      match events[|events| - 1]
      case Finished(success) => if success then 0 else 1 + FailureStreak(events[..|events| - 1])
      case Began(_) => FailureStreak(events[..|events| - 1])
  }

  function AfterAll(c: Counters, limit: int, events: seq<Event>): Counters {
    if events == [] then c else After(AfterAll(c, limit, events[..|events| - 1]), limit, events[|events| - 1])
  }

  lemma {:induction false} AdmittedSplits(c: Counters, limit: int, events: seq<Event>, e: Event)
    ensures Admitted(c, limit, events + [e])
      == Admitted(c, limit, events) + Admitted(AfterAll(c, limit, events), limit, [e])
    decreases |events|
  {
    if events == [] {
      assert events + [e] == [e];
    } else {
      var mid := After(c, limit, events[0]);
      AdmittedSplits(mid, limit, events[1..], e);
      FirstThenRest(c, limit, events);
      assert (events + [e])[1..] == events[1..] + [e];
      AdmittedFirst(c, limit, events + [e]);
      AdmittedFirst(c, limit, events);
    }
  }

  /** What the first event admits. */
  function AdmittedAt(c: Counters, limit: int, e: Event): seq<Admission> {
    if e.Began? && Admit(c, limit, e.tool).Ok? then [Admission(e.tool, CallID(e.tool, c.next + 1))] else []
  }

  lemma AdmittedFirst(c: Counters, limit: int, events: seq<Event>)
    requires events != []
    ensures Admitted(c, limit, events)
      == AdmittedAt(c, limit, events[0]) + Admitted(After(c, limit, events[0]), limit, events[1..])
  {
  }

  lemma {:induction false} FirstThenRest(c: Counters, limit: int, events: seq<Event>)
    requires events != []
    ensures AfterAll(c, limit, events) == AfterAll(After(c, limit, events[0]), limit, events[1..])
    decreases |events|
  {
    var front := events[..|events| - 1];
    if front != [] {
      FirstThenRest(c, limit, front);
      assert events[1..][..|events[1..]| - 1] == front[1..];
    } else {
      assert events[1..] == [];
    }
  }

  lemma {:induction false} CountSplits(a: seq<Admission>, b: seq<Admission>, tool: string)
    ensures Count(a + b, tool) == Count(a, tool) + Count(b, tool)
    decreases |a|
  {
    if a == [] {
      assert a + b == b;
    } else {
      assert (a + b)[1..] == a[1..] + b;
      CountSplits(a[1..], b, tool);
    }
  }

  /** The counters say what has been admitted and how the latest calls ended. */
  lemma {:induction false} CountersTellTheHistory(limit: int, events: seq<Event>, tool: string)
    ensures var c, calls := AfterAll(FRESH, limit, events), Admitted(FRESH, limit, events);
      && c.total == |calls| && c.next == |calls| && CallsOf(c, tool) == Count(calls, tool)
      && c.failures == FailureStreak(events)
    decreases |events|
  {
    if events != [] {
      var front, e := events[..|events| - 1], events[|events| - 1];
      CountersTellTheHistory(limit, front, tool);
      assert events == front + [e];
      AdmittedSplits(FRESH, limit, front, e);
      CountSplits(Admitted(FRESH, limit, front), Admitted(AfterAll(FRESH, limit, front), limit, [e]), tool);
    }
  }

  /** A call is let through exactly if fewer than three calls have failed since the last success, the run has not used
      up its limit, and its tool has been used fewer than four times - and it is refused for the first of these. */
  lemma AdmitsExactlyWithinLimits(limit: int, events: seq<Event>, tool: string)
    ensures var r, calls := Admit(AfterAll(FRESH, limit, events), limit, tool), Admitted(FRESH, limit, events);
      && (r.Ok? <==> FailureStreak(events) < 3 && |calls| < limit && Count(calls, tool) < 4)
      && (r == Err(ConsecutiveFailures) <==> FailureStreak(events) >= 3)
      && (r == Err(ToolCallLimit) <==> FailureStreak(events) < 3 && |calls| >= limit)
  {
    CountersTellTheHistory(limit, events, tool);
  }

  /** Two admitted calls of one run never share an idempotency key. */
  lemma AdmittedKeysAreDistinct(limit: int, events: seq<Event>, run: string, i: nat, j: nat)
    requires i < j < |Admitted(FRESH, limit, events)|
    ensures IdempotencyKey(run, Admitted(FRESH, limit, events)[i].id)
      != IdempotencyKey(run, Admitted(FRESH, limit, events)[j].id)
  {
    var calls := Admitted(FRESH, limit, events);
    AdmissionsAreNumbered(FRESH, limit, events);
    CallIDsAreApart(calls[i].tool, i + 1, calls[j].tool, j + 1);
    KeysAreApart(run, calls[i].id, run, calls[j].id);
  }

  /** After three failures in a row nothing is admitted until a call that is still running succeeds. */
  lemma {:induction false} FailuresCloseTheGuard(c: Counters, limit: int, events: seq<Event>)
    requires c.failures >= MAXIMUM_CONSECUTIVE_ERRORS && forall e <- events :: e != Finished(true)
    ensures Admitted(c, limit, events) == []
    decreases |events|
  {
    if events != [] {
      assert events[0] in events && forall e <- events[1..] :: e in events;
      FailuresCloseTheGuard(After(c, limit, events[0]), limit, events[1..]);
    }
  }

  // ---------------------------------------------------------------- the attempts of one call

  /** The error of an invocation: a ToolError with its flag, or any other error. */
  datatype CallError = ToolError(message: string, retryable: bool) | OtherError(message: string)

  datatype RunError = Refused(refusal: GuardError) | CallFailed(error: CallError)

  function MaxAttempts(kind: ToolKind): nat {
    if kind.Read? then MAXIMUM_READ_ATTEMPTS else 1
  }

  predicate ShouldRetry(kind: ToolKind, e: CallError, attempt: nat) {
    kind.Read? && attempt < MAXIMUM_READ_ATTEMPTS && e.ToolError? && e.retryable
  }

  /** `n` is the attempt the call ends with: every earlier one failed in a retryable way, and this one does not. */
  ghost predicate EndsAt(kind: ToolKind, f: nat -> Result<string, CallError>, n: nat) {
    && 1 <= n <= MaxAttempts(kind)
    && (forall k :: 1 <= k < n ==> f(k).Err? && ShouldRetry(kind, f(k).error, k))
    && (f(n).Err? ==> !ShouldRetry(kind, f(n).error, n))
  }

  lemma EndsOnce(kind: ToolKind, f: nat -> Result<string, CallError>, n: nat, m: nat)
    requires EndsAt(kind, f, n) && EndsAt(kind, f, m)
    ensures n == m
  {
  }

  /** guardedTool.InvokableRun; `f(k)` is what the tool answers to attempt `k`. The call takes as many attempts as it
      needs and no more, every attempt has the same key, the guard is told the outcome once, and the error after the
      loop is never returned. */
  method InvokableRun(guard: ToolExecutionGuard, kind: ToolKind, tool: string, runID: string,
                      f: nat -> Result<string, CallError>)
    returns (r: Result<string, RunError>, keys: seq<string>)
    modifies guard
    ensures match old(Admit(guard.State(), guard.totalLimit, tool))
            case Err(e) => r == Err(Refused(e)) && keys == [] && guard.State() == old(guard.State())
            case Ok(c) =>
              && EndsAt(kind, f, |keys|)
              && (forall k <- keys :: k == IdempotencyKey(runID, CallID(tool, c.next)))
              && r == (match f(|keys|) case Ok(v) => Ok(v) case Err(e) => Err(CallFailed(e)))
              && guard.State() == Settle(c, r.Ok?)
  {
    keys := [];
    var callID := guard.Begin(tool);
    if callID.Err? {
      return Err(Refused(callID.error)), keys;
    }
    var key := IdempotencyKey(runID, callID.value);
    var attempt := 1;
    while attempt <= MaxAttempts(kind)
      invariant 1 <= attempt <= MaxAttempts(kind) + 1 && |keys| == attempt - 1 && forall k <- keys :: k == key
      invariant attempt > 1 ==> f(attempt - 1).Err? && ShouldRetry(kind, f(attempt - 1).error, attempt - 1)
      invariant forall k :: 1 <= k < attempt ==> f(k).Err? && ShouldRetry(kind, f(k).error, k)
      invariant guard.State() == old(Admit(guard.State(), guard.totalLimit, tool)).value
      decreases MaxAttempts(kind) + 1 - attempt
    {
      keys := keys + [key];
      var result := f(attempt);
      if result.Ok? {
        guard.Finish(true);
        return Ok(result.value), keys;
      }
      if !ShouldRetry(kind, result.error, attempt) {
        guard.Finish(false);
        return Err(CallFailed(result.error)), keys;
      }
      attempt := attempt + 1;
    }
    assert false; // the statements after the loop
  }
}
