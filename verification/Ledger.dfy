/** The idempotency ledger of the production tools (internal/productiontools/production_tools.go) under any
    interleaving of its callers, and what it makes of the guard's retries. */
module Ledger {
  import opened Types
  import ToolGuard

  /** An entry of the ledger; its channel is closed once it has a result. */
  datatype Entry = Entry(fp: string, result: Option<string>)

  datatype Answer = Answered(text: string) | Conflict | Cancelled

  /** Where a caller of `once` stands. */
  datatype Phase =
    | Arriving                  // about to take the lock
    | Acting                    // made the entry, inside run()
    | ActingAlone               // has no key, inside run()
    | Awaiting                  // found an entry with its fingerprint, in the select
    | Left(answer: Answer)

  datatype Call = Call(key: string, fp: string, phase: Phase, cancelled: bool)

  datatype State = State(items: map<string, Entry>, calls: seq<Call>)

  datatype Step = Arrive(c: nat) | Complete(c: nat, text: string) | Wake(c: nat) | GiveUp(c: nat)
      | CancelContext(c: nat)

  predicate Enabled(s: State, step: Step) {
    && step.c < |s.calls|
    && var call := s.calls[step.c];
       match step
       case Arrive(_) => call.phase.Arriving?
       case Complete(_, _) => call.phase.ActingAlone? || (call.phase.Acting? && call.key in s.items)
       case Wake(_) => call.phase.Awaiting? && call.key in s.items && s.items[call.key].result.Some?
       case GiveUp(_) => call.phase.Awaiting? && call.cancelled
       case CancelContext(_) => true
  }

  function Move(s: State, c: nat, phase: Phase): State
    requires c < |s.calls|
  {
    s.(calls := s.calls[c := s.calls[c].(phase := phase)])
  }

  function Fire(s: State, step: Step): State
    requires Enabled(s, step)
  {
    var call := s.calls[step.c];
    match step
    case Arrive(c) =>
      if call.key == "" then Move(s, c, ActingAlone)
      else if call.key !in s.items then Move(s, c, Acting).(items := s.items[call.key := Entry(call.fp, None)])
      else if s.items[call.key].fp != call.fp then Move(s, c, Left(Conflict))
      else Move(s, c, Awaiting)
    case Complete(c, text) =>
      var left := Move(s, c, Left(Answered(text)));
      if call.phase.ActingAlone? then left
      else left.(items := s.items[call.key := s.items[call.key].(result := Some(text))])
    case Wake(c) => Move(s, c, Left(Answered(s.items[call.key].result.value)))
    case GiveUp(c) => Move(s, c, Left(Answer.Cancelled))
    case CancelContext(c) => s.(calls := s.calls[c := call.(cancelled := true)])
  }

  function Execute(s: State, schedule: seq<Step>): Option<State>
    decreases |schedule|
  {
    if schedule == [] then Some(s)
    else if Enabled(s, schedule[0]) then Execute(Fire(s, schedule[0]), schedule[1..])
    else None
  }

  ghost predicate Reaches(s: State, schedule: seq<Step>, s': State) {
    Execute(s, schedule) == Some(s')
  }

  ghost predicate Initial(s: State) {
    s.items == map[] && forall c <- s.calls :: c.phase.Arriving?
  }

  // ---------------------------------------------------------------- the invariant

  ghost predicate CallOk(items: map<string, Entry>, call: Call) {
    match call.phase
    case Arriving => true
    case ActingAlone => call.key == ""
    case Acting => call.key in items && items[call.key] == Entry(call.fp, None)
    case Awaiting => call.key in items && items[call.key].fp == call.fp
    case Left(Answered(text)) => call.key == "" || (call.key in items && items[call.key] == Entry(call.fp, Some(text)))
    case Left(Conflict) => call.key in items && items[call.key].fp != call.fp
    case Left(Cancelled) => call.cancelled && call.key in items && items[call.key].fp == call.fp
  }

  ghost predicate ActsOn(s: State, c: nat, key: string) {
    c < |s.calls| && s.calls[c].phase.Acting? && s.calls[c].key == key
  }

  ghost predicate Inv(s: State) {
    && "" !in s.items
    && (forall c :: 0 <= c < |s.calls| ==> CallOk(s.items, s.calls[c]))
    && (forall c: nat, d: nat, key :: ActsOn(s, c, key) && ActsOn(s, d, key) ==> c == d)
    && (forall key <- s.items :: s.items[key].result.None? ==> exists c: nat :: ActsOn(s, c, key))
  }

  /** An entry is never removed, keeps its fingerprint, and keeps its result once it has one. */
  ghost predicate Kept(items: map<string, Entry>, items': map<string, Entry>) {
    forall key <- items ::
      key in items' && items'[key].fp == items[key].fp && (items[key].result.Some? ==> items'[key] == items[key])
  }

  lemma OtherCallOk(items: map<string, Entry>, items': map<string, Entry>, call: Call)
    requires CallOk(items, call) && Kept(items, items')
    requires call.phase.Acting? ==> call.key in items' && items'[call.key].result.None?
    ensures CallOk(items', call)
  {
  }

  lemma ActedBefore(s: State, step: Step, d: nat, key: string)
    requires Inv(s) && Enabled(s, step) && ActsOn(Fire(s, step), d, key)
    ensures if key in s.items then ActsOn(s, d, key) else d == step.c
  {
    if d != step.c { assert CallOk(s.items, s.calls[d]); }
  }

  lemma StepKeeps(s: State, step: Step)
    requires Inv(s) && Enabled(s, step)
    ensures Inv(Fire(s, step)) && Kept(s.items, Fire(s, step).items)
  {
    var s', c := Fire(s, step), step.c;
    assert CallOk(s.items, s.calls[c]);
    forall d | 0 <= d < |s'.calls| ensures CallOk(s'.items, s'.calls[d]) {
      assert CallOk(s.items, s.calls[d]);
      if d != c {
        assert s.calls[d].phase.Acting? ==> ActsOn(s, d, s.calls[d].key);
        assert s.calls[c].phase.Acting? ==> ActsOn(s, c, s.calls[c].key);
        OtherCallOk(s.items, s'.items, s.calls[d]);
      }
    }
    forall d: nat, e: nat, key | ActsOn(s', d, key) && ActsOn(s', e, key) ensures d == e {
      ActedBefore(s, step, d, key);
      ActedBefore(s, step, e, key);
    }
    forall key <- s'.items | s'.items[key].result.None? ensures exists d: nat :: ActsOn(s', d, key) {
      if key in s.items {
        var d: nat :| ActsOn(s, d, key);
        assert ActsOn(s', d, key);
      } else {
        assert ActsOn(s', c, key);
      }
    }
  }

  lemma {:induction false} RunsKeep(s: State, schedule: seq<Step>, s': State)
    requires Inv(s) && Reaches(s, schedule, s')
    ensures Inv(s') && Kept(s.items, s'.items)
    decreases |schedule|
  {
    if schedule != [] {
      StepKeeps(s, schedule[0]);
      RunsKeep(Fire(s, schedule[0]), schedule[1..], s');
    }
  }

  // ---------------------------------------------------------------- at most once

  /** How often the action is run under a key. */
  function Actions(s: State, schedule: seq<Step>, key: string): nat
    decreases |schedule|
  {
    if schedule == [] || !Enabled(s, schedule[0]) then 0
    else
      var call := s.calls[schedule[0].c];
      (if schedule[0].Arrive? && call.key == key && Fire(s, schedule[0]).calls[schedule[0].c].phase != Awaiting
          && !Fire(s, schedule[0]).calls[schedule[0].c].phase.Left? then 1 else 0)
      + Actions(Fire(s, schedule[0]), schedule[1..], key)
  }

  /** Whatever interleaves, a key runs its action at most once, and exactly once if anyone got past the lock with it. */
  lemma {:induction false} AtMostOncePerKey(s: State, schedule: seq<Step>, s': State, key: string)
    requires Reaches(s, schedule, s') && key != ""
    ensures Actions(s, schedule, key) == if key in s'.items && key !in s.items then 1 else 0
    ensures key in s.items ==> key in s'.items
    decreases |schedule|
  {
    if schedule != [] { AtMostOncePerKey(Fire(s, schedule[0]), schedule[1..], s', key); }
  }

  /** Every caller with a key that has left was answered with the one result of its key if its fingerprint is the
      entry's and it was not cancelled, and with a conflict exactly if its fingerprint is another. */
  lemma EveryoneGetsTheOneResult(s: State, schedule: seq<Step>, s': State, c: nat)
    requires Initial(s) && Reaches(s, schedule, s') && c < |s'.calls| && s'.calls[c].key != ""
    requires s'.calls[c].phase.Left?
    ensures var call := s'.calls[c];
            && call.key in s'.items
            && var entry := s'.items[call.key];
               && (entry.fp != call.fp <==> call.phase.answer == Conflict)
               && (entry.fp == call.fp && !call.cancelled ==>
                   entry.result.Some? && call.phase.answer == Answered(entry.result.value))
  {
    RunsKeep(s, schedule, s');
    assert CallOk(s'.items, s'.calls[c]);
  }

  /** The step ends the action of a caller with this key and fingerprint with the text. */
  ghost predicate Returns(calls: seq<Call>, step: Step, key: string, fp: string, text: string) {
    step.Complete? && step.text == text && step.c < |calls| && calls[step.c].key == key && calls[step.c].fp == fp
  }

  lemma CallsAreKept(s: State, step: Step)
    requires Enabled(s, step)
    ensures |Fire(s, step).calls| == |s.calls|
    ensures forall c :: 0 <= c < |s.calls| ==>
      Fire(s, step).calls[c].key == s.calls[c].key && Fire(s, step).calls[c].fp == s.calls[c].fp
  {
  }

  /** The result of a key is the text its one action returned. */
  lemma {:induction false} ResultsComeFromActions(s: State, schedule: seq<Step>, s': State, key: string)
    requires Inv(s) && Reaches(s, schedule, s') && key in s'.items && s'.items[key].result.Some?
    ensures || (key in s.items && s.items[key] == s'.items[key])
            || exists step <- schedule :: Returns(s.calls, step, key, s'.items[key].fp, s'.items[key].result.value)
    decreases |schedule|
  {
    if schedule != [] {
      var mid, entry := Fire(s, schedule[0]), s'.items[key];
      StepKeeps(s, schedule[0]);
      CallsAreKept(s, schedule[0]);
      ResultsComeFromActions(mid, schedule[1..], s', key);
      if key in mid.items && mid.items[key] == entry {
        assert CallOk(s.items, s.calls[schedule[0].c]);
        assert schedule[0] in schedule;
      } else {
        var step :| step in schedule[1..] && Returns(mid.calls, step, key, entry.fp, entry.result.value);
        assert step in schedule && Returns(s.calls, step, key, entry.fp, entry.result.value);
      }
    }
  }

  /** A caller with a key that is answered with a text is answered with what an action under its own key and fingerprint
      returned - its own, or the one it waited for. */
  lemma AnswersComeFromActions(s: State, schedule: seq<Step>, s': State, c: nat, text: string)
    requires Initial(s) && Reaches(s, schedule, s') && c < |s.calls| && s.calls[c].key != ""
    requires |s'.calls| == |s.calls| && s'.calls[c].phase == Left(Answered(text))
    ensures exists step <- schedule :: Returns(s.calls, step, s.calls[c].key, s.calls[c].fp, text)
  {
    RunsKeep(s, schedule, s');
    CallsStay(s, schedule, s');
    assert CallOk(s'.items, s'.calls[c]);
    ResultsComeFromActions(s, schedule, s', s.calls[c].key);
  }

  lemma {:induction false} CallsStay(s: State, schedule: seq<Step>, s': State)
    requires Reaches(s, schedule, s')
    ensures |s'.calls| == |s.calls|
    ensures forall c :: 0 <= c < |s.calls| ==> s'.calls[c].key == s.calls[c].key && s'.calls[c].fp == s.calls[c].fp
    decreases |schedule|
  {
    if schedule != [] {
      CallsAreKept(s, schedule[0]);
      CallsStay(Fire(s, schedule[0]), schedule[1..], s');
    }
  }

  /** A caller without a key acts for itself and is answered with its own text. */
  lemma {:induction false} UnkeyedAnswers(s: State, schedule: seq<Step>, s': State, c: nat, text: string)
    requires Reaches(s, schedule, s') && c < |s.calls| && s.calls[c].key == "" && "" !in s.items
    requires (s.calls[c].phase.Arriving? || s.calls[c].phase.ActingAlone?)
    requires c < |s'.calls| && s'.calls[c].phase == Left(Answered(text))
    ensures Complete(c, text) in schedule
    decreases |schedule|
  {
    CallsAreKept(s, schedule[0]);
    if schedule[0].Complete? && schedule[0].c == c {
      LeftForGood(Fire(s, schedule[0]), schedule[1..], s', c);
      assert schedule[0] in schedule;
    } else {
      UnkeyedAnswers(Fire(s, schedule[0]), schedule[1..], s', c, text);
    }
  }

  lemma {:induction false} LeftForGood(s: State, schedule: seq<Step>, s': State, c: nat)
    requires Reaches(s, schedule, s') && c < |s.calls| && s.calls[c].phase.Left?
    ensures c < |s'.calls| && s'.calls[c].phase == s.calls[c].phase
    decreases |schedule|
  {
    if schedule != [] {
      CallsAreKept(s, schedule[0]);
      LeftForGood(Fire(s, schedule[0]), schedule[1..], s', c);
    }
  }

  /** Nobody waits for an entry without an action in progress: as long as someone is inside, some step is enabled. */
  lemma NeverStuck(s: State, c: nat) returns (step: Step)
    requires Inv(s) && c < |s.calls| && !s.calls[c].phase.Left?
    ensures Enabled(s, step) && !step.CancelContext?
  {
    var call := s.calls[c];
    assert CallOk(s.items, call);
    match call.phase
    case Arriving => step := Arrive(c);
    case Awaiting =>
      if s.items[call.key].result.Some? {
        step := Wake(c);
      } else {
        var d: nat :| ActsOn(s, d, call.key);
        assert CallOk(s.items, s.calls[d]);
        step := Complete(d, "");
      }
    case _ => step := Complete(c, "");
  }

  // ---------------------------------------------------------------- retries through the ledger

  /** Attempt `k` of one guarded call is call `attempts[k - 1]` of the ledger: one key, one fingerprint, not
      cancelled. */
  ghost predicate AttemptsOf(s: State, attempts: seq<nat>, key: string, fp: string) {
    forall k :: 0 <= k < |attempts| ==>
      && attempts[k] < |s.calls|
      && s.calls[attempts[k]].key == key && s.calls[attempts[k]].fp == fp && !s.calls[attempts[k]].cancelled
      && s.calls[attempts[k]].phase.Left?
  }

  /** When every attempt is answered alike, retrying changes nothing: a call ends with the answer to its first attempt,
      after three attempts if that was a retryable failure of a read and after one otherwise. */
  lemma ReplaysAreFutile(kind: ToolGuard.ToolKind, f: nat -> Result<string, ToolGuard.CallError>, n: nat)
    requires ToolGuard.EndsAt(kind, f, n) && forall k :: 1 <= k <= n ==> f(k) == f(1)
    ensures f(n) == f(1)
    ensures n == if kind.Read? && f(1).Err? && f(1).error.ToolError? && f(1).error.retryable
                 then ToolGuard.MAXIMUM_READ_ATTEMPTS else 1
  {
  }

  /** The attempts of a guarded Blender inspection replay one execution: if no attempt is cancelled, the action runs
      once, whatever its first result was is the result of the call, and a retryable failure is simply returned three
      times. `decode` is how the tool adapter turns an answer into a result or an error. */
  lemma RetriesReplayOneExecution(s: State, schedule: seq<Step>, s': State, attempts: seq<nat>, key: string, fp: string,
                                  decode: Answer -> Result<string, ToolGuard.CallError>,
                                  f: nat -> Result<string, ToolGuard.CallError>, kind: ToolGuard.ToolKind)
    requires Initial(s) && Reaches(s, schedule, s') && key != "" && |attempts| > 0 && AttemptsOf(s', attempts, key, fp)
    requires forall k :: 1 <= k <= |attempts| ==> f(k) == decode(s'.calls[attempts[k - 1]].phase.answer)
    requires ToolGuard.EndsAt(kind, f, |attempts|)
    ensures Actions(s, schedule, key) == 1
    ensures f(|attempts|) == f(1)
    ensures |attempts| == if kind.Read? && f(1).Err? && f(1).error.ToolError? && f(1).error.retryable then 3 else 1
  {
    forall k | 0 <= k < |attempts|
      ensures key in s'.items && (s'.items[key].fp == fp ==> s'.items[key].result.Some?)
      ensures s'.calls[attempts[k]].phase.answer
              == if s'.items[key].fp == fp then Answered(s'.items[key].result.value) else Conflict
    {
      EveryoneGetsTheOneResult(s, schedule, s', attempts[k]);
    }
    assert key in s'.items by { assert 0 <= 0 < |attempts|; }
    AtMostOncePerKey(s, schedule, s', key);
    forall k | 1 <= k <= |attempts| ensures f(k) == f(1) {
      assert s'.calls[attempts[k - 1]].phase.answer == s'.calls[attempts[0]].phase.answer;
    }
    ReplaysAreFutile(kind, f, |attempts|);
  }

  // ---------------------------------------------------------------- the object itself

  class IdempotencyLedger {
    var items: map<string, Entry>

    constructor ()
      ensures items == map[]
    {
      items := map[];
    }

    /** The section of execute under the lock, for a caller with a key. */
    method Enter(call: Call) returns (phase: Phase)
      requires call.phase.Arriving? && call.key != ""
      modifies this
      ensures State(items, [call.(phase := phase)]) == Fire(State(old(items), [call]), Arrive(0))
    {
      if call.key in items {
        if items[call.key].fp != call.fp {
          return Left(Conflict);
        }
        return Awaiting;
      }
      items := items[call.key := Entry(call.fp, None)];
      return Acting;
    }

    /** The result of run() is written to the entry and its channel closed. */
    method Publish(call: Call, text: string) returns (answer: Answer)
      requires call.phase.Acting? && call.key in items
      modifies this
      ensures State(items, [call.(phase := Left(answer))]) == Fire(State(old(items), [call]), Complete(0, text))
    {
      items := items[call.key := items[call.key].(result := Some(text))];
      return Answered(text);
    }
  }
}
