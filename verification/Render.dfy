/** One asynchronous render (internal/productiontools/render_jobs.go): the submitting call, the goroutine that waits for
    the process, and cancelling and polling callers, interleaved at the manager's lock. */
module Render {
  import opened Types

  datatype RenderStatus = Queued | RenderRunning | RenderSucceeded | RenderFailed | RenderCancelled {
    predicate Final() { RenderSucceeded? || RenderFailed? || RenderCancelled? }
  }

  /** Where the call of Submit stands. */
  datatype Submitter = Starting | Marking | Refusing | SubmitReturned

  /** Where the goroutine that waits for the process stands. */
  datatype Waiter = NotSpawned | WaitingForProcess | Deciding(clean: bool) | Finishing(status: RenderStatus)
      | WaiterReturned

  datatype Record = Record(status: RenderStatus, artifactPath: string, hasProcess: bool, completedAt: Option<Time>)

  datatype State = State(job: Record, contextCancelled: bool, submitter: Submitter, waiter: Waiter)

  datatype Step =
    | StartProcess(ok: bool) | Mark | Refuse(now: Time)
    | ProcessEnds(clean: bool) | Decide | Finish(now: Time)
    | Cancel(now: Time)

  /** RenderJobManager.finish on a record. */
  function FinishRecord(job: Record, status: RenderStatus, now: Time): Record {
    if job.status.Final() then job else job.(status := status, completedAt := Some(now))
  }

  /** The record after RenderJobManager.Cancel, or None when the job is already final. */
  function CancelRecord(job: Record, now: Time): Option<Record> {
    if job.status.Final() then None else Some(job.(status := RenderCancelled, completedAt := Some(now)))
  }

  predicate Enabled(s: State, step: Step) {
    match step
    case StartProcess(_) => s.submitter.Starting?
    case Mark => s.submitter.Marking?
    case Refuse(_) => s.submitter.Refusing?
    case ProcessEnds(_) => s.waiter.WaitingForProcess?
    case Decide => s.waiter.Deciding?
    case Finish(_) => s.waiter.Finishing?
    case Cancel(_) => true
  }

  function Fire(s: State, step: Step): State
    requires Enabled(s, step)
  {
    match step
    case StartProcess(ok) => s.(submitter := if ok then Marking else Refusing)
    case Mark =>
      s.(job := s.job.(hasProcess := true, status := RenderRunning), submitter := SubmitReturned,
         waiter := WaitingForProcess)
    case Refuse(now) => s.(job := FinishRecord(s.job, RenderFailed, now), submitter := SubmitReturned)
    case ProcessEnds(clean) => s.(waiter := Deciding(clean))
    case Decide =>
      s.(waiter := Finishing(if s.contextCancelled then RenderCancelled
                             else if s.waiter.clean then RenderSucceeded else RenderFailed))
    case Finish(now) => s.(job := FinishRecord(s.job, s.waiter.status, now), waiter := WaiterReturned)
    case Cancel(now) =>
      var cancelled := CancelRecord(s.job, now);
      if cancelled.None? then s else s.(job := cancelled.value, contextCancelled := true)
  }

  predicate Initial(s: State) {
    s.job.status.Queued? && s.job.completedAt.None? && !s.job.hasProcess && !s.contextCancelled
    && s.submitter.Starting? && s.waiter.NotSpawned?
  }

  function Execute(s: State, schedule: seq<Step>): Option<State>
    decreases |schedule|
  {
    if schedule == [] then Some(s)
    else if Enabled(s, schedule[0]) then Execute(Fire(s, schedule[0]), schedule[1..])
    else None
  }

  ghost predicate Reaches(s: State, schedule: seq<Step>, s': State) {
    Execute(s, schedule) == Some(s')
  }

  // ---------------------------------------------------------------- every run

  ghost predicate Inv(s: State) {
    && (s.waiter.NotSpawned? <==> s.submitter != SubmitReturned || !s.job.hasProcess)
    && (s.submitter != SubmitReturned ==> s.job.status.Queued? || s.job.status.RenderCancelled?)
    && (s.job.hasProcess ==> s.submitter.SubmitReturned?)
    && (s.submitter.SubmitReturned? && !s.job.hasProcess ==> s.job.status.Final())
    && (s.job.status.RenderCancelled? ==> s.contextCancelled)
    && (s.waiter.Finishing? ==> s.waiter.status.Final() && (s.waiter.status.RenderCancelled? ==> s.contextCancelled))
    && (s.contextCancelled ==> !s.job.status.RenderSucceeded?)
    && (s.contextCancelled && s.waiter.Finishing? && s.waiter.status.RenderSucceeded? ==> s.job.status.RenderCancelled?)
    && (s.contextCancelled && s.waiter.Finishing? && s.waiter.status.RenderFailed? ==> s.job.status.RenderCancelled?)
  }

  lemma StepKeeps(s: State, step: Step)
    requires Inv(s) && Enabled(s, step)
    ensures Inv(Fire(s, step))
    ensures s.job.status.RenderSucceeded? || s.job.status.RenderFailed? ==> Fire(s, step).job == s.job
    ensures s.contextCancelled ==> Fire(s, step).contextCancelled
  {
  }

  /** Success and failure are final, and a job whose cancellation took effect never succeeds - even one cancelled before
      Submit has returned. */
  lemma {:induction false} OutcomesAreFinal(s: State, schedule: seq<Step>, s': State)
    requires Inv(s) && Reaches(s, schedule, s')
    ensures Inv(s')
    ensures s.job.status.RenderSucceeded? || s.job.status.RenderFailed? ==> s'.job == s.job
    ensures s.contextCancelled ==> !s'.job.status.RenderSucceeded?
    decreases |schedule|
  {
    if schedule != [] {
      StepKeeps(s, schedule[0]);
      OutcomesAreFinal(Fire(s, schedule[0]), schedule[1..], s');
    }
  }

  // ---------------------------------------------------------------- one terminal transition

  /** How often the job becomes final. */
  function Endings(s: State, schedule: seq<Step>): nat
    decreases |schedule|
  {
    if schedule == [] || !Enabled(s, schedule[0]) then 0
    else
      (if !s.job.status.Final() && Fire(s, schedule[0]).job.status.Final() then 1 else 0)
      + Endings(Fire(s, schedule[0]), schedule[1..])
  }

  /** A final job is revived by exactly one kind of step: the write of "running" in a Submit that was overtaken. */
  lemma OnlyMarkRevives(s: State, step: Step)
    requires Inv(s) && Enabled(s, step) && s.job.status.Final()
    ensures !Fire(s, step).job.status.Final() <==> step.Mark?
    ensures step.Mark? ==> s.job.status.RenderCancelled? && !s.submitter.SubmitReturned?
  {
  }

  /** The caller's side of the bargain: a job is cancelled only by those who know its ID, after Submit returned. */
  ghost predicate CancelsKnownJobs(s: State, schedule: seq<Step>)
    decreases |schedule|
  {
    schedule != [] && Enabled(s, schedule[0]) ==>
      && (schedule[0].Cancel? ==> s.submitter.SubmitReturned?)
      && CancelsKnownJobs(Fire(s, schedule[0]), schedule[1..])
  }

  /** Across every race of Cancel and the waiting goroutine a known job ends at most once, its end is stamped exactly
      when it is final, and it stays what it became. */
  lemma {:induction false} KnownJobsEndOnce(s: State, schedule: seq<Step>, s': State)
    requires Inv(s) && Reaches(s, schedule, s') && CancelsKnownJobs(s, schedule)
    requires s.job.status.Final() ==> s.submitter.SubmitReturned?
    requires s.job.completedAt.Some? <==> s.job.status.Final()
    ensures Endings(s, schedule) <= if s.job.status.Final() then 0 else 1
    ensures s.job.status.Final() ==> s'.job == s.job
    ensures s'.job.completedAt.Some? <==> s'.job.status.Final()
    decreases |schedule|
  {
    if schedule != [] {
      StepKeeps(s, schedule[0]);
      if s.job.status.Final() { OnlyMarkRevives(s, schedule[0]); }
      KnownJobsEndOnce(Fire(s, schedule[0]), schedule[1..], s');
    }
  }

  /** Without it: a Cancel that overtakes the Submit is overwritten by "running" and the job ends a second time. */
  lemma OvertakenSubmitRevives(s: State, now: Time) returns (revived: State, s': State)
    requires Initial(s)
    ensures Reaches(s, [StartProcess(true), Cancel(now), Mark], revived)
    ensures revived.job.status.RenderRunning? && revived.job.completedAt == Some(now)
    ensures Reaches(revived, [ProcessEnds(true), Decide, Finish(now)], s') && s'.job.status.RenderCancelled?
    ensures Endings(s, [StartProcess(true), Cancel(now), Mark] + [ProcessEnds(true), Decide, Finish(now)]) == 2
  {
    var s1 := Fire(s, StartProcess(true));
    var s2 := Fire(s1, Cancel(now));
    revived := Fire(s2, Mark);
    var s4 := Fire(revived, ProcessEnds(true));
    var s5 := Fire(s4, Decide);
    s' := Fire(s5, Finish(now));
    var a, b := [StartProcess(true), Cancel(now), Mark], [ProcessEnds(true), Decide, Finish(now)];
    assert a[1..] == [Cancel(now), Mark] && a[1..][1..] == [Mark] && a[1..][1..][1..] == [];
    assert b[1..] == [Decide, Finish(now)] && b[1..][1..] == [Finish(now)] && b[1..][1..][1..] == [];
    assert Execute(s2, [Mark]) == Some(revived) && Execute(s1, [Cancel(now), Mark]) == Some(revived);
    assert Execute(s5, [Finish(now)]) == Some(s') && Execute(s4, [Decide, Finish(now)]) == Some(s');
    assert (a + b)[1..] == [Cancel(now), Mark] + b && ([Cancel(now), Mark] + b)[1..] == [Mark] + b
        && ([Mark] + b)[1..] == b;
    assert Endings(s5, [Finish(now)]) == 1 && Endings(s4, b[1..]) == 1 && Endings(revived, b) == 1;
    assert Endings(s2, [Mark] + b) == 1 && Endings(s1, [Cancel(now), Mark] + b) == 2;
  }

  // ---------------------------------------------------------------- the verdict is the process's

  /** The state speaks for a success: the process exited cleanly, or this has been decided or recorded. */
  predicate SpeaksForSuccess(s: State) {
    s.job.status.RenderSucceeded? || s.waiter == Deciding(true) || s.waiter == Finishing(RenderSucceeded)
  }

  /** The state speaks for a failure: the process could not be started or did not exit cleanly. */
  predicate SpeaksForFailure(s: State) {
    s.job.status.RenderFailed? || s.waiter == Deciding(false) || s.waiter == Finishing(RenderFailed)
    || s.submitter.Refusing?
  }

  /** Success comes from a process that exited cleanly, failure from one that did not or that was never started, and
      cancellation from a caller. */
  lemma {:induction false} OutcomesHaveCauses(s: State, schedule: seq<Step>, s': State)
    requires Reaches(s, schedule, s')
    ensures SpeaksForSuccess(s') ==> SpeaksForSuccess(s) || ProcessEnds(true) in schedule
    ensures SpeaksForFailure(s') ==>
      SpeaksForFailure(s) || ProcessEnds(false) in schedule || StartProcess(false) in schedule
    ensures s'.contextCancelled ==> s.contextCancelled || exists step <- schedule :: step.Cancel?
    decreases |schedule|
  {
    if schedule != [] {
      assert schedule[0] in schedule && forall step <- schedule[1..] :: step in schedule;
      OutcomesHaveCauses(Fire(s, schedule[0]), schedule[1..], s');
    }
  }

  /** From the moment the process has ended the job is bound to become what its exit says, unless it is cancelled. */
  ghost predicate BoundFor(s: State, clean: bool) {
    var status := if clean then RenderSucceeded else RenderFailed;
    && !s.contextCancelled && s.submitter.SubmitReturned?
    && (|| (s.waiter == Deciding(clean) && !s.job.status.Final())
        || (s.waiter == Finishing(status) && !s.job.status.Final())
        || (s.waiter.WaiterReturned? && s.job.status == status))
  }

  predicate Uncancelled(schedule: seq<Step>) {
    forall step <- schedule :: !step.Cancel?
  }

  lemma {:induction false} StaysBound(s: State, schedule: seq<Step>, s': State, clean: bool)
    requires BoundFor(s, clean) && Reaches(s, schedule, s') && Uncancelled(schedule)
    ensures BoundFor(s', clean)
    decreases |schedule|
  {
    if schedule != [] {
      assert schedule[0] in schedule;
      StaysBound(Fire(s, schedule[0]), schedule[1..], s', clean);
    }
  }

  /** The process has not ended: it was not started yet, is running, or could not be started. */
  ghost predicate NotEnded(s: State) {
    && !s.contextCancelled
    && (s.waiter.NotSpawned? || s.waiter.WaitingForProcess?)
    && (s.waiter.WaitingForProcess? ==> s.submitter.SubmitReturned? && !s.job.status.Final())
  }

  lemma {:induction false} EndedIsBound(s: State, schedule: seq<Step>, s': State)
    requires NotEnded(s) && Reaches(s, schedule, s') && Uncancelled(schedule)
    ensures NotEnded(s') || (BoundFor(s', true) && ProcessEnds(true) in schedule)
            || (BoundFor(s', false) && ProcessEnds(false) in schedule)
    decreases |schedule|
  {
    if schedule != [] {
      var mid := Fire(s, schedule[0]);
      assert schedule[0] in schedule;
      if schedule[0].ProcessEnds? {
        StaysBound(mid, schedule[1..], s', schedule[0].clean);
      } else {
        EndedIsBound(mid, schedule[1..], s');
      }
    }
  }

  /** An uncancelled render ends as its process did: when the goroutine that waited for it has returned, the job has
      succeeded if the process exited cleanly and failed if it did not. */
  lemma ProcessDecides(s: State, schedule: seq<Step>, s': State)
    requires Initial(s) && Reaches(s, schedule, s') && Uncancelled(schedule) && s'.waiter.WaiterReturned?
    ensures s'.job.status.RenderSucceeded? <==> ProcessEnds(true) in schedule
    ensures s'.job.status.RenderFailed? <==> ProcessEnds(false) in schedule
    ensures s'.job.status.RenderSucceeded? || s'.job.status.RenderFailed?
  {
    EndedIsBound(s, schedule, s');
    OnlyOneEnd(s, schedule, s', s'.job.status.RenderSucceeded?);
  }

  /** The process ends once. */
  lemma {:induction false} OnlyOneEnd(s: State, schedule: seq<Step>, s': State, clean: bool)
    requires Inv(s) && Reaches(s, schedule, s') && ProcessEnds(clean) in schedule
    ensures ProcessEnds(!clean) !in schedule
    decreases |schedule|
  {
    StepKeeps(s, schedule[0]);
    var mid := Fire(s, schedule[0]);
    if schedule[0].ProcessEnds? {
      NoMoreEnds(mid, schedule[1..], s');
      assert forall step <- schedule :: step == schedule[0] || step in schedule[1..];
    } else {
      assert forall step <- schedule :: step == schedule[0] || step in schedule[1..];
      OnlyOneEnd(mid, schedule[1..], s', clean);
    }
  }

  lemma {:induction false} NoMoreEnds(s: State, schedule: seq<Step>, s': State)
    requires Reaches(s, schedule, s') && s.submitter.SubmitReturned?
    requires s.waiter.Deciding? || s.waiter.Finishing? || s.waiter.WaiterReturned?
    ensures forall step <- schedule :: !step.ProcessEnds?
    decreases |schedule|
  {
    if schedule != [] {
      NoMoreEnds(Fire(s, schedule[0]), schedule[1..], s');
      assert forall step <- schedule :: step == schedule[0] || step in schedule[1..];
    }
  }

  /** And it gets there: a process that is started and ends makes the job end with it. */
  lemma PlainRender(s: State, clean: bool, now: Time) returns (s': State)
    requires Initial(s)
    ensures Reaches(s, [StartProcess(true), Mark, ProcessEnds(clean), Decide, Finish(now)], s')
    ensures s'.job.status == if clean then RenderSucceeded else RenderFailed
    ensures s'.job.completedAt == Some(now) && s'.job.artifactPath == s.job.artifactPath
    ensures Artifact(s'.job) == if clean then Some(s.job.artifactPath) else None
  {
    var s1 := Fire(s, StartProcess(true));
    var s2 := Fire(s1, Mark);
    var s3 := Fire(s2, ProcessEnds(clean));
    var s4 := Fire(s3, Decide);
    s' := Fire(s4, Finish(now));
    Then(s, [], s, StartProcess(true));
    Then(s, [] + [StartProcess(true)], s1, Mark);
    Then(s, [] + [StartProcess(true)] + [Mark], s2, ProcessEnds(clean));
    Then(s, [] + [StartProcess(true)] + [Mark] + [ProcessEnds(clean)], s3, Decide);
    Then(s, [] + [StartProcess(true)] + [Mark] + [ProcessEnds(clean)] + [Decide], s4, Finish(now));
    assert [] + [StartProcess(true)] + [Mark] + [ProcessEnds(clean)] + [Decide] + [Finish(now)]
      == [StartProcess(true), Mark, ProcessEnds(clean), Decide, Finish(now)];
  }

  lemma {:induction false} Then(s: State, schedule: seq<Step>, mid: State, step: Step)
    requires Reaches(s, schedule, mid) && Enabled(mid, step)
    ensures Reaches(s, schedule + [step], Fire(mid, step))
    decreases |schedule|
  {
    if schedule == [] {
      assert [] + [step] == [step] && [step][1..] == [];
    } else {
      assert (schedule + [step])[1..] == schedule[1..] + [step];
      Then(Fire(s, schedule[0]), schedule[1..], mid, step);
    }
  }

  /** The process could not be started, and the job has failed or is about to, without ever having run. */
  ghost predicate Unstarted(s: State) {
    && !s.contextCancelled && s.waiter.NotSpawned? && !s.job.hasProcess
    && ((s.submitter.Refusing? && s.job.status.Queued?) || (s.submitter.SubmitReturned? && s.job.status.RenderFailed?))
  }

  lemma {:induction false} StaysUnstarted(s: State, schedule: seq<Step>, s': State)
    requires Unstarted(s) && Reaches(s, schedule, s') && Uncancelled(schedule)
    ensures Unstarted(s')
    decreases |schedule|
  {
    if schedule != [] {
      assert schedule[0] in schedule;
      StaysUnstarted(Fire(s, schedule[0]), schedule[1..], s');
    }
  }

  /** A process that cannot be started never runs, and once Submit has returned the job has failed. */
  lemma StartDecides(s: State, rest: seq<Step>, s': State)
    requires Initial(s) && Reaches(s, [StartProcess(false)] + rest, s') && Uncancelled(rest)
    ensures !s'.job.hasProcess && (s'.submitter.SubmitReturned? ==> s'.job.status.RenderFailed?)
  {
    assert ([StartProcess(false)] + rest)[1..] == rest;
    StaysUnstarted(Fire(s, StartProcess(false)), rest, s');
  }

  // ---------------------------------------------------------------- waitForRender

  /** What the poller does with a status: fetch the artifact, give up, or poll again. */
  datatype Verdict = FetchArtifact | RenderEnded(status: RenderStatus) | PollAgain

  function AfterPoll(status: RenderStatus): Verdict {
    match status
    case RenderSucceeded => FetchArtifact
    case RenderFailed => RenderEnded(status)
    case RenderCancelled => RenderEnded(status)
    case _ => PollAgain
  }

  /** The poller goes on exactly while the job is unfinished, and fetches the artifact exactly of a success. */
  lemma PollingEnds(status: RenderStatus)
    ensures AfterPoll(status) == PollAgain <==> !status.Final()
    ensures AfterPoll(status) == FetchArtifact <==> status.RenderSucceeded?
    ensures AfterPoll(status).RenderEnded? ==> AfterPoll(status).status == status
  {
  }

  /** renderArtifact on a known job: None is TOOL_PRECONDITION_FAILED. */
  function Artifact(job: Record): Option<string> {
    if job.status != RenderSucceeded then None else Some(job.artifactPath)
  }

  /** Between the poll that sees success and the call that fetches the artifact anything may happen: the artifact is
      there, and it is the one the job was submitted with. */
  lemma SeenSuccessHasItsArtifact(s: State, first: seq<Step>, polled: State, more: seq<Step>, fetched: State)
    requires Initial(s) && Reaches(s, first, polled) && Reaches(polled, more, fetched)
    requires AfterPoll(polled.job.status) == FetchArtifact
    ensures Artifact(fetched.job) == Some(s.job.artifactPath)
  {
    OutcomesAreFinal(s, first, polled);
    OutcomesAreFinal(polled, more, fetched);
    PathIsKept(s, first, polled);
  }

  lemma {:induction false} PathIsKept(s: State, schedule: seq<Step>, s': State)
    requires Reaches(s, schedule, s')
    ensures s'.job.artifactPath == s.job.artifactPath
    decreases |schedule|
  {
    if schedule != [] { PathIsKept(Fire(s, schedule[0]), schedule[1..], s'); }
  }

  // ---------------------------------------------------------------- the manager

  class RenderJobManager {
    var jobs: map<string, Record>

    constructor ()
      ensures jobs == map[]
    {
      jobs := map[];
    }

    /** The first section of Submit, with a fresh ID. */
    method Enqueue(id: string, artifactPath: string)
      requires id !in jobs
      modifies this
      ensures jobs == old(jobs)[id := Record(Queued, artifactPath, false, None)]
      ensures Initial(State(jobs[id], false, Starting, NotSpawned))
    {
      jobs := jobs[id := Record(Queued, artifactPath, false, None)];
    }

    /** The second section of Submit, once the process has started. */
    method MarkRunning(id: string, ghost s: State)
      requires id in jobs && s.job == jobs[id] && Enabled(s, Mark)
      modifies this
      ensures jobs == old(jobs)[id := Fire(s, Mark).job]
    {
      jobs := jobs[id := jobs[id].(hasProcess := true, status := RenderRunning)];
    }

    method Get(id: string) returns (job: Option<Record>)
      ensures job == if id in jobs then Some(jobs[id]) else None
    {
      if id !in jobs {
        return None;
      }
      return Some(jobs[id]);
    }

    /** None is "not found"; the flag says whether the job was cancelled or already final. */
    method CancelJob(id: string, now: Time, ghost s: State) returns (r: Option<(Record, bool)>)
      requires id in jobs ==> s.job == jobs[id]
      modifies this
      ensures id !in old(jobs) ==> r == None && jobs == old(jobs)
      ensures id in old(jobs) ==>
        && jobs == old(jobs)[id := Fire(s, Cancel(now)).job]
        && r == Some((Fire(s, Cancel(now)).job, !s.job.status.Final()))
    {
      if id !in jobs {
        return None;
      }
      var job := jobs[id];
      if job.status == RenderSucceeded || job.status == RenderFailed || job.status == RenderCancelled {
        return Some((job, false));
      }
      job := job.(status := RenderCancelled, completedAt := Some(now));
      jobs := jobs[id := job];
      return Some((job, true));
    }

    method FinishJob(id: string, status: RenderStatus, now: Time)
      modifies this
      ensures jobs == if id in old(jobs) then old(jobs)[id := FinishRecord(old(jobs)[id], status, now)] else old(jobs)
    {
      if id !in jobs {
        return;
      }
      var job := jobs[id];
      if job.status == RenderCancelled || job.status == RenderSucceeded || job.status == RenderFailed {
        return;
      }
      jobs := jobs[id := job.(status := status, completedAt := Some(now))];
    }
  }
}
