/** What the agent makes of exit codes: which run records are FAILURE, and how jobs end
    (autosys/agent/dispatch.py, `_run_job`). */
module AgentCodes {
  import opened AgentInvariant
  import opened AgentRun
  import opened Options

  /** The process of the current run has ended. */
  predicate HasEnded(p: Phase) {
    !p.Waiting? && !p.Executing? && !p.Beginning?
  }

  ghost predicate StatusFits(t: Thread) {
    && (InRetry(t.phase) ==> !Within(t.exit, t.maxExitSuccess))
    && (t.phase.Checking? || InTail(t.phase) ==> Fits(t.status, t.exit, t.maxExitSuccess))
  }

  /** All runs before the current one failed by their codes. */
  ghost predicate FailedBefore(codes: map<RunId, int>, t: Thread) {
    forall i :: 0 <= i < |t.runs| - 1 ==> t.runs[i] in codes && !Within(codes[t.runs[i]], t.maxExitSuccess)
  }

  ghost predicate CurrentCode(codes: map<RunId, int>, t: Thread) {
    if HasEnded(t.phase) then Current(t) in codes && codes[Current(t)] == t.exit else Current(t) !in codes
  }

  ghost predicate ThreadCodes(codes: map<RunId, int>, t: Thread) {
    StatusFits(t) && FailedBefore(codes, t) && CurrentCode(codes, t)
  }

  ghost predicate DoneCodes(codes: map<RunId, int>, d: Done) {
    && (forall i :: 0 <= i < |d.runs| ==> d.runs[i] in codes)
    && (forall i :: 0 <= i < |d.runs| - 1 ==> !Within(codes[d.runs[i]], d.maxExitSuccess))
    && Fits(d.status, codes[d.runs[|d.runs| - 1]], d.maxExitSuccess)
  }

  /** A record carries the exit code of its own process once it is finished. */
  ghost predicate RecordCode(codes: map<RunId, int>, run: RunId, record: Record) {
    if record.status == Running then record.exitCode == None else run in codes && record.exitCode == Some(codes[run])
  }

  ghost predicate RecordsCodes(s: State) {
    forall r :: r in s.records ==> RecordCode(s.codes, r, s.records[r])
  }

  ghost predicate AllThreads(s: State) {
    forall j :: j in s.threads ==> ThreadCodes(s.codes, s.threads[j])
  }

  ghost predicate AllDone(s: State) {
    forall k :: 0 <= k < |s.log| ==> DoneCodes(s.codes, s.log[k])
  }

  ghost predicate CodesOk(s: State) {
    && AllThreads(s) && AllDone(s) && RecordsCodes(s)
    && forall r :: r in s.codes ==> r in s.owner
  }

  /** A thread's current run is its own. */
  ghost predicate RunsApart(s: State) {
    forall j :: j in s.threads ==> Current(s.threads[j]) in s.owner && s.owner[Current(s.threads[j])] == j
  }

  lemma InvKeepsApart(s: State)
    requires MapsOk(s) && ThreadsOk(s)
    ensures RunsApart(s)
  {
    forall j | j in s.threads ensures Current(s.threads[j]) in s.owner && s.owner[Current(s.threads[j])] == j {
      assert ThreadOk(s, j);
    }
  }

  /** No code changes, and only runs of `job` get one. */
  ghost predicate CodesGrow(s: State, s': State, job: Job) {
    && (forall r :: r in s.codes ==> r in s'.codes && s'.codes[r] == s.codes[r])
    && (forall r :: r in s'.codes && r !in s.codes ==> r in s.owner && s.owner[r] == job)
  }

  lemma OtherThread(s: State, s': State, job: Job, j: Job)
    requires RunsApart(s) && AllThreads(s) && CodesGrow(s, s', job) && j in s.threads && j != job
    ensures ThreadCodes(s'.codes, s.threads[j])
  {
    assert ThreadCodes(s.codes, s.threads[j]);
  }

  lemma SameDone(s: State, s': State, job: Job, k: nat)
    requires AllDone(s) && CodesGrow(s, s', job) && k < |s.log|
    ensures DoneCodes(s'.codes, s.log[k])
  {
    assert DoneCodes(s.codes, s.log[k]);
  }

  /** A step in which only the thread of `job` moves. */
  ghost predicate OnlyMoves(s: State, s': State, job: Job) {
    && (forall j :: j in s'.threads && j != job ==> j in s.threads && s'.threads[j] == s.threads[j])
    && (forall r :: r in s.owner ==> r in s'.owner) && CodesGrow(s, s', job)
  }

  lemma Together(s: State, s': State, job: Job)
    requires RunsApart(s) && CodesOk(s) && OnlyMoves(s, s', job) && RecordsCodes(s')
    requires job in s'.threads ==> ThreadCodes(s'.codes, s'.threads[job])
    requires s'.log == s.log || (|s'.log| == |s.log| + 1 && s'.log[..|s.log|] == s.log &&
        DoneCodes(s'.codes, s'.log[|s.log|]))
    ensures CodesOk(s')
  {
    forall j | j in s'.threads ensures ThreadCodes(s'.codes, s'.threads[j]) {
      if j != job {
        OtherThread(s, s', job, j);
      }
    }
    forall k | 0 <= k < |s'.log| ensures DoneCodes(s'.codes, s'.log[k]) {
      if k < |s.log| {
        assert s'.log[k] == s.log[k];
        SameDone(s, s', job, k);
      }
    }
  }

  /** A step that leaves records, codes and finished threads alone. */
  ghost predicate MovesAlone(s: State, s': State, job: Job) {
    && OnlyMoves(s, s', job) && s'.records == s.records && s'.codes == s.codes && s'.log == s.log
    && job in s.threads && job in s'.threads
    && s'.threads[job].runs == s.threads[job].runs && s'.threads[job].exit == s.threads[job].exit
    && s'.threads[job].maxExitSuccess == s.threads[job].maxExitSuccess
  }

  lemma MovedAlone(s: State, s': State, job: Job)
    requires RunsApart(s) && CodesOk(s) && MovesAlone(s, s', job) && StatusFits(s'.threads[job])
    requires HasEnded(s'.threads[job].phase) == HasEnded(s.threads[job].phase)
    ensures CodesOk(s')
  {
    assert ThreadCodes(s.codes, s.threads[job]);
    Together(s, s', job);
  }

  lemma StartCodes(s: State, job: Job)
    requires RunsApart(s) && CodesOk(s) && job in s.threads && s.threads[job].phase.Waiting?
    ensures CodesOk(Start(s, job))
  {
    MovedAlone(s, Start(s, job), job);
  }

  lemma ExitCodes(s: State, job: Job, code: int)
    requires RunsApart(s) && CodesOk(s) && job in s.threads && s.threads[job].phase.Executing?
    ensures CodesOk(Exit(s, job, code))
  {
    var s', t := Exit(s, job, code), s.threads[job];
    assert ThreadCodes(s.codes, t);
    Together(s, s', job);
  }

  lemma PopCodes(s: State, job: Job)
    requires RunsApart(s) && CodesOk(s) && job in s.threads && s.threads[job].phase.Popping?
    ensures CodesOk(Pop(s, job))
  {
    MovedAlone(s, Pop(s, job), job);
  }

  lemma CheckCodes(s: State, job: Job)
    requires RunsApart(s) && CodesOk(s) && job in s.threads && s.threads[job].phase.Checking?
    ensures CodesOk(Check(s, job))
  {
    assert ThreadCodes(s.codes, s.threads[job]);
    MovedAlone(s, Check(s, job), job);
  }

  lemma MarkRestartCodes(s: State, job: Job)
    requires RunsApart(s) && CodesOk(s) && job in s.threads && s.threads[job].phase.Restarting?
    ensures CodesOk(MarkRestart(s, job))
  {
    assert ThreadCodes(s.codes, s.threads[job]);
    MovedAlone(s, MarkRestart(s, job), job);
  }

  lemma SettleCodes(s: State, job: Job)
    requires RunsApart(s) && CodesOk(s) && job in s.threads && s.threads[job].phase.Settling?
    ensures CodesOk(Settle(s, job))
  {
    assert ThreadCodes(s.codes, s.threads[job]);
    MovedAlone(s, Settle(s, job), job);
  }

  /** The code a finished record gets is that of its own process. */
  lemma FinishCodes(s: State, job: Job, next: Phase)
    requires RunsApart(s) && CodesOk(s) && job in s.threads && FinishesNext(s.threads[job], next)
    requires s.threads[job].status != Running
    ensures CodesOk(Finish(s, job, s.threads[job].status, next))
  {
    var t := s.threads[job];
    assert ThreadCodes(s.codes, t);
    FinishedCodes(s.codes, s.records, Current(t), t.status, t.exit);
    TriedCodes(s.codes, t, Current(t) in s.records, next);
    Together(s, Finish(s, job, t.status, next), job);
  }

  lemma FinishedCodes(codes: map<RunId, int>, records: map<RunId, Record>, run: RunId, status: Status, code: int)
    requires forall r :: r in records ==> RecordCode(codes, r, records[r])
    requires status != Running && run in codes && codes[run] == code
    ensures forall r :: r in Finished(records, run, status, code) ==>
        RecordCode(codes, r, Finished(records, run, status, code)[r])
  {
  }

  lemma TriedCodes(codes: map<RunId, int>, t: Thread, visible: bool, next: Phase)
    requires ThreadCodes(codes, t) && FinishesNext(t, next)
    ensures ThreadCodes(codes, Tried(t, visible, next))
  {
  }

  lemma RegisterCodes(s: State, job: Job, newRun: RunId)
    requires RunsApart(s) && CodesOk(s) && job in s.threads && s.threads[job].phase.Registering? && newRun !in s.owner
    ensures CodesOk(Register(s, job, newRun))
  {
    assert ThreadCodes(s.codes, s.threads[job]);
    Together(s, Register(s, job, newRun), job);
  }

  lemma BeginCodes(s: State, job: Job)
    requires RunsApart(s) && CodesOk(s) && job in s.threads && s.threads[job].phase.Beginning?
    ensures CodesOk(Begin(s, job))
  {
    assert ThreadCodes(s.codes, s.threads[job]);
    Together(s, Begin(s, job), job);
  }

  lemma ForgetCodes(s: State, job: Job)
    requires RunsApart(s) && CodesOk(s) && job in s.threads && s.threads[job].phase.Forgetting?
    ensures CodesOk(Forget(s, job))
  {
    assert ThreadCodes(s.codes, s.threads[job]);
    Together(s, Forget(s, job), job);
  }

  lemma MoveKeepsCodes(s: State, job: Job, code: int, newRun: RunId)
    requires RunsApart(s) && ThreadsOk(s) && CodesOk(s) && Enabled(s, Advance(job, code, newRun))
    ensures CodesOk(Move(s, job, code, newRun))
  {
    assert ThreadOk(s, job);
    match s.threads[job].phase
    case Waiting => StartCodes(s, job);
    case Executing => ExitCodes(s, job, code);
    case Popping => PopCodes(s, job);
    case Checking => CheckCodes(s, job);
    case Restarting => MarkRestartCodes(s, job);
    case Closing => FinishCodes(s, job, Registering);
    case Registering => RegisterCodes(s, job, newRun);
    case Beginning => BeginCodes(s, job);
    case Settling => SettleCodes(s, job);
    case Finishing => FinishCodes(s, job, Forgetting);
    case Forgetting => ForgetCodes(s, job);
  }

  lemma DispatchCodes(s: State, step: Step)
    requires RunsApart(s) && CodesOk(s) && step.Dispatch? && Enabled(s, step)
    ensures CodesOk(Apply(s, step))
  {
    Together(s, Apply(s, step), step.job);
  }

  /** The steps of others: a commit adds a RUNNING record, the rest none. */
  lemma OtherCodes(s: State, step: Step)
    requires RunsApart(s) && CodesOk(s) && !step.Dispatch? && !step.Advance? && Enabled(s, step)
    ensures CodesOk(Apply(s, step))
  {
  }

  lemma StepKeepsCodes(s: State, step: Step)
    requires RunsApart(s) && ThreadsOk(s) && CodesOk(s) && Enabled(s, step)
    ensures CodesOk(Apply(s, step))
  {
    match step
    case Dispatch(_, _, _, _) => DispatchCodes(s, step);
    case Advance(job, code, newRun) => MoveKeepsCodes(s, job, code, newRun);
    case _ => OtherCodes(s, step);
  }

  lemma {:induction false} ReachableCodes(states: seq<State>, steps: seq<Step>, i: nat)
    requires IsRun(states, steps) && i < |states|
    ensures CodesOk(states[i])
  {
    if i > 0 {
      ReachableCodes(states, steps, i - 1);
      ReachableInv(states, steps, i - 1);
      InvKeepsApart(states[i - 1]);
      assert Taken(states, steps, i - 1);
      StepKeepsCodes(states[i - 1], steps[i - 1]);
    }
  }

  // ----- what follows for every run of the system

  /** Whatever a process returns is the code of its run for good. */
  lemma {:induction false} CodesAreReturned(states: seq<State>, steps: seq<Step>, k: nat, i: nat, job: Job, code: int,
                                            newRun: RunId)
    requires IsRun(states, steps) && k < i < |states| && steps[k] == Advance(job, code, newRun)
    requires job in states[k].threads && states[k].threads[job].phase.Executing?
    ensures var run := Current(states[k].threads[job]); run in states[i].codes && states[i].codes[run] == code
  {
    assert Taken(states, steps, i - 1);
    if i > k + 1 {
      CodesAreReturned(states, steps, k, i - 1, job, code, newRun);
      ReachableCodes(states, steps, i - 1);
      CodesStay(states[i - 1], steps[i - 1], Current(states[k].threads[job]));
    }
  }

  lemma CodesStay(s: State, step: Step, run: RunId)
    requires CodesOk(s) && Enabled(s, step) && run in s.codes
    ensures run in Apply(s, step).codes && Apply(s, step).codes[run] == s.codes[run]
  {
    if step.Advance? {
      assert ThreadCodes(s.codes, s.threads[step.job]);
      MoveCodes(s, step.job, step.code, step.newRun);
    }
  }

  /** Only the end of a process sets a code, that of the current run. */
  lemma MoveCodes(s: State, job: Job, code: int, newRun: RunId)
    requires job in s.threads
    ensures var t := s.threads[job];
      Move(s, job, code, newRun).codes == if t.phase.Executing? then s.codes[Current(t) := code] else s.codes
  {
    CodesKept(s, job, newRun, Failure, Registering);
    CodesKept(s, job, newRun, s.threads[job].status, Forgetting);
    assert Exit(s, job, code).codes == s.codes[Current(s.threads[job]) := code];
  }

  lemma CodesKept(s: State, job: Job, newRun: RunId, status: Status, next: Phase)
    requires job in s.threads
    ensures Start(s, job).codes == Pop(s, job).codes == Check(s, job).codes == MarkRestart(s, job).codes == s.codes
    ensures Finish(s, job, status, next).codes == Register(s, job, newRun).codes == Begin(s, job).codes == s.codes
    ensures Settle(s, job).codes == Forget(s, job).codes == s.codes
  {
  }

  /** The exit codes behind a finished job, for any number of attempts and any threshold:
      a run that was tried again returned a code above the job's `max_exit_success` (0
      without one); the job ends in SUCCESS or FAILURE as the last code is at most that
      or above it; and every finished run record carries the code of its own process, so
      a FAILURE record always has one above it. */
  lemma CodesOfAFinishedJob(states: seq<State>, steps: seq<Step>, i: nat, k: nat, m: nat)
    requires IsRun(states, steps) && i < |states| && k < |states[i].log| && m < |states[i].log[k].runs|
    ensures var s, d := states[i], states[i].log[k];
      var run, max := d.runs[m], match d.maxExitSuccess case Some(n) => n case None => 0;
      && run in s.codes
      && (m < |d.runs| - 1 ==> s.codes[run] > max)
      && (m == |d.runs| - 1 && d.status != Terminated ==> (d.status == Success <==> s.codes[run] <= max))
      && (m == |d.runs| - 1 && d.status != Terminated ==> (d.status == Failure <==> s.codes[run] > max))
      && (run in s.records && s.records[run].status != Running ==> s.records[run].exitCode == Some(s.codes[run]))
      && (run in s.records && s.records[run].status == Failure ==> s.codes[run] > max)
  {
    ReachableInv(states, steps, i);
    ReachableCodes(states, steps, i);
    var s, d := states[i], states[i].log[k];
    assert DoneOk(s, d) && DoneCodes(s.codes, d);
    assert Kept(s.records, d.runs[m], m == 0 && d.gaveUp, if m < |d.runs| - 1 then Failure else d.status);
    assert d.runs[m] in s.records ==> RecordCode(s.codes, d.runs[m], s.records[d.runs[m]]);
  }
}
