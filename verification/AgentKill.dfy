/** A KILLJOB against the retry loop, and the terminal transaction
    (autosys/agent/dispatch.py, `_run_job`). */
module AgentKill {
  import opened AgentInvariant
  import opened AgentRun
  import opened Options

  /** Nobody but its own thread writes the job's row. */
  predicate QuietStep(s: State, step: Step, job: Job) {
    match step
    case Dispatch(j, _, _, _) => j != job
    case Commit(run) => run in s.pending && s.pending[run] != job
    case Write(j, _) => j != job
    case Kill(j) => j != job
    case _ => true
  }

  ghost predicate Quiet(states: seq<State>, steps: seq<Step>, from: nat, job: Job)
    requires |states| == |steps| + 1
  {
    forall i :: from <= i < |steps| ==> QuietStep(states[i], steps[i], job)
  }

  /** The last thread of `job` to finish used exactly `runs`. */
  ghost predicate EndedWith(s: State, job: Job, runs: seq<RunId>, status: Option<Status>) {
    exists k :: 0 <= k < |s.log| && s.log[k].job == job && s.log[k].runs == runs &&
                (status.Some? ==> s.log[k].status == status.value)
  }

  /** A kill that will stick. */
  ghost predicate Doomed(s: State, job: Job, runs: seq<RunId>, early: bool) {
    && job in s.rows && s.rows[job] == Terminated
    && (if job in s.threads then
          var t := s.threads[job];
          t.runs == runs && !InRetry(t.phase) && (early && (t.phase.Finishing? || t.phase.Forgetting?) ==>
              t.status == Terminated)
        else EndedWith(s, job, runs, if early then Some(Terminated) else None))
  }

  /** A kill that is lost. */
  ghost predicate Revived(s: State, job: Job) {
    && job in s.rows
    && (if job in s.threads then
          var t := s.threads[job];
          !t.wasKilled &&
          (InRetry(t.phase) ||
           (s.rows[job] != Terminated && (t.phase.Checking? || InTail(t.phase) ==> t.status != Terminated)))
        else s.rows[job] != Terminated)
  }

  /** Steps of others leave a quiet job's row and thread alone. */
  lemma QuietFrame(s: State, step: Step, job: Job)
    requires Enabled(s, step) && QuietStep(s, step, job) && !(step.Advance? && step.job == job)
    ensures SameJob(s, Apply(s, step), job)
  {
    if step.Advance? {
      OthersFrame(s, step.job, step.code, step.newRun, job);
    }
  }

  /** The row and the thread of `job` are the same in both states. */
  ghost predicate SameJob(s: State, s': State, job: Job) {
    && (job in s.rows <==> job in s'.rows) && (job in s.rows ==> s'.rows[job] == s.rows[job])
    && (job in s.threads <==> job in s'.threads) && (job in s.threads ==> s'.threads[job] == s.threads[job])
  }

  lemma LocalFrame(s: State, mover: Job, code: int, job: Job)
    requires mover in s.threads && mover != job
    ensures SameJob(s, Start(s, mover), job) && SameJob(s, Exit(s, mover, code), job) && SameJob(s, Pop(s, mover), job)
  {
  }

  lemma RowFrame(s: State, mover: Job, job: Job)
    requires mover in s.threads && mover != job
    ensures SameJob(s, Check(s, mover), job) && SameJob(s, MarkRestart(s, mover), job) &&
        SameJob(s, Settle(s, mover), job)
  {
  }

  lemma RunFrame(s: State, mover: Job, newRun: RunId, job: Job, status: Status, next: Phase)
    requires mover in s.threads && mover != job
    ensures SameJob(s, Finish(s, mover, status, next), job) && SameJob(s, Register(s, mover, newRun), job)
  {
  }

  lemma LastFrame(s: State, mover: Job, job: Job)
    requires mover in s.threads && mover != job
    ensures SameJob(s, Begin(s, mover), job) && SameJob(s, Forget(s, mover), job)
  {
  }

  lemma OthersFrame(s: State, mover: Job, code: int, newRun: RunId, job: Job)
    requires mover in s.threads && mover != job
    ensures SameJob(s, Move(s, mover, code, newRun), job)
  {
    LocalFrame(s, mover, code, job);
    RowFrame(s, mover, job);
    LastFrame(s, mover, job);
    RunFrame(s, mover, newRun, job, Failure, Registering);
    RunFrame(s, mover, newRun, job, s.threads[mover].status, Forgetting);
  }

  lemma LogKept(s: State, job: Job, code: int, newRun: RunId, status: Status, next: Phase)
    requires job in s.threads
    ensures Start(s, job).log == Exit(s, job, code).log == Pop(s, job).log == Check(s, job).log == s.log
    ensures MarkRestart(s, job).log == Finish(s, job, status, next).log == Register(s, job, newRun).log == s.log
    ensures Begin(s, job).log == Settle(s, job).log == s.log
    ensures LogExtends(Forget(s, job), s)
  {
  }

  ghost predicate LogExtends(s': State, s: State) {
    |s.log| <= |s'.log| && forall k :: 0 <= k < |s.log| ==> s'.log[k] == s.log[k]
  }

  lemma MoveLog(s: State, job: Job, code: int, newRun: RunId)
    requires job in s.threads
    ensures LogExtends(Move(s, job, code, newRun), s)
  {
    LogKept(s, job, code, newRun, Failure, Registering);
    LogKept(s, job, code, newRun, s.threads[job].status, Forgetting);
  }

  lemma LogGrows(s: State, step: Step)
    requires Enabled(s, step)
    ensures LogExtends(Apply(s, step), s)
  {
    if step.Advance? {
      MoveLog(s, step.job, step.code, step.newRun);
    }
  }

  lemma EndedStays(s: State, s': State, job: Job, runs: seq<RunId>, status: Option<Status>)
    requires EndedWith(s, job, runs, status) && LogExtends(s', s)
    ensures EndedWith(s', job, runs, status)
  {
    var k :| 0 <= k < |s.log| && s.log[k].job == job && s.log[k].runs == runs &&
                (status.Some? ==> s.log[k].status == status.value);
    assert s'.log[k] == s.log[k];
  }

  lemma DoomedStarts(s: State, job: Job, code: int, runs: seq<RunId>, early: bool)
    requires Doomed(s, job, runs, early) && job in s.threads
    ensures s.threads[job].phase.Waiting? ==> Doomed(Start(s, job), job, runs, early)
    ensures s.threads[job].phase.Executing? ==> Doomed(Exit(s, job, code), job, runs, early)
  {
  }

  lemma DoomedChecks(s: State, job: Job, runs: seq<RunId>, early: bool)
    requires Doomed(s, job, runs, early) && job in s.threads
    ensures s.threads[job].phase.Popping? ==> Doomed(Pop(s, job), job, runs, early)
    ensures s.threads[job].phase.Checking? ==> Doomed(Check(s, job), job, runs, early)
  {
  }

  lemma DoomedEnds(s: State, job: Job, runs: seq<RunId>, early: bool)
    requires Doomed(s, job, runs, early) && job in s.threads
    ensures s.threads[job].phase.Settling? ==> Doomed(Settle(s, job), job, runs, early)
    ensures s.threads[job].phase.Finishing? ==>
        Doomed(Finish(s, job, s.threads[job].status, Forgetting), job, runs, early)
  {
  }

  lemma DoomedForgets(s: State, job: Job, runs: seq<RunId>, early: bool)
    requires Doomed(s, job, runs, early) && job in s.threads && s.threads[job].phase.Forgetting?
    ensures Doomed(Forget(s, job), job, runs, early)
  {
    var s' := Forget(s, job);
    assert s'.log[|s.log|].job == job;
  }

  lemma DoomedMoves(s: State, job: Job, code: int, newRun: RunId, runs: seq<RunId>, early: bool)
    requires Doomed(s, job, runs, early) && job in s.threads
    ensures Doomed(Move(s, job, code, newRun), job, runs, early)
  {
    DoomedStarts(s, job, code, runs, early);
    DoomedChecks(s, job, runs, early);
    DoomedEnds(s, job, runs, early);
    if s.threads[job].phase.Forgetting? {
      DoomedForgets(s, job, runs, early);
    }
  }

  lemma DoomedStays(s: State, step: Step, job: Job, runs: seq<RunId>, early: bool)
    requires Doomed(s, job, runs, early) && Enabled(s, step) && QuietStep(s, step, job)
    ensures Doomed(Apply(s, step), job, runs, early)
  {
    if step.Advance? && step.job == job {
      DoomedMoves(s, job, step.code, step.newRun, runs, early);
    } else {
      QuietFrame(s, step, job);
      if job !in s.threads {
        LogGrows(s, step);
        EndedStays(s, Apply(s, step), job, runs, if early then Some(Terminated) else None);
      }
    }
  }

  lemma RevivedRuns(s: State, job: Job, code: int)
    requires Revived(s, job) && job in s.threads
    ensures s.threads[job].phase.Waiting? ==> Revived(Start(s, job), job)
    ensures s.threads[job].phase.Executing? ==> Revived(Exit(s, job, code), job)
    ensures s.threads[job].phase.Popping? ==> Revived(Pop(s, job), job)
    ensures s.threads[job].phase.Checking? ==> Revived(Check(s, job), job)
  {
  }

  lemma RevivedRetries(s: State, job: Job, newRun: RunId)
    requires Revived(s, job) && job in s.threads
    ensures s.threads[job].phase.Restarting? ==> Revived(MarkRestart(s, job), job)
    ensures s.threads[job].phase.Closing? ==> Revived(Finish(s, job, Failure, Registering), job)
    ensures s.threads[job].phase.Registering? ==> Revived(Register(s, job, newRun), job)
    ensures s.threads[job].phase.Beginning? ==> Revived(Begin(s, job), job)
  {
  }

  lemma RevivedEnds(s: State, job: Job)
    requires Revived(s, job) && job in s.threads
    ensures s.threads[job].phase.Settling? ==> Revived(Settle(s, job), job)
    ensures s.threads[job].phase.Finishing? ==> Revived(Finish(s, job, s.threads[job].status, Forgetting), job)
    ensures s.threads[job].phase.Forgetting? ==> Revived(Forget(s, job), job)
  {
  }

  lemma RevivedMoves(s: State, job: Job, code: int, newRun: RunId)
    requires Revived(s, job) && job in s.threads
    ensures Revived(Move(s, job, code, newRun), job)
  {
    RevivedRuns(s, job, code);
    RevivedRetries(s, job, newRun);
    RevivedEnds(s, job);
  }

  lemma RevivedStays(s: State, step: Step, job: Job)
    requires Revived(s, job) && Enabled(s, step) && QuietStep(s, step, job)
    ensures Revived(Apply(s, step), job)
  {
    if step.Advance? && step.job == job {
      RevivedMoves(s, job, step.code, step.newRun);
    } else {
      QuietFrame(s, step, job);
    }
  }

  lemma {:induction false} DoomedToTheEnd(states: seq<State>, steps: seq<Step>, k: nat, i: nat, job: Job,
                                          runs: seq<RunId>, early: bool)
    requires IsRun(states, steps) && Quiet(states, steps, k, job) && k <= i < |states|
    requires Doomed(states[k], job, runs, early)
    ensures Doomed(states[i], job, runs, early)
  {
    if i > k {
      DoomedToTheEnd(states, steps, k, i - 1, job, runs, early);
      assert Taken(states, steps, i - 1);
      DoomedStays(states[i - 1], steps[i - 1], job, runs, early);
    }
  }

  lemma {:induction false} RevivedToTheEnd(states: seq<State>, steps: seq<Step>, k: nat, i: nat, job: Job)
    requires IsRun(states, steps) && Quiet(states, steps, k, job) && k <= i < |states|
    requires Revived(states[k], job)
    ensures Revived(states[i], job)
  {
    if i > k {
      RevivedToTheEnd(states, steps, k, i - 1, job);
      assert Taken(states, steps, i - 1);
      RevivedStays(states[i - 1], steps[i - 1], job);
    }
  }

  /** A KILLJOB on a job with a live thread, with no other writer of the job's row
      after it, survives to the end of that thread exactly if it is not committed
      inside the retry window: after the check that decided on a retry, and before the
      transaction that sets RUNNING again.  A kill that survives starts no further
      attempt, and before the final status is settled it is on the run record too.  The
      same holds of a kill that read RUNNING earlier and writes TERMINATED only now. */
  lemma KillIsKeptIff(states: seq<State>, steps: seq<Step>, k: nat, job: Job)
    requires IsRun(states, steps) && k < |steps| && Quiet(states, steps, k + 1, job)
    requires steps[k] == Kill(job) || steps[k] == Write(job, Some(Terminated))
    requires job in states[k].threads && job !in states[|steps|].threads
    ensures var phase, last := states[k].threads[job].phase, states[|steps|];
      && job in last.rows
      && (last.rows[job] == Terminated <==> !InRetry(phase))
      && (!InRetry(phase) ==> EndedWith(last, job, states[k].threads[job].runs, None))
      && (!InRetry(phase) && !phase.Finishing? && !phase.Forgetting? ==>
            EndedWith(last, job, states[k].threads[job].runs, Some(Terminated)))
  {
    ReachableInv(states, steps, k);
    assert Taken(states, steps, k);
    var t := states[k].threads[job];
    assert ThreadOk(states[k], job);
    if InRetry(t.phase) {
      RevivedToTheEnd(states, steps, k + 1, |steps|, job);
    } else {
      DoomedToTheEnd(states, steps, k + 1, |steps|, job, t.runs, false);
      if !t.phase.Finishing? && !t.phase.Forgetting? {
        DoomedToTheEnd(states, steps, k + 1, |steps|, job, t.runs, true);
      }
    }
  }

  // ----- the terminal transaction

  /** The thread has settled on `status` and the job's row, if there is one, agrees. */
  ghost predicate Settled(s: State, job: Job, status: Status) {
    && (job in s.rows ==> s.rows[job] == status)
    && (if job in s.threads then
          var t := s.threads[job]; (t.phase.Finishing? || t.phase.Forgetting?) && t.status == status
        else exists k :: 0 <= k < |s.log| && s.log[k].job == job && s.log[k].status == status)
  }

  lemma SettledMoves(s: State, job: Job, code: int, newRun: RunId, status: Status)
    requires Settled(s, job, status) && job in s.threads
    ensures Settled(Move(s, job, code, newRun), job, status)
  {
    if s.threads[job].phase.Forgetting? {
      assert Forget(s, job).log[|s.log|].job == job;
    }
  }

  lemma SettledStays(s: State, step: Step, job: Job, status: Status)
    requires Settled(s, job, status) && Enabled(s, step) && QuietStep(s, step, job)
    ensures Settled(Apply(s, step), job, status)
  {
    if step.Advance? && step.job == job {
      SettledMoves(s, job, step.code, step.newRun, status);
    } else {
      QuietFrame(s, step, job);
      if job !in s.threads {
        LogGrows(s, step);
        var k :| 0 <= k < |s.log| && s.log[k].job == job && s.log[k].status == status;
        assert Apply(s, step).log[k] == s.log[k];
      }
    }
  }

  lemma {:induction false} SettledToTheEnd(states: seq<State>, steps: seq<Step>, k: nat, i: nat, job: Job,
                                           status: Status)
    requires IsRun(states, steps) && Quiet(states, steps, k, job) && k <= i < |states|
    requires Settled(states[k], job, status)
    ensures Settled(states[i], job, status)
  {
    if i > k {
      SettledToTheEnd(states, steps, k, i - 1, job, status);
      assert Taken(states, steps, i - 1);
      SettledStays(states[i - 1], steps[i - 1], job, status);
    }
  }

  /** The terminal transaction never replaces a TERMINATED.  Without another writer
      after it the job ends with the status its thread settled on, and so does the last
      run record, unless that is the one record the finish gave up on. */
  lemma TerminalAgrees(states: seq<State>, steps: seq<Step>, k: nat, job: Job)
    requires IsRun(states, steps) && k < |steps| && steps[k].Advance? && steps[k].job == job
    requires job in states[k].threads && states[k].threads[job].phase.Settling?
    requires Quiet(states, steps, k + 1, job) && job !in states[|steps|].threads
    ensures var last, status := states[|steps|], Settle(states[k], job).threads[job].status;
      && (job in states[k].rows && states[k].rows[job] == Terminated ==> status == Terminated)
      && (job in last.rows ==> last.rows[job] == status)
      && (exists m :: 0 <= m < |last.log| && last.log[m].job == job && last.log[m].status == status && LastRecorded(last, last.log[m]))
  {
    assert Taken(states, steps, k);
    var status := Settle(states[k], job).threads[job].status;
    SettledToTheEnd(states, steps, k + 1, |steps|, job, status);
    var last := states[|steps|];
    var m :| 0 <= m < |last.log| && last.log[m].job == job && last.log[m].status == status;
    RecordsOfAFinishedJob(states, steps, |steps|, m, |last.log[m].runs| - 1);
  }

  ghost predicate LastRecorded(s: State, d: Done) {
    var r := d.runs[|d.runs| - 1];
    (d.gaveUp && |d.runs| == 1) || (r in s.records && s.records[r].job == d.job && s.records[r].status == d.status)
  }

  // ----- when a job ends TERMINATED

  /** The thread of `job` finds its row TERMINATED, after the process or at the end. */
  ghost predicate FindsKill(s: State, step: Step, job: Job) {
    && step.Advance? && step.job == job && job in s.threads
    && (s.threads[job].phase.Checking? || s.threads[job].phase.Settling?)
    && job in s.rows && s.rows[job] == Terminated
  }

  ghost predicate HoldsKill(s: State, job: Job, run: RunId) {
    job in s.threads && s.threads[job].status == Terminated && Current(s.threads[job]) == run
  }

  /** Where the TERMINATED of a thread comes from. */
  lemma KillComesFrom(s: State, step: Step, job: Job)
    requires ThreadsOk(s) && Enabled(s, step) && job in Apply(s, step).threads
    requires Apply(s, step).threads[job].status == Terminated
    ensures var run := Current(Apply(s, step).threads[job]);
      HoldsKill(s, job, run) || (FindsKill(s, step, job) && Current(s.threads[job]) == run)
  {
    if step.Advance? && step.job == job {
      assert ThreadOk(s, job);
      OwnKill(s, job, step.code, step.newRun);
    } else if step.Advance? {
      OthersFrame(s, step.job, step.code, step.newRun, job);
    }
  }

  lemma OwnKill(s: State, job: Job, code: int, newRun: RunId)
    requires job in s.threads && CountsOk(s.threads[job])
    requires job in Move(s, job, code, newRun).threads && Move(s, job, code, newRun).threads[job].status == Terminated
    ensures var t, t' := s.threads[job], Move(s, job, code, newRun).threads[job];
      && t'.runs == t.runs
      && (t.status == Terminated ||
          ((t.phase.Checking? || t.phase.Settling?) && job in s.rows && s.rows[job] == Terminated))
  {
    LocalKill(s, job, code);
    RowKill(s, job);
    TailKill(s, job, newRun, Failure, Registering);
    TailKill(s, job, newRun, s.threads[job].status, Forgetting);
  }

  lemma LocalKill(s: State, job: Job, code: int)
    requires job in s.threads
    ensures Start(s, job).threads[job].status == Exit(s, job, code).threads[job].status == s.threads[job].status
    ensures Start(s, job).threads[job].runs == Exit(s, job, code).threads[job].runs == s.threads[job].runs
    ensures Pop(s, job).threads[job].status != Terminated && Pop(s, job).threads[job].runs == s.threads[job].runs
  {
  }

  lemma RowKill(s: State, job: Job)
    requires job in s.threads
    ensures Check(s, job).threads[job].runs == Settle(s, job).threads[job].runs == s.threads[job].runs
    ensures Check(s, job).threads[job].status == Terminated || Settle(s, job).threads[job].status == Terminated ==>
              s.threads[job].status == Terminated || (job in s.rows && s.rows[job] == Terminated)
  {
  }

  lemma TailKill(s: State, job: Job, newRun: RunId, status: Status, next: Phase)
    requires job in s.threads
    ensures MarkRestart(s, job).threads[job].status == Begin(s, job).threads[job].status == s.threads[job].status
    ensures MarkRestart(s, job).threads[job].runs == Begin(s, job).threads[job].runs == s.threads[job].runs
    ensures Finish(s, job, status, next).threads[job].status == Register(s, job, newRun).threads[job].status ==
        s.threads[job].status
    ensures Finish(s, job, status, next).threads[job].runs == s.threads[job].runs && job !in Forget(s, job).threads
  {
  }

  lemma {:induction false} ThreadFoundKill(states: seq<State>, steps: seq<Step>, i: nat, job: Job) returns (j: nat)
    requires IsRun(states, steps) && i < |states| && job in states[i].threads
    requires states[i].threads[job].status == Terminated
    ensures j < i && FindsKill(states[j], steps[j], job)
    ensures Current(states[j].threads[job]) == Current(states[i].threads[job])
  {
    assert Taken(states, steps, i - 1);
    ReachableInv(states, steps, i - 1);
    j := i - 1;
    KillComesFrom(states[j], steps[j], job);
    if !FindsKill(states[j], steps[j], job) || Current(states[j].threads[job]) != Current(states[i].threads[job]) {
      j := ThreadFoundKill(states, steps, j, job);
    }
  }

  /** A job ends TERMINATED only if its thread found its row so during its last attempt, at
      step `j`. */
  lemma {:induction false} TerminatedWasKilled(states: seq<State>, steps: seq<Step>, i: nat, k: nat) returns (j: nat)
    requires IsRun(states, steps) && i < |states| && k < |states[i].log| && states[i].log[k].status == Terminated
    ensures var d := states[i].log[k];
      j < i && FindsKill(states[j], steps[j], d.job) && Current(states[j].threads[d.job]) == d.runs[|d.runs| - 1]
  {
    assert Taken(states, steps, i - 1);
    LogComesFrom(states[i - 1], steps[i - 1], k);
    if k < |states[i - 1].log| {
      j := TerminatedWasKilled(states, steps, i - 1, k);
    } else {
      j := ThreadFoundKill(states, steps, i - 1, states[i].log[k].job);
    }
  }

  lemma LogComesFrom(s: State, step: Step, k: nat)
    requires Enabled(s, step) && k < |Apply(s, step).log|
    ensures var s' := Apply(s, step);
      if k < |s.log| then s'.log[k] == s.log[k]
      else
        var d := s'.log[k];
        && d.job in s.threads && s.threads[d.job].status == d.status && s.threads[d.job].runs == d.runs
        && s.threads[d.job].gaveUp == d.gaveUp
  {
    if step.Advance? {
      MoveAddsLog(s, step.job, step.code, step.newRun);
    }
  }

  lemma MoveAddsLog(s: State, job: Job, code: int, newRun: RunId)
    requires job in s.threads
    ensures var t, log := s.threads[job], Move(s, job, code, newRun).log;
      || log == s.log
      || log == s.log + [Done(job, t.runs, t.retries, t.nRetrys, t.maxExitSuccess, t.status, t.wasKilled, t.gaveUp)]
  {
    LogKept(s, job, code, newRun, Failure, Registering);
    LogKept(s, job, code, newRun, s.threads[job].status, Forgetting);
  }

  // ----- a kill that is lost

  /** The run `states` by `steps`, with nobody else writing the row of `job` from
      step `from` on. */
  ghost predicate QuietRun(states: seq<State>, steps: seq<Step>, from: nat, job: Job) {
    IsRun(states, steps) && Quiet(states, steps, from, job)
  }

  lemma Extend(states: seq<State>, steps: seq<Step>, from: nat, job: Job, step: Step)
    returns (states': seq<State>, steps': seq<Step>)
    requires QuietRun(states, steps, from, job) && Enabled(states[|steps|], step)
    requires |steps| >= from ==> QuietStep(states[|steps|], step, job)
    ensures steps' == steps + [step] && states' == states + [Apply(states[|steps|], step)]
    ensures states'[|steps'|] == Apply(states[|steps|], step)
    ensures QuietRun(states', steps', from, job)
  {
    steps' := steps + [step];
    states' := states + [Apply(states[|steps|], step)];
    forall i | 0 <= i < |steps'| ensures Taken(states', steps', i) {
      assert i < |steps| ==> Taken(states, steps, i);
    }
    forall i | from <= i < |steps'| ensures QuietStep(states'[i], steps'[i], job) {
      assert i < |steps| ==> QuietStep(states[i], steps[i], job);
    }
  }

  /** A thread of job "J" with one retry to use. */
  function ThreadOfJ(phase: Phase, runs: RunIds, retries: nat, exit: int, status: Status): Thread {
    Thread(phase, runs, retries, 1, None, exit, status, false, 0, false)
  }

  lemma Started() returns (states: seq<State>, steps: seq<Step>)
    ensures QuietRun(states, steps, 7, "J") && |steps| == 3
    ensures var s := states[3];
      && s.rows == map["J" := Running] && s.records == map[0 := Record("J", Running, None)] && s.owner == map[0 := "J"]
      && s.threads == map["J" := ThreadOfJ(Executing, [0], 0, 0, Running)] && s.pending == map[]
  {
    steps := [];
    states := [State(map[], map[], map["J" := Other], map[], map[], map[], [], [], map[], map[], [])];
    states, steps := Extend(states, steps, 7, "J", Dispatch("J", 0, 1, None));
    states, steps := Extend(states, steps, 7, "J", Commit(0));
    states, steps := Extend(states, steps, 7, "J", Advance("J", 0, 0));
  }

  /** The steps up to the decision to retry a failed first attempt. */
  lemma FailedOnce() returns (states: seq<State>, steps: seq<Step>)
    ensures QuietRun(states, steps, 7, "J") && |steps| == 6
    ensures var s := states[6];
      && s.rows == map["J" := Running] && s.records == map[0 := Record("J", Running, None)] && s.owner == map[0 := "J"]
      && s.threads == map["J" := ThreadOfJ(Restarting, [0], 1, 1, Failure)] && s.pending == map[]
  {
    states, steps := Started();
    states, steps := Extend(states, steps, 7, "J", Advance("J", 1, 0));
    states, steps := Extend(states, steps, 7, "J", Advance("J", 0, 0));
    states, steps := Extend(states, steps, 7, "J", Advance("J", 0, 0));
  }

  /** The kill, the RESTART that overwrites it, and the end of the failed run. */
  lemma KilledAtRestart() returns (states: seq<State>, steps: seq<Step>)
    ensures QuietRun(states, steps, 7, "J") && |steps| == 9 && steps[6] == Kill("J") && "J" in states[6].threads
    ensures var s := states[9];
      && "J" in s.rows && s.rows == map["J" := Restart] && s.owner == map[0 := "J"]
      && s.threads == map["J" := ThreadOfJ(Registering, [0], 1, 1, Failure)]
  {
    states, steps := FailedOnce();
    states, steps := Extend(states, steps, 7, "J", Kill("J"));
    states, steps := Extend(states, steps, 7, "J", Advance("J", 0, 0));
    states, steps := Extend(states, steps, 7, "J", Advance("J", 0, 0));
  }

  /** The second attempt. */
  lemma KilledAndRetried() returns (states: seq<State>, steps: seq<Step>)
    ensures QuietRun(states, steps, 7, "J") && |steps| == 11 && steps[6] == Kill("J") && "J" in states[6].threads
    ensures var s := states[11];
      && s.rows == map["J" := Running] && 1 in s.records && s.records[1] == Record("J", Running, None)
      && s.threads == map["J" := ThreadOfJ(Executing, [0, 1], 1, 1, Failure)]
  {
    states, steps := KilledAtRestart();
    states, steps := Extend(states, steps, 7, "J", Advance("J", 0, 1));
    assert [0] + [1] == [0, 1];
    assert states[10].threads == map["J" := ThreadOfJ(Beginning, [0, 1], 1, 1, Failure)];
    states, steps := Extend(states, steps, 7, "J", Advance("J", 0, 0));
  }

  lemma SecondAttemptSucceeds() returns (states: seq<State>, steps: seq<Step>)
    ensures QuietRun(states, steps, 7, "J") && |steps| == 14 && steps[6] == Kill("J") && "J" in states[6].threads
    ensures var s := states[14];
      && s.rows == map["J" := Running] && 1 in s.records && s.records[1] == Record("J", Running, None)
      && s.threads == map["J" := ThreadOfJ(Settling, [0, 1], 1, 0, Success)]
  {
    states, steps := KilledAndRetried();
    states, steps := Extend(states, steps, 7, "J", Advance("J", 0, 0));
    states, steps := Extend(states, steps, 7, "J", Advance("J", 0, 0));
    states, steps := Extend(states, steps, 7, "J", Advance("J", 0, 0));
  }

  /** A kill committed right after the check is overwritten: the job is run again and
      ends in SUCCESS. */
  lemma KillCanBeLost() returns (states: seq<State>, steps: seq<Step>)
    ensures IsRun(states, steps) && |steps| == 17 && steps[6] == Kill("J") && Quiet(states, steps, 7, "J")
    ensures "J" in states[6].threads && "J" !in states[17].threads && states[17].rows == map["J" := Success]
  {
    states, steps := SecondAttemptSucceeds();
    states, steps := Extend(states, steps, 7, "J", Advance("J", 0, 0));
    states, steps := Extend(states, steps, 7, "J", Advance("J", 0, 0));
    states, steps := Extend(states, steps, 7, "J", Advance("J", 0, 0));
  }
}
