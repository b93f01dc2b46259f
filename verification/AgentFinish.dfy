/** When the agent gives up on finishing a run record
    (autosys/agent/dispatch.py, `_finish_run_with_retry`). */
module AgentFinish {
  import opened AgentInvariant
  import opened AgentKill
  import opened AgentRun

  /** A try of the thread of `job` at finishing `run`, whose record it cannot see. */
  ghost predicate Misses(s: State, step: Step, job: Job, run: RunId) {
    && step.Advance? && step.job == job && job in s.threads && Current(s.threads[job]) == run
    && (s.threads[job].phase.Closing? || s.threads[job].phase.Finishing?) && run !in s.records
  }

  ghost predicate MissesAt(states: seq<State>, steps: seq<Step>, job: Job, run: RunId, k: int) {
    0 <= k < |states| && k < |steps| && Misses(states[k], steps[k], job, run)
  }

  /** The steps `ks`, in order and before `i`, are such tries at `run`. */
  ghost predicate AllMiss(states: seq<State>, steps: seq<Step>, job: Job, run: RunId, ks: seq<nat>, i: nat) {
    && (forall x :: 0 <= x < |ks| ==> ks[x] < i && MissesAt(states, steps, job, run, ks[x]))
    && (forall x, y :: 0 <= x < y < |ks| ==> ks[x] < ks[y])
  }

  /** What a step does to the tries of a thread. */
  ghost predicate TriesNext(s: State, step: Step, job: Job, t: Thread, t': Thread) {
    && (t'.tries == 0 ||
        (Current(t') == Current(t) &&
         (t'.tries == t.tries || (t'.tries == t.tries + 1 && Misses(s, step, job, Current(t))))))
    && (t'.gaveUp ==> t.gaveUp || (t.tries + 1 >= FINISH_RETRY_ATTEMPTS && Misses(s, step, job, Current(t))))
  }

  lemma StepTries(s: State, step: Step, job: Job)
    requires ThreadsOk(s) && Enabled(s, step) && job in Apply(s, step).threads
    ensures var t' := Apply(s, step).threads[job];
      if job in s.threads then TriesNext(s, step, job, s.threads[job], t') else t'.tries == 0 && !t'.gaveUp
  {
    if step.Advance? && step.job == job {
      assert ThreadOk(s, job);
      MoveTries(s, job, step.code, step.newRun);
    } else if step.Advance? {
      OthersFrame(s, step.job, step.code, step.newRun, job);
    }
  }

  lemma MoveTries(s: State, job: Job, code: int, newRun: RunId)
    requires job in s.threads && job in Move(s, job, code, newRun).threads
    requires s.threads[job].tries > 0 ==> s.threads[job].phase.Closing? || s.threads[job].phase.Finishing?
    ensures TriesNext(s, Advance(job, code, newRun), job, s.threads[job], Move(s, job, code, newRun).threads[job])
  {
    var t := s.threads[job];
    if t.phase.Closing? {
      FinishTries(s, job, Failure, Registering);
    } else if t.phase.Finishing? {
      FinishTries(s, job, t.status, Forgetting);
    } else {
      OtherTries(s, job, code, newRun);
    }
  }

  lemma OtherTries(s: State, job: Job, code: int, newRun: RunId)
    requires job in s.threads && !s.threads[job].phase.Closing? && !s.threads[job].phase.Finishing?
    requires job in Move(s, job, code, newRun).threads
    ensures var t, t' := s.threads[job], Move(s, job, code, newRun).threads[job];
      t'.tries == t.tries && t'.gaveUp == t.gaveUp
  {
    LocalTries(s, job, code);
    CheckTries(s, job);
    TailTries(s, job, newRun);
  }

  ghost predicate SameTries(t: Thread, t': Thread) {
    t'.tries == t.tries && t'.gaveUp == t.gaveUp
  }

  lemma LocalTries(s: State, job: Job, code: int)
    requires job in s.threads
    ensures var t := s.threads[job];
      && SameTries(t, Start(s, job).threads[job]) && SameTries(t, Exit(s, job, code).threads[job])
      && SameTries(t, Pop(s, job).threads[job])
  {
  }

  lemma CheckTries(s: State, job: Job)
    requires job in s.threads
    ensures var t := s.threads[job];
      && SameTries(t, Check(s, job).threads[job]) && SameTries(t, Settle(s, job).threads[job])
      && SameTries(t, MarkRestart(s, job).threads[job])
  {
  }

  lemma TailTries(s: State, job: Job, newRun: RunId)
    requires job in s.threads
    ensures var t := s.threads[job];
      && SameTries(t, Begin(s, job).threads[job]) && SameTries(t, Register(s, job, newRun).threads[job])
      && job !in Forget(s, job).threads
  {
  }

  lemma FinishTries(s: State, job: Job, status: Status, next: Phase)
    requires job in s.threads
    ensures var t, t' := s.threads[job], Finish(s, job, status, next).threads[job];
      && t'.runs == t.runs && (t'.tries == 0 || (t'.tries == t.tries + 1 && Current(t) !in s.records))
      && (t'.gaveUp ==> t.gaveUp || (t.tries + 1 >= FINISH_RETRY_ATTEMPTS && Current(t) !in s.records))
  {
  }

  lemma OneMore(states: seq<State>, steps: seq<Step>, job: Job, run: RunId, ks: seq<nat>, i: nat)
    requires AllMiss(states, steps, job, run, ks, i) && MissesAt(states, steps, job, run, i)
    ensures AllMiss(states, steps, job, run, ks + [i], i + 1)
  {
  }

  /** The tries a thread counts have all missed the record of its current run. */
  lemma {:induction false} TriesAreMisses(states: seq<State>, steps: seq<Step>, i: nat, job: Job) returns (ks: seq<nat>)
    requires IsRun(states, steps) && i < |states| && job in states[i].threads
    ensures |ks| == states[i].threads[job].tries
    ensures AllMiss(states, steps, job, Current(states[i].threads[job]), ks, i)
  {
    ks := [];
    if states[i].threads[job].tries > 0 {
      ThreadBefore(states, steps, i, job);
      ks := TriesAreMisses(states, steps, i - 1, job);
      var run := Current(states[i].threads[job]);
      if states[i].threads[job].tries > states[i - 1].threads[job].tries {
        OneMore(states, steps, job, run, ks, i - 1);
        ks := ks + [i - 1];
      }
    }
  }

  lemma ThreadBefore(states: seq<State>, steps: seq<Step>, i: nat, job: Job)
    requires IsRun(states, steps) && i < |states| && job in states[i].threads
    requires states[i].threads[job].tries > 0 || states[i].threads[job].gaveUp
    ensures i > 0 && job in states[i - 1].threads
    ensures TriesNext(states[i - 1], steps[i - 1], job, states[i - 1].threads[job], states[i].threads[job])
  {
    assert Taken(states, steps, i - 1);
    ReachableInv(states, steps, i - 1);
    StepTries(states[i - 1], steps[i - 1], job);
  }

  lemma {:induction false} ThreadGaveUp(states: seq<State>, steps: seq<Step>, i: nat, job: Job)
    returns (run: RunId, ks: seq<nat>)
    requires IsRun(states, steps) && i < |states| && job in states[i].threads && states[i].threads[job].gaveUp
    ensures |ks| == 5 && AllMiss(states, steps, job, run, ks, i)
  {
    ThreadBefore(states, steps, i, job);
    if states[i - 1].threads[job].gaveUp {
      run, ks := ThreadGaveUp(states, steps, i - 1, job);
    } else {
      run := Current(states[i - 1].threads[job]);
      ks := TriesAreMisses(states, steps, i - 1, job);
      ReachableInv(states, steps, i - 1);
      assert ThreadOk(states[i - 1], job);
      OneMore(states, steps, job, run, ks, i - 1);
      ks := ks + [i - 1];
    }
  }

  /** A finished thread that gave up on a run record has looked for it five times and never
      seen it. */
  lemma {:induction false} GivesUpAfterFive(states: seq<State>, steps: seq<Step>, i: nat, k: nat)
    returns (run: RunId, ks: seq<nat>)
    requires IsRun(states, steps) && i < |states| && k < |states[i].log| && states[i].log[k].gaveUp
    ensures |ks| == 5 && AllMiss(states, steps, states[i].log[k].job, run, ks, i)
  {
    assert Taken(states, steps, i - 1);
    LogComesFrom(states[i - 1], steps[i - 1], k);
    if k < |states[i - 1].log| {
      run, ks := GivesUpAfterFive(states, steps, i - 1, k);
    } else {
      run, ks := ThreadGaveUp(states, steps, i - 1, states[i].log[k].job);
    }
  }
}
