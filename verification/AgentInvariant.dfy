/** What holds in every reachable state of the agent's run protocol, with any number of
    jobs running, retrying and being killed at once (autosys/agent/dispatch.py). */
module AgentInvariant {
  import opened AgentRun
  import opened Options
  import opened Permutations

  predicate InRetry(p: Phase) {
    p.Restarting? || p.Closing? || p.Registering? || p.Beginning?
  }

  predicate InTail(p: Phase) {
    p.Settling? || p.Finishing? || p.Forgetting?
  }

  function Max0(n: int): nat {
    if n < 0 then 0 else n
  }

  /** How many of the thread's runs have been finished (or given up). */
  function Closed(t: Thread): nat {
    if t.phase.Registering? || t.phase.Forgetting? then |t.runs| else |t.runs| - 1
  }

  ghost predicate CountsOk(t: Thread) {
    && |t.runs| == (if t.phase.Restarting? || t.phase.Closing? || t.phase.Registering? then t.retries else t.retries + 1)
    && t.retries <= Max0(t.nRetrys)
    && t.tries < FINISH_RETRY_ATTEMPTS && (t.tries > 0 ==> t.phase.Closing? || t.phase.Finishing?)
    && (t.wasKilled ==> InTail(t.phase) && t.status == Terminated)
    && (InRetry(t.phase) ==> t.status == Failure && t.retries > 0)
    && (t.phase.Checking? ==> t.status == Success || t.status == Failure)
    && (InTail(t.phase) ==> FinalOk(t.status, t.retries, t.nRetrys))
    && (t.gaveUp ==> Closed(t) > 0)
  }

  /** A thread ends in SUCCESS, in TERMINATED, or in FAILURE with no retry left. */
  ghost predicate FinalOk(status: Status, retries: nat, nRetrys: int) {
    status == Success || status == Terminated || (status == Failure && retries == Max0(nRetrys))
  }

  /** The first run keeps no result if its dispatch was not committed in time. */
  ghost predicate Kept(records: map<RunId, Record>, run: RunId, lost: bool, status: Status) {
    if lost then run in records ==> records[run].status == Running
    else run in records && records[run].status == status
  }

  ghost predicate RunOk(records: map<RunId, Record>, pending: map<RunId, Job>, t: Thread, i: nat)
    requires i < |t.runs|
  {
    && (i > 0 ==> t.runs[i] !in pending)
    && (if i < Closed(t) then Kept(records, t.runs[i], i == 0 &&
        t.gaveUp, if i < |t.runs| - 1 then Failure else t.status)
        else i > 0 ==> (t.runs[i] in records <==> !t.phase.Beginning?))
  }

  ghost predicate ThreadOk(s: State, job: Job)
    requires job in s.threads
  {
    var t := s.threads[job];
    && CountsOk(t) && NoDup(t.runs)
    && (forall i :: 0 <= i < |t.runs| ==> t.runs[i] in s.runJobs && s.runJobs[t.runs[i]] == job)
    && (job in s.active <==> InActive(t.phase))
    && (job in s.active ==> s.active[job] == Current(t))
    && (forall i :: 0 <= i < |t.runs| ==> RunOk(s.records, s.pending, t, i))
  }

  /** A finished thread: at most `nRetrys` retries, a FAILURE record for every run but
      the last, and the final status on the last one. */
  ghost predicate DoneOk(s: State, d: Done) {
    && |d.runs| == d.retries + 1 && d.retries <= Max0(d.nRetrys)
    && FinalOk(d.status, d.retries, d.nRetrys)
    && (d.wasKilled ==> d.status == Terminated)
    && (forall i :: 0 <= i < |d.runs| ==> d.runs[i] in s.owner && s.owner[d.runs[i]] == d.job && d.runs[i] !in s.runJobs)
    && (forall i :: 0 < i < |d.runs| ==> d.runs[i] !in s.pending)
    && (forall i :: 0 <= i < |d.runs| ==>
          Kept(s.records, d.runs[i], i == 0 && d.gaveUp, if i < |d.runs| - 1 then Failure else d.status))
  }

  ghost predicate MapsOk(s: State) {
    && (forall j :: j in s.active ==> j in s.threads)
    && (forall r :: r in s.runJobs ==>
          r in s.owner && s.owner[r] == s.runJobs[r] && s.runJobs[r] in s.threads && r in s.threads[s.runJobs[r]].runs)
    && (forall r :: r in s.pending ==> r in s.owner && s.owner[r] == s.pending[r] && r !in s.records)
    && (forall r :: r in s.records ==> r in s.owner && s.records[r].job == s.owner[r])
  }

  ghost predicate LineOk(owner: map<RunId, Job>, l: Line) {
    l.run in owner && l.name == if l.early then owner[l.run] else "unknown"
  }

  ghost predicate LinesOk(s: State) {
    && (forall k :: 0 <= k < |s.arrived| ==> LineOk(s.owner, s.arrived[k]))
    && (forall k :: 0 <= k < |s.output| ==> LineOk(s.owner, s.output[k]))
  }

  ghost predicate ThreadsOk(s: State) {
    forall j :: j in s.threads ==> ThreadOk(s, j)
  }

  ghost predicate LogOk(s: State) {
    forall k :: 0 <= k < |s.log| ==> DoneOk(s, s.log[k])
  }

  ghost predicate Inv(s: State) {
    MapsOk(s) && LinesOk(s) && ThreadsOk(s) && LogOk(s)
  }

  // ----- every step keeps it

  /** What may happen to a run while its thread does nothing: its record is committed
      or rolled back. */
  ghost predicate Evolves(s: State, s': State, r: RunId) {
    && (r in s.records ==> r in s'.records && s'.records[r] == s.records[r])
    && (r !in s.records && r in s'.records ==> r in s.pending && s'.records[r].status == Running)
    && (r in s'.pending ==> r in s.pending)
  }

  lemma ThreadEvolves(s: State, s': State, j: Job)
    requires j in s.threads && ThreadOk(s, j) && MapsOk(s)
    requires j in s'.threads && s'.threads[j] == s.threads[j]
    requires j in s.active <==> j in s'.active
    requires j in s.active ==> s'.active[j] == s.active[j]
    requires forall r :: r in s.runJobs && s.runJobs[r] == j ==>
        r in s'.runJobs && s'.runJobs[r] == j && Evolves(s, s', r)
    ensures ThreadOk(s', j)
  {
    var t := s.threads[j];
    forall i | 0 <= i < |t.runs| ensures RunOk(s'.records, s'.pending, t, i) {
      assert RunOk(s.records, s.pending, t, i);
      assert Evolves(s, s', t.runs[i]);
    }
  }

  lemma DoneEvolves(s: State, s': State, d: Done)
    requires DoneOk(s, d) && MapsOk(s)
    requires forall r :: r in s.owner && r !in s.runJobs ==>
               r in s'.owner && s'.owner[r] == s.owner[r] && r !in s'.runJobs && Evolves(s, s', r)
    ensures DoneOk(s', d)
  {
    forall i | 0 <= i < |d.runs|
      ensures d.runs[i] in s'.owner && s'.owner[d.runs[i]] == d.job && d.runs[i] !in s'.runJobs
      ensures i > 0 ==> d.runs[i] !in s'.pending
      ensures Kept(s'.records, d.runs[i], i == 0 && d.gaveUp, if i < |d.runs| - 1 then Failure else d.status)
    {
      assert Evolves(s, s', d.runs[i]);
    }
  }

  /** The threads and finished threads a step leaves alone. */
  ghost predicate OthersKept(s: State, s': State, job: Job) {
    && (forall j :: j in s.threads && j != job ==> j in s'.threads && ThreadOk(s', j))
    && (forall k :: 0 <= k < |s.log| ==> DoneOk(s', s.log[k]))
  }

  /** What a step of the thread of `job`, or a dispatch or commit of it, leaves alone. */
  ghost predicate Elsewhere(s: State, s': State, job: Job) {
    ThreadsElsewhere(s, s', job) && RunsElsewhere(s, s', job)
  }

  ghost predicate ThreadsElsewhere(s: State, s': State, job: Job) {
    && (forall j :: j in s.threads && j != job ==> j in s'.threads && s'.threads[j] == s.threads[j])
    && (forall j :: j != job ==> (j in s.active <==> j in s'.active) && (j in s.active ==> s'.active[j] == s.active[j]))
  }

  ghost predicate RunsElsewhere(s: State, s': State, job: Job) {
    && (forall r :: r in s.owner ==> r in s'.owner && s'.owner[r] == s.owner[r])
    && (forall r :: r in s.owner && s.owner[r] != job ==>
          ((r in s.runJobs <==> r in s'.runJobs) && (r in s.runJobs ==>
              s'.runJobs[r] == s.runJobs[r]) && Evolves(s, s', r)))
    && (forall r :: r in s.owner && s.owner[r] == job && r !in s.runJobs ==> r !in s'.runJobs && Evolves(s, s', r))
  }

  lemma OthersEvolve(s: State, s': State, job: Job)
    requires Inv(s) && Elsewhere(s, s', job)
    ensures OthersKept(s, s', job)
  {
    forall j | j in s.threads && j != job ensures j in s'.threads && ThreadOk(s', j) {
      ThreadEvolves(s, s', j);
    }
    forall k | 0 <= k < |s.log| ensures DoneOk(s', s.log[k]) {
      DoneEvolves(s, s', s.log[k]);
    }
  }

  lemma DispatchKeepsMaps(s: State, step: Step)
    requires MapsOk(s) && step.Dispatch? && Enabled(s, step)
    ensures MapsOk(Apply(s, step))
  {
    var s' := Apply(s, step);
    assert s'.threads[step.job].runs[0] == step.run;
    forall r | r in s'.runJobs
      ensures r in s'.owner && s'.owner[r] == s'.runJobs[r] && s'.runJobs[r] in s'.threads
      ensures r in s'.threads[s'.runJobs[r]].runs
    {
    }
  }

  lemma DispatchStartsThread(s: State, step: Step)
    requires MapsOk(s) && step.Dispatch? && Enabled(s, step)
    ensures ThreadOk(Apply(s, step), step.job)
  {
  }

  lemma OwnersGrow(s: State, s': State)
    requires LinesOk(s) && s'.arrived == s.arrived && s'.output == s.output
    requires forall r :: r in s.owner ==> r in s'.owner && s'.owner[r] == s.owner[r]
    ensures LinesOk(s')
  {
  }

  lemma DispatchKeepsOthers(s: State, step: Step)
    requires Inv(s) && step.Dispatch? && Enabled(s, step)
    ensures OthersKept(s, Apply(s, step), step.job)
  {
    DispatchElsewhere(s, step);
    OthersEvolve(s, Apply(s, step), step.job);
  }

  lemma DispatchElsewhere(s: State, step: Step)
    requires step.Dispatch? && Enabled(s, step)
    ensures Elsewhere(s, Apply(s, step), step.job)
  {
    DispatchThreadsElsewhere(s, step);
    DispatchRunsElsewhere(s, step);
  }

  lemma DispatchThreadsElsewhere(s: State, step: Step)
    requires step.Dispatch? && Enabled(s, step)
    ensures ThreadsElsewhere(s, Apply(s, step), step.job)
  {
  }

  lemma DispatchRunsElsewhere(s: State, step: Step)
    requires step.Dispatch? && Enabled(s, step)
    ensures RunsElsewhere(s, Apply(s, step), step.job)
  {
  }

  lemma DispatchKeepsInv(s: State, step: Step)
    requires Inv(s) && step.Dispatch? && Enabled(s, step)
    ensures Inv(Apply(s, step))
  {
    DispatchKeepsMaps(s, step);
    DispatchStartsThread(s, step);
    DispatchKeepsOthers(s, step);
    OwnersGrow(s, Apply(s, step));
  }

  lemma CommitKeepsMaps(s: State, step: Step)
    requires MapsOk(s) && (step.Commit? || step.Rollback?) && Enabled(s, step)
    ensures MapsOk(Apply(s, step))
  {
  }

  lemma AllEvolve(s: State, s': State)
    requires MapsOk(s) && ThreadsOk(s) && LogOk(s)
    requires s'.threads == s.threads && s'.active == s.active && s'.runJobs == s.runJobs && s'.owner == s.owner &&
        s'.log == s.log
    requires forall r :: r in s.owner ==> Evolves(s, s', r)
    ensures ThreadsOk(s') && LogOk(s')
  {
    forall j | j in s'.threads ensures ThreadOk(s', j) {
      ThreadEvolves(s, s', j);
    }
    forall k | 0 <= k < |s'.log| ensures DoneOk(s', s'.log[k]) {
      DoneEvolves(s, s', s.log[k]);
    }
  }

  lemma CommitKeepsInv(s: State, step: Step)
    requires Inv(s) && (step.Commit? || step.Rollback?) && Enabled(s, step)
    ensures Inv(Apply(s, step))
  {
    var s' := Apply(s, step);
    CommitKeepsMaps(s, step);
    OwnersGrow(s, s');
    AllEvolve(s, s');
  }

  /** Writes to job rows and to output lines touch nothing else. */
  lemma RestKept(s: State, rows: map<Job, Status>, arrived: seq<Line>, output: seq<Line>)
    requires MapsOk(s) && ThreadsOk(s) && LogOk(s)
    ensures var s' := s.(rows := rows, arrived := arrived, output := output); MapsOk(s') && ThreadsOk(s') && LogOk(s')
  {
    AllEvolve(s, s.(rows := rows, arrived := arrived, output := output));
  }

  lemma NamesOk(s: State, run: RunId)
    requires MapsOk(s) && ThreadsOk(s) && run in s.owner
    ensures LineOk(s.owner, Line(run, NameFor(s.runJobs, run), IsEarly(s, run)))
  {
    if IsEarly(s, run) {
      assert ThreadOk(s, s.owner[run]);
    }
  }

  lemma LineKeepsLines(s: State, step: Step)
    requires MapsOk(s) && ThreadsOk(s) && LinesOk(s) && (step.Arrive? || step.Store?) && Enabled(s, step)
    ensures LinesOk(Apply(s, step))
  {
    if step.Arrive? {
      NamesOk(s, step.run);
    }
  }

  lemma LineKeepsInv(s: State, step: Step)
    requires Inv(s) && (step.Arrive? || step.Store?) && Enabled(s, step)
    ensures Inv(Apply(s, step))
  {
    var s' := Apply(s, step);
    LineKeepsLines(s, step);
    RestKept(s, s.rows, s'.arrived, s'.output);
  }

  lemma WriteKeepsInv(s: State, step: Step)
    requires Inv(s) && (step.Write? || step.Kill?) && Enabled(s, step)
    ensures Inv(Apply(s, step))
  {
    RestKept(s, Apply(s, step).rows, s.arrived, s.output);
  }

  /** A step of the thread of `job` that changes its own variables, its entry in
      `_active`, its job's row and the records of its own runs. */
  ghost predicate OwnChange(s: State, s': State, job: Job) {
    && job in s.threads && job in s'.threads
    && s' == s.(active := s'.active, rows := s'.rows, records := s'.records, codes := s'.codes,
                threads := s.threads[job := s'.threads[job]])
    && (forall j :: j != job ==> (j in s.active <==> j in s'.active) && (j in s.active ==> s'.active[j] == s.active[j]))
    && (forall r :: r in s.owner && (s.owner[r] != job || r !in s.runJobs) ==>
          ((r in s.records <==> r in s'.records) && (r in s.records ==> s'.records[r] == s.records[r])))
  }

  lemma OwnOthers(s: State, s': State, job: Job)
    requires Inv(s) && OwnChange(s, s', job)
    ensures OthersKept(s, s', job)
  {
    OwnElsewhere(s, s', job);
    OthersEvolve(s, s', job);
  }

  lemma OwnElsewhere(s: State, s': State, job: Job)
    requires MapsOk(s) && OwnChange(s, s', job)
    ensures Elsewhere(s, s', job)
  {
    OwnRunsElsewhere(s, s', job);
  }

  lemma OwnRunsElsewhere(s: State, s': State, job: Job)
    requires MapsOk(s) && OwnChange(s, s', job)
    ensures RunsElsewhere(s, s', job)
  {
  }

  lemma OwnStep(s: State, s': State, job: Job)
    requires Inv(s) && OwnChange(s, s', job) && MapsOk(s') && ThreadOk(s', job)
    ensures Inv(s')
  {
    OwnOthers(s, s', job);
    OwnersGrow(s, s');
    Assembled(s, s', job);
  }

  lemma Assembled(s: State, s': State, job: Job)
    requires LinesOk(s') && MapsOk(s') && ThreadOk'(s', job) && OthersKept(s, s', job)
    requires s'.threads.Keys <= s.threads.Keys + {job} && s'.log == s.log
    ensures Inv(s')
  {
    forall j | j in s'.threads ensures ThreadOk(s', j) {
      if j != job {
        assert j in s'.threads.Keys;
      }
    }
  }

  ghost predicate ThreadOk'(s: State, job: Job) {
    job in s.threads && ThreadOk(s, job)
  }

  /** The step leaves the runs and their records alone. */
  ghost predicate SameRuns(s: State, s': State, job: Job) {
    && OwnChange(s, s', job) && s'.records == s.records
    && (forall j :: j in s'.active ==> j in s.active || j == job)
    && NextOk(s.threads[job], s'.threads[job])
    && var t' := s'.threads[job];
    && (job in s'.active <==> InActive(t'.phase)) && (job in s'.active ==> s'.active[job] == Current(t'))
  }

  lemma SameRunsThread(s: State, s': State, job: Job)
    requires SameRuns(s, s', job) && ThreadOk(s, job)
    ensures ThreadOk(s', job)
  {
    var t := s.threads[job];
    forall i | 0 <= i < |t.runs| ensures RunOk(s'.records, s'.pending, s'.threads[job], i) {
      assert RunOk(s.records, s.pending, t, i);
    }
  }

  lemma SameRunsStep(s: State, s': State, job: Job)
    requires Inv(s) && SameRuns(s, s', job)
    ensures Inv(s')
  {
    SameRunsThread(s, s', job);
    LocalMaps(s, s', job);
    OwnStep(s, s', job);
  }

  ghost predicate IsLocal(p: Phase) {
    p.Waiting? || p.Executing? || p.Popping? || p.Checking? || p.Restarting? || p.Settling?
  }

  /** The next values of a thread in a step that leaves its runs alone. */
  ghost predicate NextOk(t: Thread, t': Thread) {
    && CountsOk(t') && t'.runs == t.runs && t'.gaveUp == t.gaveUp
    && Closed(t') == Closed(t) == |t.runs| - 1 && !t.phase.Beginning? && !t'.phase.Beginning?
  }

  lemma CheckedNext(t: Thread, terminated: bool)
    requires CountsOk(t) && t.phase.Checking?
    ensures NextOk(t, Checked(t, terminated)) && !InActive(Checked(t, terminated).phase)
  {
  }

  lemma SettledNext(t: Thread, status: Status)
    requires CountsOk(t) && t.phase.Settling? && (status == t.status || status == Terminated)
    ensures NextOk(t, t.(phase := Finishing, status := status))
  {
  }

  ghost predicate Ready(s: State, job: Job) {
    && job in s.threads && CountsOk(s.threads[job])
    && (job in s.active <==> InActive(s.threads[job].phase))
    && (job in s.active ==> s.active[job] == Current(s.threads[job]))
  }

  lemma StartShape(s: State, job: Job)
    requires Ready(s, job) && s.threads[job].phase.Waiting?
    ensures SameRuns(s, Start(s, job), job)
  {
  }

  lemma ExitShape(s: State, job: Job, code: int)
    requires Ready(s, job) && s.threads[job].phase.Executing?
    ensures SameRuns(s, Exit(s, job, code), job)
  {
  }

  lemma PopShape(s: State, job: Job)
    requires Ready(s, job) && s.threads[job].phase.Popping?
    ensures SameRuns(s, Pop(s, job), job)
  {
  }

  lemma CheckShape(s: State, job: Job)
    requires Ready(s, job) && s.threads[job].phase.Checking?
    ensures SameRuns(s, Check(s, job), job)
  {
    CheckedNext(s.threads[job], job in s.rows && s.rows[job] == Terminated);
  }

  lemma MarkRestartShape(s: State, job: Job)
    requires Ready(s, job) && s.threads[job].phase.Restarting?
    ensures SameRuns(s, MarkRestart(s, job), job)
  {
  }

  lemma SettleShape(s: State, job: Job)
    requires Ready(s, job) && s.threads[job].phase.Settling?
    ensures SameRuns(s, Settle(s, job), job)
  {
    SettledNext(s.threads[job], Settle(s, job).threads[job].status);
  }

  /** The steps that change at most the entry in `_active` and the job's row. */
  lemma LocalStep(s: State, job: Job, code: int, newRun: RunId)
    requires Inv(s) && job in s.threads && IsLocal(s.threads[job].phase)
    ensures Inv(Move(s, job, code, newRun))
  {
    assert ThreadOk(s, job);
    match s.threads[job].phase
    case Waiting => StartShape(s, job); SameRunsStep(s, Start(s, job), job);
    case Executing => ExitShape(s, job, code); SameRunsStep(s, Exit(s, job, code), job);
    case Popping => PopShape(s, job); SameRunsStep(s, Pop(s, job), job);
    case Checking => CheckShape(s, job); SameRunsStep(s, Check(s, job), job);
    case Restarting => MarkRestartShape(s, job); SameRunsStep(s, MarkRestart(s, job), job);
    case Settling => SettleShape(s, job); SameRunsStep(s, Settle(s, job), job);
  }

  lemma LocalMaps(s: State, s': State, job: Job)
    requires MapsOk(s) && job in s.threads && job in s'.threads && s'.threads[job].runs == s.threads[job].runs
    requires s' == s.(active := s'.active, rows := s'.rows, records := s'.records, codes := s'.codes,
                      threads := s.threads[job := s'.threads[job]])
    requires forall j :: j in s'.active ==> j in s.active || j == job
    requires forall r :: r in s'.records ==> r in s.owner && s'.records[r].job == s.owner[r] && r !in s.pending
    ensures MapsOk(s')
  {
  }

  lemma FinishRun(records: map<RunId, Record>, pending: map<RunId, Job>, t: Thread, i: nat, next: Phase)
    requires CountsOk(t) && NoDup(t.runs) && i < |t.runs| && RunOk(records, pending, t, i)
    requires RunOk(records, pending, t, |t.runs| - 1)
    requires (t.phase.Closing? && next.Registering?) || (t.phase.Finishing? && next.Forgetting?)
    ensures RunOk(Finished(records, Current(t), t.status, t.exit), pending, Tried(t, Current(t) in records, next), i)
  {
    assert i < |t.runs| - 1 ==> t.runs[i] != Current(t);
  }

  lemma FinishCounts(t: Thread, visible: bool, next: Phase)
    requires CountsOk(t)
    requires (t.phase.Closing? && next.Registering?) || (t.phase.Finishing? && next.Forgetting?)
    ensures CountsOk(Tried(t, visible, next)) && Tried(t, visible, next).runs == t.runs
    ensures !InActive(Tried(t, visible, next).phase)
  {
  }

  ghost predicate FinishesNext(t: Thread, next: Phase) {
    (t.phase.Closing? && next.Registering?) || (t.phase.Finishing? && next.Forgetting?)
  }

  lemma FinishThread(s: State, job: Job, next: Phase)
    requires job in s.threads && ThreadOk(s, job) && FinishesNext(s.threads[job], next)
    ensures ThreadOk(Finish(s, job, s.threads[job].status, next), job)
  {
    var t := s.threads[job];
    var s' := Finish(s, job, t.status, next);
    FinishCounts(t, Current(t) in s.records, next);
    assert RunOk(s.records, s.pending, t, |t.runs| - 1);
    forall i | 0 <= i < |t.runs| ensures RunOk(s'.records, s'.pending, s'.threads[job], i) {
      FinishRun(s.records, s.pending, t, i, next);
    }
  }

  lemma FinishShape(s: State, job: Job, next: Phase)
    requires MapsOk(s) && job in s.threads && ThreadOk(s, job) && FinishesNext(s.threads[job], next)
    ensures var s' := Finish(s, job, s.threads[job].status, next); OwnChange(s, s', job) && MapsOk(s')
  {
    LocalMaps(s, Finish(s, job, s.threads[job].status, next), job);
  }

  /** One try at finishing the current run, after a failed attempt or at the end. */
  lemma FinishStep(s: State, job: Job, next: Phase)
    requires Inv(s) && job in s.threads && FinishesNext(s.threads[job], next)
    ensures Inv(Finish(s, job, s.threads[job].status, next))
  {
    assert ThreadOk(s, job);
    FinishThread(s, job, next);
    FinishShape(s, job, next);
    OwnStep(s, Finish(s, job, s.threads[job].status, next), job);
  }

  lemma BeginRun(records: map<RunId, Record>, pending: map<RunId, Job>, t: Thread, i: nat, job: Job)
    requires CountsOk(t) && NoDup(t.runs) && i < |t.runs| && RunOk(records, pending, t, i) && t.phase.Beginning?
    ensures RunOk(records[Current(t) := Record(job, Running, None)], pending, t.(phase := Executing), i)
  {
    assert i < |t.runs| - 1 ==> t.runs[i] != Current(t);
  }

  lemma BeginShape(s: State, job: Job)
    requires MapsOk(s) && job in s.threads && ThreadOk(s, job) && s.threads[job].phase.Beginning?
    ensures OwnChange(s, Begin(s, job), job) && MapsOk(Begin(s, job))
  {
    var t := s.threads[job];
    assert RunOk(s.records, s.pending, t, |t.runs| - 1);
    LocalMaps(s, Begin(s, job), job);
  }

  lemma BeginStep(s: State, job: Job)
    requires Inv(s) && job in s.threads && s.threads[job].phase.Beginning?
    ensures Inv(Begin(s, job))
  {
    assert ThreadOk(s, job);
    BeginThread(s, job);
    BeginShape(s, job);
    OwnStep(s, Begin(s, job), job);
  }

  lemma BeginThread(s: State, job: Job)
    requires job in s.threads && ThreadOk(s, job) && s.threads[job].phase.Beginning?
    ensures ThreadOk(Begin(s, job), job)
  {
    var s' := Begin(s, job);
    var t := s.threads[job];
    forall i | 0 <= i < |t.runs| ensures RunOk(s'.records, s'.pending, s'.threads[job], i) {
      BeginRun(s.records, s.pending, t, i, job);
    }
  }

  lemma RegisterRun(records: map<RunId, Record>, pending: map<RunId, Job>, t: Thread, i: nat, newRun: RunId)
    requires CountsOk(t) && i < |t.runs| && RunOk(records, pending, t, i) && t.phase.Registering?
    ensures RunOk(records, pending, t.(phase := Beginning, runs := t.runs + [newRun]), i)
  {
  }

  /** The new run is nobody's yet. */
  lemma NewRunIsNew(s: State, job: Job, newRun: RunId)
    requires MapsOk(s) && job in s.threads && ThreadOk(s, job) && newRun !in s.owner
    ensures newRun !in s.records && newRun !in s.pending && newRun !in s.threads[job].runs
  {
  }

  lemma RegisterRuns(s: State, job: Job, newRun: RunId)
    requires MapsOk(s) && job in s.threads && ThreadOk(s, job) && s.threads[job].phase.Registering? && newRun !in s.owner
    ensures var t' := Register(s, job, newRun).threads[job];
      forall i :: 0 <= i < |t'.runs| ==> RunOk(s.records, s.pending, t', i)
  {
    var t, t' := s.threads[job], Register(s, job, newRun).threads[job];
    NewRunIsNew(s, job, newRun);
    forall i | 0 <= i < |t'.runs| ensures RunOk(s.records, s.pending, t', i) {
      if i < |t.runs| {
        RegisterRun(s.records, s.pending, t, i, newRun);
      }
    }
  }

  lemma RegisterCounts(t: Thread, newRun: RunId)
    requires CountsOk(t) && NoDup(t.runs) && t.phase.Registering? && newRun !in t.runs
    ensures var t' := t.(phase := Beginning, runs := t.runs + [newRun]); CountsOk(t') && NoDup(t'.runs)
  {
  }

  lemma RegisterThread(s: State, job: Job, newRun: RunId)
    requires Inv(s) && job in s.threads && s.threads[job].phase.Registering? && newRun !in s.owner
    ensures ThreadOk(Register(s, job, newRun), job)
  {
    assert ThreadOk(s, job);
    NewRunIsNew(s, job, newRun);
    RegisterRuns(s, job, newRun);
    RegisterCounts(s.threads[job], newRun);
  }

  lemma RegisterMaps(s: State, job: Job, newRun: RunId)
    requires MapsOk(s) && job in s.threads && s.threads[job].phase.Registering? && newRun !in s.owner
    ensures MapsOk(Register(s, job, newRun))
  {
    var s' := Register(s, job, newRun);
    var t, t' := s.threads[job], s'.threads[job];
    forall r | r in s'.runJobs && s'.runJobs[r] == job ensures r in t'.runs {
      if r == newRun {
        assert t'.runs[|t.runs|] == r;
      } else {
        assert r in t.runs;
      }
    }
  }

  lemma RegisterOthers(s: State, job: Job, newRun: RunId)
    requires Inv(s) && job in s.threads && s.threads[job].phase.Registering? && newRun !in s.owner
    ensures OthersKept(s, Register(s, job, newRun), job)
  {
    RegisterElsewhere(s, job, newRun);
    OthersEvolve(s, Register(s, job, newRun), job);
  }

  lemma RegisterElsewhere(s: State, job: Job, newRun: RunId)
    requires job in s.threads && newRun !in s.owner
    ensures Elsewhere(s, Register(s, job, newRun), job)
  {
  }

  lemma RegisterStep(s: State, job: Job, newRun: RunId)
    requires Inv(s) && job in s.threads && s.threads[job].phase.Registering? && newRun !in s.owner
    ensures Inv(Register(s, job, newRun))
  {
    var s' := Register(s, job, newRun);
    RegisterThread(s, job, newRun);
    RegisterMaps(s, job, newRun);
    RegisterOthers(s, job, newRun);
    OwnersGrow(s, s');
    Assembled(s, s', job);
  }

  lemma ForgetDone(s: State, job: Job)
    requires Inv(s) && job in s.threads && s.threads[job].phase.Forgetting?
    ensures var s' := Forget(s, job); DoneOk(s', s'.log[|s.log|])
  {
    var s' := Forget(s, job);
    var t := s.threads[job];
    assert ThreadOk(s, job);
    forall i | 0 <= i < |t.runs|
      ensures i > 0 ==> t.runs[i] !in s.pending
      ensures Kept(s.records, t.runs[i], i == 0 && t.gaveUp, if i < |t.runs| - 1 then Failure else t.status)
    {
      assert RunOk(s.records, s.pending, t, i);
    }
  }

  lemma ForgetMaps(s: State, job: Job)
    requires Inv(s) && job in s.threads && s.threads[job].phase.Forgetting?
    ensures MapsOk(Forget(s, job))
  {
    assert ThreadOk(s, job);
  }

  lemma ForgetOthers(s: State, job: Job)
    requires Inv(s) && job in s.threads && s.threads[job].phase.Forgetting?
    ensures OthersKept(s, Forget(s, job), job)
  {
    ForgetElsewhere(s, job);
    OthersEvolve(s, Forget(s, job), job);
  }

  lemma ForgetElsewhere(s: State, job: Job)
    requires MapsOk(s) && job in s.threads
    ensures Elsewhere(s, Forget(s, job), job)
  {
  }

  lemma ForgetStep(s: State, job: Job)
    requires Inv(s) && job in s.threads && s.threads[job].phase.Forgetting?
    ensures Inv(Forget(s, job))
  {
    var s' := Forget(s, job);
    ForgetMaps(s, job);
    ForgetDone(s, job);
    ForgetOthers(s, job);
    OwnersGrow(s, s');
    forall k | 0 <= k < |s'.log| ensures DoneOk(s', s'.log[k]) {
      if k < |s.log| {
        assert DoneOk(s', s.log[k]);
      }
    }
  }

  lemma MoveKeepsInv(s: State, job: Job, code: int, newRun: RunId)
    requires Inv(s) && Enabled(s, Advance(job, code, newRun))
    ensures Inv(Move(s, job, code, newRun))
  {
    assert ThreadOk(s, job);
    match s.threads[job].phase
    case Closing => FinishStep(s, job, Registering);
    case Registering => RegisterStep(s, job, newRun);
    case Beginning => BeginStep(s, job);
    case Finishing => FinishStep(s, job, Forgetting);
    case Forgetting => ForgetStep(s, job);
    case _ => LocalStep(s, job, code, newRun);
  }

  lemma StepKeepsInv(s: State, step: Step)
    requires Inv(s) && Enabled(s, step)
    ensures Inv(Apply(s, step))
  {
    match step
    case Dispatch(_, _, _, _) => DispatchKeepsInv(s, step);
    case Advance(job, code, newRun) => MoveKeepsInv(s, job, code, newRun);
    case Commit(_) => CommitKeepsInv(s, step);
    case Rollback(_) => CommitKeepsInv(s, step);
    case Write(_, _) => WriteKeepsInv(s, step);
    case Kill(_) => WriteKeepsInv(s, step);
    case Arrive(_) => LineKeepsInv(s, step);
    case Store(_) => LineKeepsInv(s, step);
  }

  lemma {:induction false} ReachableInv(states: seq<State>, steps: seq<Step>, i: nat)
    requires IsRun(states, steps) && i < |states|
    ensures Inv(states[i])
  {
    if i > 0 {
      ReachableInv(states, steps, i - 1);
      assert Taken(states, steps, i - 1);
      StepKeepsInv(states[i - 1], steps[i - 1]);
    }
  }

  // ----- what follows for every run of the system

  /** At every moment: an entry in `_active` names a run that `_run_jobs` maps to the
      same job, the current one of that job's live thread, so KILLJOB signals the
      right process; while the process runs the entry is there; and a job without a
      live thread is in neither map. */
  lemma MapsAgree(states: seq<State>, steps: seq<Step>, i: nat, job: Job)
    requires IsRun(states, steps) && i < |states|
    ensures var s := states[i];
      && (job in s.active ==> s.active[job] in s.runJobs && s.runJobs[s.active[job]] == job)
      && (job in s.active ==> job in s.threads && s.active[job] == Current(s.threads[job]))
      && (job in s.threads && s.threads[job].phase.Executing? ==> job in s.active)
      && (job !in s.threads ==> job !in s.active && job !in s.runJobs.Values)
  {
    ReachableInv(states, steps, i);
    var s := states[i];
    if job in s.threads {
      assert ThreadOk(s, job);
    }
  }

  /** In every run a KILLJOB that looks into `_active` finds the run its job's thread is
      on, and finds none exactly between the end of a process and the next registration. */
  lemma ActiveIsCurrent(states: seq<State>, steps: seq<Step>, i: nat)
    requires IsRun(states, steps) && i < |states|
    ensures ActiveOk(states[i])
  {
    ReachableInv(states, steps, i);
    var s := states[i];
    forall j ensures j in s.active <==> j in s.threads && InActive(s.threads[j].phase) {
      assert j in s.threads ==> ThreadOk(s, j);
    }
    forall j | j in s.active ensures s.active[j] == Current(s.threads[j]) {
      assert ThreadOk(s, j);
    }
  }

  /** Every stored line is filed under the job of its run if it arrived while that
      job's thread was alive, however many attempts ago the run was; a later one is
      filed under "unknown", never under another job. */
  lemma LinesAreFiledRight(states: seq<State>, steps: seq<Step>, i: nat, k: nat)
    requires IsRun(states, steps) && i < |states| && k < |states[i].output|
    ensures var s, l := states[i], states[i].output[k];
      l.run in s.owner && l.name == if l.early then s.owner[l.run] else "unknown"
  {
    ReachableInv(states, steps, i);
    assert LineOk(states[i].owner, states[i].output[k]);
  }

  /** The records of a finished thread: FAILURE for every run but the last, at most
      `nRetrys` retries, a final FAILURE only after all of them, and TERMINATED if a
      kill was seen.  Only the first run can lack its result, when the finish gave up
      on an uncommitted dispatch. */
  lemma RecordsOfAFinishedJob(states: seq<State>, steps: seq<Step>, i: nat, k: nat, m: nat)
    requires IsRun(states, steps) && i < |states| && k < |states[i].log| && m < |states[i].log[k].runs|
    ensures var s, d := states[i], states[i].log[k];
      && |d.runs| == d.retries + 1 && d.retries <= Max0(d.nRetrys)
      && (d.status == Success || d.status == Terminated || (d.status == Failure && d.retries == Max0(d.nRetrys)))
      && (d.wasKilled ==> d.status == Terminated)
      && (m == 0 && d.gaveUp ==> d.runs[m] in s.records ==> s.records[d.runs[m]].status == Running)
      && (m > 0 || !d.gaveUp ==>
            d.runs[m] in s.records && s.records[d.runs[m]].job == d.job &&
            s.records[d.runs[m]].status == if m < |d.runs| - 1 then Failure else d.status)
  {
    ReachableInv(states, steps, i);
    var s, d := states[i], states[i].log[k];
    assert DoneOk(s, d);
    assert Kept(s.records, d.runs[m], m == 0 && d.gaveUp, if m < |d.runs| - 1 then Failure else d.status);
  }
}
