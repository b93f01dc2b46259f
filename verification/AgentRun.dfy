/** The agent's run protocol: job threads with retries against concurrent KILLJOBs,
    over two locked maps and one database transaction per step
    (autosys/agent/dispatch.py, class `AgentDispatch`). */
module AgentRun {
  import opened Options

  type Job = string

  /** A run id (a fresh UUID in the source). */
  type RunId = nat

  type RunIds = ids: seq<RunId> | ids != [] witness [0]

  /** `Other` stands for every status this protocol never writes or tests. */
  datatype Status = Running | Success | Failure | Terminated | Restart | Other

  const FINISH_RETRY_ATTEMPTS: nat := 5

  /** `exit_code <= threshold`, also for -1, the code of a watchdog kill and of a
      runner that raised. */
  function ExitStatus(code: int, maxExitSuccess: Option<int>): Status {
    var threshold := if maxExitSuccess.Some? then maxExitSuccess.value else 0;
    if code <= threshold then Success else Failure
  }

  /** The docstring says that without a threshold only exit code 0 is a success;
      that is so exactly for the codes that are not negative. */
  lemma OnlyZeroSucceedsIff(code: int, maxExitSuccess: int)
    ensures (ExitStatus(code, None) == Success <==> code == 0) <==> code >= 0
    ensures ExitStatus(-1, None) == Success
    ensures ExitStatus(code, Some(maxExitSuccess)) == Success <==> code <= maxExitSuccess
  {
  }

  /** The code is at most the job's `max_exit_success`, or 0 without one. */
  predicate Within(code: int, maxExitSuccess: Option<int>) {
    code <= (match maxExitSuccess case Some(max) => max case None => 0)
  }

  /** What a status says about the exit code; TERMINATED says nothing. */
  ghost predicate Fits(status: Status, code: int, maxExitSuccess: Option<int>) {
    (status == Success ==> Within(code, maxExitSuccess)) && (status == Failure ==> !Within(code, maxExitSuccess))
  }

  /** Where a job thread stands: the transaction or lock section it does next. */
  datatype Phase =
    | Waiting      // wait until the run record is committed, five seconds at most
    | Executing    // `runner.run()`
    | Popping      // lock: drop the entry in `_active`
    | Checking     // transaction: look for a TERMINATED, decide on a retry
    | Restarting   // transaction: RESTART
    | Closing      // transactions: finish the failed run, five tries
    | Registering  // lock: a new run id enters both maps
    | Beginning    // transaction: RUNNING and a new run record
    | Settling     // transaction: the final status unless TERMINATED
    | Finishing    // transactions: finish the last run, five tries
    | Forgetting   // lock: drop the job from `_run_jobs`

  /** The local variables of one `_run_job` call; `runs` lists the run ids it has
      used, the current one last. */
  datatype Thread = Thread(phase: Phase, runs: RunIds, retries: nat, nRetrys: int, maxExitSuccess: Option<int>,
                           exit: int, status: Status, wasKilled: bool, tries: nat, gaveUp: bool)

  datatype Record = Record(job: Job, status: Status, exitCode: Option<int>)

  /** An output line on its way to the database: the run it belongs to, the job name
      found for it, and (history only) whether the run's thread was still alive when
      the line arrived. */
  datatype Line = Line(run: RunId, name: Job, early: bool)

  /** What a finished thread leaves behind (history only). */
  datatype Done = Done(job: Job, runs: RunIds, retries: nat, nRetrys: int, maxExitSuccess: Option<int>,
                       status: Status, wasKilled: bool, gaveUp: bool)

  /** The shared state, and the history variables `owner`, `codes` (what the processes
      that ended returned) and `log`.  `pending` are the run records of dispatches that
      are not committed yet. */
  datatype State = State(
    active: map<Job, RunId>, runJobs: map<RunId, Job>,
    rows: map<Job, Status>, records: map<RunId, Record>, pending: map<RunId, Job>,
    threads: map<Job, Thread>, arrived: seq<Line>, output: seq<Line>,
    owner: map<RunId, Job>, codes: map<RunId, int>, log: seq<Done>)

  datatype Step =
    | Dispatch(job: Job, run: RunId, nRetrys: int, maxExitSuccess: Option<int>)
    | Commit(run: RunId)
    | Rollback(run: RunId)
    | Write(job: Job, status: Option<Status>)  // any other transaction on the job's row
    | Kill(job: Job)                           // KILLJOB
    | Advance(job: Job, code: int, newRun: RunId)
    | Arrive(run: RunId)
    | Store(k: nat)

  /** A job is dispatched only while it has no live thread.  KILLJOB acts on a RUNNING
      job only (the one status with a transition to TERMINATED).  The transaction of a
      dispatch whose job row has been deleted can only roll back. */
  predicate Enabled(s: State, step: Step) {
    match step
    case Dispatch(job, run, _, _) => job !in s.threads && run !in s.owner && job in s.rows
    case Commit(run) => run in s.pending && s.pending[run] in s.rows
    case Rollback(run) => run in s.pending
    case Write(_, _) => true
    case Kill(job) => job in s.rows && s.rows[job] == Running
    case Advance(job, _, newRun) => job in s.threads && (s.threads[job].phase.Registering? ==> newRun !in s.owner)
    case Arrive(run) => run in s.owner
    case Store(k) => k < |s.arrived|
  }

  /** A write to a row that may have been deleted. */
  function SetRow(rows: map<Job, Status>, job: Job, status: Status): map<Job, Status> {
    if job in rows then rows[job := status] else rows
  }

  function Current(t: Thread): RunId {
    t.runs[|t.runs| - 1]
  }

  /** `_run_jobs` after the last lock section of the job's thread. */
  function Forgotten(runJobs: map<RunId, Job>, job: Job): map<RunId, Job> {
    map r | r in runJobs && runJobs[r] != job :: runJobs[r]
  }

  /** `_run_jobs.get(run_id) or "unknown"` */
  function NameFor(runJobs: map<RunId, Job>, run: RunId): Job {
    if run in runJobs then runJobs[run] else "unknown"
  }

  predicate IsEarly(s: State, run: RunId) {
    run in s.owner && s.owner[run] in s.threads && run in s.threads[s.owner[run]].runs
  }

  function Apply(s: State, step: Step): State
    requires Enabled(s, step)
  {
    match step
    case Dispatch(job, run, n, max) =>
      s.(active := s.active[job := run], runJobs := s.runJobs[run := job], owner := s.owner[run := job],
         pending := s.pending[run := job],
         threads := s.threads[job := Thread(Waiting, [run], 0, n, max, 0, Running, false, 0, false)])
    case Commit(run) =>
      var job := s.pending[run];
      s.(pending := s.pending - {run}, records := s.records[run := Record(job, Running, None)],
          rows := s.rows[job := Running])
    case Rollback(run) => s.(pending := s.pending - {run})
    case Write(job, status) => s.(rows := if status.Some? then s.rows[job := status.value] else s.rows - {job})
    case Kill(job) => s.(rows := s.rows[job := Terminated])
    case Advance(job, code, newRun) => Move(s, job, code, newRun)
    case Arrive(run) => s.(arrived := s.arrived + [Line(run, NameFor(s.runJobs, run), IsEarly(s, run))])
    case Store(k) => s.(arrived := s.arrived[..k] + s.arrived[k + 1..], output := s.output + [s.arrived[k]])
  }

  /** The check for a KILLJOB while the process ran, and the decision to retry. */
  function Checked(t: Thread, terminated: bool): Thread {
    var status := if terminated then Terminated else t.status;
    var killed := t.wasKilled || terminated;
    if status == Failure && !killed && t.retries < t.nRetrys
    then t.(phase := Restarting, retries := t.retries + 1)
    else t.(phase := Settling, status := status, wasKilled := killed)
  }

  /** One try at finishing the current run. */
  function Tried(t: Thread, visible: bool, next: Phase): Thread {
    if visible then t.(phase := next, tries := 0)
    else if t.tries + 1 >= FINISH_RETRY_ATTEMPTS then t.(phase := next, tries := 0, gaveUp := true)
    else t.(tries := t.tries + 1)
  }

  function Finished(records: map<RunId, Record>, run: RunId, status: Status, code: int): map<RunId, Record> {
    if run in records then records[run := records[run].(status := status, exitCode := Some(code))] else records
  }

  /** One step of the thread of `job`; `code` is the exit code of the process and
      `newRun` the new run id where the step needs one. */
  function Move(s: State, job: Job, code: int, newRun: RunId): State
    requires job in s.threads
  {
    match s.threads[job].phase
    case Waiting => Start(s, job)
    case Executing => Exit(s, job, code)
    case Popping => Pop(s, job)
    case Checking => Check(s, job)
    case Restarting => MarkRestart(s, job)
    case Closing => Finish(s, job, Failure, Registering)
    case Registering => Register(s, job, newRun)
    case Beginning => Begin(s, job)
    case Settling => Settle(s, job)
    case Finishing => Finish(s, job, s.threads[job].status, Forgetting)
    case Forgetting => Forget(s, job)
  }

  function Start(s: State, job: Job): State
    requires job in s.threads
  {
    s.(threads := s.threads[job := s.threads[job].(phase := Executing)])
  }

  function Exit(s: State, job: Job, code: int): State
    requires job in s.threads
  {
    var t := s.threads[job];
    s.(codes := s.codes[Current(t) := code], threads := s.threads[job := t.(phase := Popping, exit := code)])
  }

  function Pop(s: State, job: Job): State
    requires job in s.threads
  {
    var t := s.threads[job];
    s.(active := s.active - {job},
       threads := s.threads[job := t.(phase := Checking, status := ExitStatus(t.exit, t.maxExitSuccess))])
  }

  function Check(s: State, job: Job): State
    requires job in s.threads
  {
    s.(threads := s.threads[job := Checked(s.threads[job], job in s.rows && s.rows[job] == Terminated)])
  }

  function MarkRestart(s: State, job: Job): State
    requires job in s.threads
  {
    s.(rows := SetRow(s.rows, job, Restart), threads := s.threads[job := s.threads[job].(phase := Closing)])
  }

  function Finish(s: State, job: Job, status: Status, next: Phase): State
    requires job in s.threads
  {
    var t := s.threads[job];
    s.(records := Finished(s.records, Current(t), status, t.exit),
       threads := s.threads[job := Tried(t, Current(t) in s.records, next)])
  }

  function Register(s: State, job: Job, newRun: RunId): State
    requires job in s.threads
  {
    var t := s.threads[job];
    s.(active := s.active[job := newRun], runJobs := s.runJobs[newRun := job], owner := s.owner[newRun := job],
       threads := s.threads[job := t.(phase := Beginning, runs := t.runs + [newRun])])
  }

  function Begin(s: State, job: Job): State
    requires job in s.threads
  {
    var t := s.threads[job];
    s.(rows := SetRow(s.rows, job, Running), records := s.records[Current(t) := Record(job, Running, None)],
       threads := s.threads[job := t.(phase := Executing)])
  }

  function Settle(s: State, job: Job): State
    requires job in s.threads
  {
    var terminated := job in s.rows && s.rows[job] == Terminated;
    var status := if terminated then Terminated else s.threads[job].status;
    s.(rows := if terminated then s.rows else SetRow(s.rows, job, status),
       threads := s.threads[job := s.threads[job].(phase := Finishing, status := status)])
  }

  function Forget(s: State, job: Job): State
    requires job in s.threads
  {
    var t := s.threads[job];
    s.(runJobs := Forgotten(s.runJobs, job), threads := s.threads - {job},
       log := s.log + [Done(job, t.runs, t.retries, t.nRetrys, t.maxExitSuccess, t.status, t.wasKilled, t.gaveUp)])
  }

  /** The phases in which a thread's run is in `_active`. */
  predicate InActive(p: Phase) {
    p.Waiting? || p.Executing? || p.Popping? || p.Beginning?
  }

  /** `_active` names the current run of exactly the threads in those phases (true in
      every run: `AgentInvariant.ActiveIsCurrent`). */
  ghost predicate ActiveOk(s: State) {
    && (forall j :: j in s.active <==> j in s.threads && InActive(s.threads[j].phase))
    && (forall j :: j in s.active ==> s.active[j] == Current(s.threads[j]))
  }

  ghost predicate Init(s: State) {
    s == State(map[], map[], s.rows, map[], map[], map[], [], [], map[], map[], [])
  }

  /** A run of the system: `states[i + 1]` comes from `states[i]` by `steps[i]`. */
  ghost predicate IsRun(states: seq<State>, steps: seq<Step>) {
    && |states| == |steps| + 1 && Init(states[0])
    && forall i :: 0 <= i < |steps| ==> Taken(states, steps, i)
  }

  ghost predicate Taken(states: seq<State>, steps: seq<Step>, i: int)
    requires |states| == |steps| + 1 && 0 <= i < |steps|
  {
    Enabled(states[i], steps[i]) && states[i + 1] == Apply(states[i], steps[i])
  }

  /** The dispatcher object: the two maps its threads share under one lock.  Each
      method is one lock section. */
  class AgentDispatch {
    var active: map<Job, RunId>
    var runJobs: map<RunId, Job>

    constructor ()
      ensures active == map[] && runJobs == map[]
    {
      active, runJobs := map[], map[];
    }

    /** The object holds the maps of state `s`. */
    ghost predicate Holds(s: State)
      reads this
    {
      active == s.active && runJobs == s.runJobs
    }

    /** At dispatch. */
    method Enter(job: Job, run: RunId, ghost s: State, ghost step: Step)
      requires Holds(s) && step.Dispatch? && step.job == job && step.run == run && Enabled(s, step)
      modifies this
      ensures Holds(Apply(s, step))
    {
      active, runJobs := active[job := run], runJobs[run := job];
    }

    /** Before another attempt. */
    method Reenter(job: Job, run: RunId, ghost s: State)
      requires Holds(s) && job in s.threads
      modifies this
      ensures Holds(Register(s, job, run))
    {
      active, runJobs := active[job := run], runJobs[run := job];
    }

    /** When the process is gone. */
    method Drop(job: Job, ghost s: State)
      requires Holds(s) && job in s.threads
      modifies this
      ensures Holds(Pop(s, job))
    {
      if job in active {
        active := active - {job};
      }
    }

    /** The run KILLJOB signals: the one the job's thread is on; none if there is no
        thread or it has dropped one run and not registered the next. */
    method Find(job: Job, ghost s: State) returns (run: Option<RunId>)
      requires Holds(s) && ActiveOk(s)
      ensures run.Some? <==> job in s.threads && InActive(s.threads[job].phase)
      ensures run.Some? ==> run.value == Current(s.threads[job])
    {
      run := if job in active then Some(active[job]) else None;
    }

    /** The job an output line is filed under. */
    method Name(run: RunId, ghost s: State) returns (name: Job)
      requires Holds(s)
      ensures name == NameFor(s.runJobs, run)
    {
      if run in runJobs {
        return runJobs[run];
      }
      return "unknown";
    }

    /** At the end of the thread: collect the job's run ids, then drop them one by one. */
    method Leave(job: Job, ghost s: State)
      requires Holds(s) && job in s.threads
      modifies this
      ensures Holds(Forget(s, job))
    {
      var mine := set r | r in runJobs && runJobs[r] == job;
      while mine != {}
        invariant active == s.active && runJobs.Keys <= s.runJobs.Keys
        invariant forall r :: r in runJobs ==> runJobs[r] == s.runJobs[r]
        invariant forall r :: r in mine ==> r in s.runJobs && s.runJobs[r] == job
        invariant forall r :: r in s.runJobs ==> r in mine || (r in runJobs <==> s.runJobs[r] != job)
        decreases |mine|
      {
        var r :| r in mine;
        runJobs, mine := runJobs - {r}, mine - {r};
      }
    }
  }
}
