/** The remote agent's run protocol: one attempt, and one transaction that settles the
    job and its run record together (autosys/agent/server.py). */
module AgentServer {
  import opened AgentRun
  import opened Options

  /** What the dispatch, and then the job thread of the server, does next. */
  datatype Stage =
    | Entering   // lock: the job enters `_active`
    | Launching  // start the job thread
    | Working    // `runner.run()`
    | Leaving    // lock: drop the entry in `_active`
    | Recording  // one transaction: the job's row and the run record

  datatype Worker = Worker(stage: Stage, run: RunId, maxExitSuccess: Option<int>, exit: int)

  /** A finished thread (history only). */
  datatype Ended = Ended(job: Job, run: RunId, maxExitSuccess: Option<int>, status: Status)

  /** `codes` (what the processes that ended returned) and `log` are history variables. */
  datatype Server = Server(active: map<Job, RunId>, rows: map<Job, Status>, records: map<RunId, Record>,
                           workers: map<Job, Worker>, codes: map<RunId, int>, log: seq<Ended>)

  datatype Event =
    | Accept(job: Job, run: RunId, maxExitSuccess: Option<int>)  // DISPATCH: one transaction, the run record
    | Change(job: Job, status: Option<Status>)                   // any other transaction on the job's row
    | KillJob(job: Job)
    | Go(job: Job, code: int)                                    // the next step of a dispatch or its thread

  /** Run ids are fresh, and a job has one live thread. */
  predicate Allowed(s: Server, e: Event) {
    match e
    case Accept(job, run, _) => job !in s.workers && run !in s.records
    case Change(_, _) => true
    case KillJob(job) => job in s.rows && s.rows[job] == Running
    case Go(job, _) => job in s.workers
  }

  /** The status the last transaction settles on. */
  function FinalStatus(s: Server, job: Job, w: Worker): Status {
    if job in s.rows && s.rows[job] == Terminated then Terminated else ExitStatus(w.exit, w.maxExitSuccess)
  }

  function Next(s: Server, e: Event): Server
    requires Allowed(s, e)
  {
    match e
    case Accept(job, run, max) =>
      s.(records := s.records[run := Record(job, Running, None)], workers := s.workers[job := Worker(Entering, run,
          max, 0)])
    case Change(job, status) => s.(rows := if status.Some? then s.rows[job := status.value] else s.rows - {job})
    case KillJob(job) => s.(rows := s.rows[job := Terminated])
    case Go(job, code) =>
      var w := s.workers[job];
      match w.stage
      case Entering =>
        s.(active := s.active[job := w.run], workers := s.workers[job := w.(stage := Launching)])
      case Launching => s.(workers := s.workers[job := w.(stage := Working)])
      case Working =>
        s.(codes := s.codes[w.run := code], workers := s.workers[job := w.(stage := Leaving, exit := code)])
      case Leaving => s.(active := s.active - {job}, workers := s.workers[job := w.(stage := Recording)])
      case Recording =>
        var status := FinalStatus(s, job, w);
        s.(rows := SetRow(s.rows, job, status), records := Finished(s.records, w.run, status, w.exit),
           workers := s.workers - {job}, log := s.log + [Ended(job, w.run, w.maxExitSuccess, status)])
  }

  ghost predicate IsTrace(states: seq<Server>, events: seq<Event>) {
    && |states| == |events| + 1 && states[0] == Server(map[], states[0].rows, map[], map[], map[], [])
    && forall i :: 0 <= i < |events| ==> Happens(states, events, i)
  }

  ghost predicate Happens(states: seq<Server>, events: seq<Event>, i: int)
    requires |states| == |events| + 1 && 0 <= i < |events|
  {
    Allowed(states[i], events[i]) && states[i + 1] == Next(states[i], events[i])
  }

  /** The stages in which `_active` has the job. */
  predicate Active(stage: Stage) {
    !stage.Entering? && !stage.Recording?
  }

  ghost predicate ServerOk(s: Server) {
    && (forall j :: j in s.active <==> j in s.workers && Active(s.workers[j].stage))
    && (forall j :: j in s.active ==> s.active[j] == s.workers[j].run)
    && (forall j :: j in s.workers ==> WorkerOk(s, j, s.workers[j]))
    && (forall k :: 0 <= k < |s.log| ==> EndedOk(s, s.log[k]))
  }

  ghost predicate WorkerOk(s: Server, job: Job, w: Worker) {
    && w.run in s.records && s.records[w.run] == Record(job, Running, None)
    && (w.stage.Leaving? || w.stage.Recording? ==> w.run in s.codes && s.codes[w.run] == w.exit)
  }

  ghost predicate EndedOk(s: Server, d: Ended) {
    && d.run in s.records && d.run in s.codes && s.records[d.run] == Record(d.job, d.status, Some(s.codes[d.run]))
    && (d.status == Success || d.status == Failure || d.status == Terminated)
    && Fits(d.status, s.codes[d.run], d.maxExitSuccess)
  }

  lemma AcceptKeepsOk(s: Server, e: Event)
    requires ServerOk(s) && Allowed(s, e) && !e.Go?
    ensures ServerOk(Next(s, e))
  {
    forall j | j in Next(s, e).workers ensures WorkerOk(Next(s, e), j, Next(s, e).workers[j]) {
      assert j in s.workers ==> WorkerOk(s, j, s.workers[j]);
    }
    forall k | 0 <= k < |s.log| ensures EndedOk(Next(s, e), s.log[k]) {
      assert EndedOk(s, s.log[k]);
    }
  }

  /** A stage that neither accepts nor finishes a run. */
  lemma StageKeepsOk(s: Server, s': Server, job: Job)
    requires ServerOk(s) && job in s.workers && job in s'.workers && s'.workers == s.workers[job := s'.workers[job]]
    requires s' == s.(active := s'.active, workers := s'.workers, codes := s'.codes)
    requires s'.workers[job].run == s.workers[job].run && WorkerOk(s', job, s'.workers[job])
    requires forall r :: r in s.records && r != s.workers[job].run ==>
               (r in s.codes <==> r in s'.codes) && (r in s.codes ==> s'.codes[r] == s.codes[r])
    requires forall j :: j in s'.active <==> j in s'.workers && Active(s'.workers[j].stage)
    requires forall j :: j in s'.active ==> s'.active[j] == s'.workers[j].run
    ensures ServerOk(s')
  {
    assert WorkerOk(s, job, s.workers[job]);
    forall j | j in s'.workers ensures WorkerOk(s', j, s'.workers[j]) {
      assert WorkerOk(s, j, s.workers[j]);
    }
    forall k | 0 <= k < |s.log| ensures EndedOk(s', s.log[k]) {
      assert EndedOk(s, s.log[k]);
    }
  }

  lemma GoKeepsOk(s: Server, e: Event)
    requires ServerOk(s) && Allowed(s, e) && e.Go? && !s.workers[e.job].stage.Recording?
    ensures ServerOk(Next(s, e))
  {
    assert WorkerOk(s, e.job, s.workers[e.job]);
    StageKeepsOk(s, Next(s, e), e.job);
  }

  lemma RecordKeepsOk(s: Server, e: Event)
    requires ServerOk(s) && Allowed(s, e) && e.Go? && s.workers[e.job].stage.Recording?
    ensures ServerOk(Next(s, e))
  {
    var s' := Next(s, e);
    assert WorkerOk(s, e.job, s.workers[e.job]);
    forall j | j in s'.workers ensures WorkerOk(s', j, s'.workers[j]) {
      assert WorkerOk(s, j, s.workers[j]);
    }
    forall k | 0 <= k < |s'.log| ensures EndedOk(s', s'.log[k]) {
      if k < |s.log| {
        assert EndedOk(s, s.log[k]) && s'.log[k] == s.log[k];
      }
    }
  }

  lemma NextKeepsOk(s: Server, e: Event)
    requires ServerOk(s) && Allowed(s, e)
    ensures ServerOk(Next(s, e))
  {
    if !e.Go? {
      AcceptKeepsOk(s, e);
    } else if s.workers[e.job].stage.Recording? {
      RecordKeepsOk(s, e);
    } else {
      GoKeepsOk(s, e);
    }
  }

  lemma {:induction false} TraceOk(states: seq<Server>, events: seq<Event>, i: nat)
    requires IsTrace(states, events) && i < |states|
    ensures ServerOk(states[i])
  {
    if i > 0 {
      TraceOk(states, events, i - 1);
      assert Happens(states, events, i - 1);
      NextKeepsOk(states[i - 1], events[i - 1]);
    }
  }

  /** In every run of the server: KILL finds a runner exactly from the dispatch's lock
      section until the job's thread drops it, and it is that thread's own; and every finished run's record has
      the status its thread settled on, with no way to lose it. */
  lemma RecordsAreNeverLost(states: seq<Server>, events: seq<Event>, i: nat, job: Job, k: nat)
    requires IsTrace(states, events) && i < |states|
    ensures var s := states[i];
      && (job in s.active <==> job in s.workers && Active(s.workers[job].stage))
      && (job in s.active ==> s.active[job] == s.workers[job].run)
      && (k < |s.log| ==> s.log[k].run in s.records && s.records[s.log[k].run].job == s.log[k].job
                          && s.records[s.log[k].run].status == s.log[k].status)
  {
    TraceOk(states, events, i);
    assert k < |states[i].log| ==> EndedOk(states[i], states[i].log[k]);
  }

  /** A finished run's record carries the code its process returned, and the job ends in
      SUCCESS or FAILURE as that is at most the job's `max_exit_success` (0 without one)
      or above it. */
  lemma CodesOfAFinishedRun(states: seq<Server>, events: seq<Event>, i: nat, k: nat)
    requires IsTrace(states, events) && i < |states| && k < |states[i].log|
    ensures var s, d := states[i], states[i].log[k];
      var max := match d.maxExitSuccess case Some(n) => n case None => 0;
      && d.run in s.codes && d.run in s.records && s.records[d.run].exitCode == Some(s.codes[d.run])
      && (d.status != Terminated ==> (d.status == Success <==> s.codes[d.run] <= max))
      && (d.status != Terminated ==> (d.status == Failure <==> s.codes[d.run] > max))
  {
    TraceOk(states, events, i);
    assert EndedOk(states[i], states[i].log[k]);
  }

  /** The last transaction of the thread that `d` tells of. */
  ghost predicate Ends(s: Server, e: Event, s': Server, d: Ended) {
    && e.Go? && e.job == d.job && d.job in s.workers && s.workers[d.job].stage.Recording?
    && s.workers[d.job].run == d.run && d.job !in s'.workers
    && (d.status == Terminated <==> d.job in s.rows && s.rows[d.job] == Terminated)
    && (d.job in s.rows ==> d.job in s'.rows && s'.rows[d.job] == d.status)
  }

  /** Every finished thread ended in one transaction, at step `j`: with TERMINATED exactly
      if its job's row read so there, and with the row, if there is one, and the run record
      on the same status. */
  lemma {:induction false} EndsInOneTransaction(states: seq<Server>, events: seq<Event>, i: nat, k: nat) returns (j: nat)
    requires IsTrace(states, events) && i < |states| && k < |states[i].log|
    ensures j < i && Ends(states[j], events[j], states[j + 1], states[i].log[k])
    ensures var d := states[i].log[k];
      d.run in states[j + 1].records && states[j + 1].records[d.run].status == d.status
  {
    assert Happens(states, events, i - 1);
    j := i - 1;
    LogComesFrom(states[j], events[j], k);
    if k < |states[j].log| {
      j := EndsInOneTransaction(states, events, j, k);
    } else {
      TraceOk(states, events, i);
      assert EndedOk(states[i], states[i].log[k]);
    }
  }

  lemma LogComesFrom(s: Server, e: Event, k: nat)
    requires Allowed(s, e) && k < |Next(s, e).log|
    ensures var s' := Next(s, e);
      if k < |s.log| then s'.log[k] == s.log[k] else Ends(s, e, s', s'.log[k])
  {
  }

  /** Whatever a process returns is the code of its run for good. */
  lemma {:induction false} CodesAreReturned(states: seq<Server>, events: seq<Event>, k: nat, i: nat, job: Job, code: int)
    requires IsTrace(states, events) && k < i < |states| && events[k] == Go(job, code)
    requires job in states[k].workers && states[k].workers[job].stage.Working?
    ensures var run := states[k].workers[job].run; run in states[i].codes && states[i].codes[run] == code
    ensures Returned(states[i], states[k].workers[job].run)
  {
    assert Happens(states, events, i - 1);
    TraceOk(states, events, i - 1);
    if i > k + 1 {
      CodesAreReturned(states, events, k, i - 1, job, code);
      ReturnedStays(states[i - 1], events[i - 1], states[k].workers[job].run);
    } else {
      assert WorkerOk(states[k], job, states[k].workers[job]);
      assert forall j :: j in states[k].workers && j != job ==> WorkerOk(states[k], j, states[k].workers[j]);
    }
  }

  /** The process of `run` is gone. */
  ghost predicate Returned(s: Server, run: RunId) {
    && run in s.codes && run in s.records
    && forall j :: j in s.workers && s.workers[j].run == run ==>
        s.workers[j].stage.Leaving? || s.workers[j].stage.Recording?
  }

  lemma ReturnedStays(s: Server, e: Event, run: RunId)
    requires Allowed(s, e) && Returned(s, run)
    ensures Returned(Next(s, e), run) && Next(s, e).codes[run] == s.codes[run]
  {
  }

  predicate Untouched(e: Event, job: Job) {
    match e
    case Accept(j, _, _) => j != job
    case Change(j, _) => j != job
    case KillJob(j) => j != job
    case Go(_, _) => true
  }

  ghost predicate StaysKilled(s: Server, job: Job) {
    && job in s.rows && s.rows[job] == Terminated
    && (job !in s.workers ==> exists k :: 0 <= k < |s.log| && s.log[k].job == job && s.log[k].status == Terminated)
  }

  lemma StaysKilledStep(s: Server, e: Event, job: Job)
    requires StaysKilled(s, job) && Allowed(s, e) && Untouched(e, job)
    ensures StaysKilled(Next(s, e), job)
  {
    var s' := Next(s, e);
    if job !in s.workers {
      var k :| 0 <= k < |s.log| && s.log[k].job == job && s.log[k].status == Terminated;
      assert s'.log[k] == s.log[k];
    } else if e.Go? && e.job == job && s.workers[job].stage.Recording? {
      assert s'.log[|s.log|].status == Terminated;
    }
  }

  /** A kill of a job whose dispatch or thread is live is never lost here, whenever it
      comes, nor is one that read RUNNING earlier and writes TERMINATED only now: without
      another writer of the row, the job and its run record both end TERMINATED.  The
      local dispatcher loses it in its retry window (`AgentKill.KillIsKeptIff`). */
  lemma {:induction false} KillIsAlwaysKept(states: seq<Server>, events: seq<Event>, k: nat, i: nat, job: Job)
    requires IsTrace(states, events) && k < i < |states| && job in states[k].workers
    requires events[k] == KillJob(job) || events[k] == Change(job, Some(Terminated))
    requires forall m :: k < m < |events| ==> Untouched(events[m], job)
    ensures job in states[i].rows && states[i].rows[job] == Terminated
    ensures job !in states[i].workers ==>
        exists m :: 0 <= m < |states[i].log| && states[i].log[m].job == job && states[i].log[m].status == Terminated
    ensures StaysKilled(states[i], job)
  {
    assert Happens(states, events, i - 1);
    if i > k + 1 {
      KillIsAlwaysKept(states, events, k, i - 1, job);
      StaysKilledStep(states[i - 1], events[i - 1], job);
    }
  }
}
