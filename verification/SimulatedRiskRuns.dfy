/** When a request starts a simulation of its own, and runs in which two simulations of
    one key go on at once or statistics are shared across calendars
    (autosys/analysis/simulated_risk.py). */
module SimulatedRiskRuns {
  import opened Options
  import opened SimulatedRisk
  import opened SimulatedRiskSafety
  import opened SnapshotKey

  // ------------------------------------------------------------------
  // A whole lock section
  // ------------------------------------------------------------------

  /** Caller `c` holds the lock from its look-up at step `i` until it gives it back at
      step `u`. */
  ghost predicate Section(states: seq<State>, steps: seq<Step>, i: nat, u: nat, c: Caller) {
    && IsRun(states, steps) && i < u < |steps|
    && steps[i] == Act(c) && c in states[i].calls && states[i].calls[c].phase.Looking?
    && states[u + 1].lock == None
    && forall k :: i <= k <= u ==> states[k].lock == Some(c)
  }

  /** Nobody but the holder of the lock adds a state or gives the lock back. */
  lemma HolderDecides(states: seq<State>, steps: seq<Step>, k: nat, c: Caller)
    requires IsRun(states, steps) && k < |steps| && states[k].lock == Some(c)
    ensures c in states[k].calls && InLock(states[k].calls[c].phase)
    ensures HasSim(states[k].calls[c].phase) ==> states[k].calls[c].phase.sim < |states[k].heap|
    ensures |states[k + 1].heap|
         == |states[k].heap| + if steps[k] == Act(c) && states[k].calls[c].phase.Inserting? then 1 else 0
    ensures states[k + 1].lock == None ==> steps[k] == Act(c)
  {
    ReachableInv(states, steps, k);
    assert Taken(states, steps, k) && CallOk(states[k], c);
    var s, step := states[k], steps[k];
    if step.Work? {
      WorkShape(s, step.sim, step.result);
    }
    if step.Act? {
      assert CallOk(s, step.caller);
    }
    if states[k + 1].lock == None {
      OnlyHolderUnlocks(s, step, c);
    }
  }

  /** The next step of `c` in its section; until then nothing happens to its call or to
      the number of states. */
  lemma {:induction false} NextAct(states: seq<State>, steps: seq<Step>, i: nat, u: nat, c: Caller, k: nat)
    returns (a: nat)
    requires Section(states, steps, i, u, c) && i < k <= u
    ensures k <= a <= u && steps[a] == Act(c) && Taken(states, steps, a)
    ensures c in states[k].calls && c in states[a].calls && states[a].calls[c] == states[k].calls[c]
    ensures |states[a].heap| == |states[k].heap|
    ensures HasSim(states[a].calls[c].phase) ==> states[a].calls[c].phase.sim < |states[a].heap|
    ensures states[a].calls[c].phase.Inserting? ==> |states[a + 1].heap| == |states[a].heap| + 1
    decreases u - k
  {
    HolderDecides(states, steps, k, c);
    if steps[k] == Act(c) {
      assert Taken(states, steps, k);
      a := k;
    } else {
      NotItsStep(states, steps, k, c);
      a := NextAct(states, steps, i, u, c, k + 1);
    }
  }

  /** Somebody else's step leaves the holder's call and the number of states alone. */
  lemma NotItsStep(states: seq<State>, steps: seq<Step>, k: nat, c: Caller)
    requires IsRun(states, steps) && k < |steps| && states[k].lock == Some(c) && steps[k] != Act(c)
    ensures c in states[k].calls && c in states[k + 1].calls && states[k + 1].calls[c] == states[k].calls[c]
    ensures |states[k + 1].heap| == |states[k].heap| && states[k + 1].lock != None
  {
    HolderDecides(states, steps, k, c);
    assert Taken(states, steps, k);
    CallStays(states[k], steps[k], c);
  }

  lemma {:induction false} HeapNeverShrinks(states: seq<State>, steps: seq<Step>, i: nat, j: nat)
    requires IsRun(states, steps) && i <= j < |states|
    ensures |states[i].heap| <= |states[j].heap|
  {
    if i < j {
      HeapNeverShrinks(states, steps, i, j - 1);
      GrowsAt(states, steps, j - 1);
    }
  }

  lemma GrowsAt(states: seq<State>, steps: seq<Step>, k: nat)
    requires IsRun(states, steps) && k < |steps|
    ensures |states[k].heap| <= |states[k + 1].heap|
  {
    ReachableInv(states, steps, k);
    assert Taken(states, steps, k);
    StepGrows(states[k], steps[k]);
  }

  /** A section that comes to insert a state does so. */
  lemma InsertsLater(states: seq<State>, steps: seq<Step>, i: nat, u: nat, c: Caller, k: nat)
    requires Section(states, steps, i, u, c) && i < k <= u
    requires c in states[k].calls && states[k].calls[c].phase.Inserting?
    ensures |states[u + 1].heap| > |states[k].heap|
  {
    var d := InsertsAt(states, steps, i, u, c, k);
    HeapNeverShrinks(states, steps, d, u + 1);
  }

  lemma InsertsAt(states: seq<State>, steps: seq<Step>, i: nat, u: nat, c: Caller, k: nat) returns (d: nat)
    requires Section(states, steps, i, u, c) && i < k <= u
    requires c in states[k].calls && states[k].calls[c].phase.Inserting?
    ensures k < d <= u + 1 && |states[d].heap| > |states[k].heap|
  {
    var a := NextAct(states, steps, i, u, c, k);
    d := a + 1;
  }

  /** The two reads of a state that was found. */
  lemma TwoReads(states: seq<State>, steps: seq<Step>, i: nat, u: nat, c: Caller, sim: SimId) returns (a: nat, b: nat)
    requires Section(states, steps, i, u, c)
    requires Find(states[i].cache, KeyOf(states[i].calls[c].input)) == Some(sim)
    ensures i < a < b <= u && steps[a] == steps[b] == Act(c) && sim < |states[b].heap| == |states[i].heap|
    ensures c in states[a].calls && states[a].calls[c].phase == Testing(sim)
    ensures c in states[b].calls && states[b].calls[c].phase == Retesting(sim, FailedRecently(states[a], sim))
  {
    HolderDecides(states, steps, i, c);
    assert Taken(states, steps, i);
    a := NextAct(states, steps, i, u, c, i + 1);
    HolderDecides(states, steps, a, c);
    assert a < u && states[a + 1].lock == Some(c);
    b := NextAct(states, steps, i, u, c, a + 1);
  }

  lemma SecondReadDecides(states: seq<State>, steps: seq<Step>, i: nat, u: nat, c: Caller, b: nat, sim: SimId,
      recent: bool)
    requires Section(states, steps, i, u, c) && i < b <= u && steps[b] == Act(c)
    requires c in states[b].calls && states[b].calls[c].phase == Retesting(sim, recent) && sim < |states[b].heap|
    ensures |states[u + 1].heap| > |states[b].heap| <==> states[b].heap[sim].status == Failed && !recent
  {
    HolderDecides(states, steps, b, c);
    assert Taken(states, steps, b);
    if states[b].heap[sim].status == Failed && !recent {
      assert states[b + 1].lock == Some(c);
      InsertsLater(states, steps, i, u, c, b + 1);
    } else {
      assert states[b + 1].lock == None;
    }
  }

  /** A request creates a state of its own if and only if there is none for its key, or
      the one there has failed by the second read of its status and was not found
      recently failed by the first; `a` and `b` are those two reads. */
  lemma NewStateIff(states: seq<State>, steps: seq<Step>, i: nat, u: nat, c: Caller) returns (a: nat, b: nat)
    requires Section(states, steps, i, u, c)
    ensures var found := Find(states[i].cache, KeyOf(states[i].calls[c].input));
      && (found.Some? ==>
            && i < a < b <= u && steps[a] == steps[b] == Act(c) && found.value < |states[b].heap|
            && c in states[a].calls && states[a].calls[c].phase == Testing(found.value)
            && c in states[b].calls && states[b].calls[c].phase.Retesting? &&
                states[b].calls[c].phase.sim == found.value)
      && (|states[u + 1].heap| > |states[i].heap| <==>
            found == None || (states[b].heap[found.value].status == Failed && !FailedRecently(states[a], found.value)))
  {
    a, b := 0, 0;
    var found := Find(states[i].cache, KeyOf(states[i].calls[c].input));
    if found == None {
      HolderDecides(states, steps, i, c);
      assert Taken(states, steps, i);
      InsertsLater(states, steps, i, u, c, i + 1);
    } else {
      a, b := TwoReads(states, steps, i, u, c, found.value);
      SecondReadDecides(states, steps, i, u, c, b, found.value, FailedRecently(states[a], found.value));
    }
  }

  // ------------------------------------------------------------------
  // Runs
  // ------------------------------------------------------------------

  lemma Extend(states: seq<State>, steps: seq<Step>, step: Step) returns (states': seq<State>, steps': seq<Step>)
    requires IsRun(states, steps) && Enabled(states[|steps|], step)
    ensures steps' == steps + [step] && IsRun(states', steps')
    ensures states'[|steps'|] == Apply(states[|steps|], step)
  {
    steps' := steps + [step];
    states' := states + [Apply(states[|steps|], step)];
    forall k | 0 <= k < |steps'| ensures Taken(states', steps', k) {
      assert k < |steps| ==> Taken(states, steps, k);
    }
  }

  /** The run so far and the state it has led to. */
  ghost predicate LeadsTo(states: seq<State>, steps: seq<Step>, s: State) {
    IsRun(states, steps) && states[|steps|] == s
  }

  ghost predicate StepTo(s: State, step: Step, t: State) {
    Enabled(s, step) && Apply(s, step) == t
  }

  lemma Go(states: seq<State>, steps: seq<Step>, s: State, step: Step, t: State)
    returns (states': seq<State>, steps': seq<Step>)
    requires LeadsTo(states, steps, s) && StepTo(s, step, t)
    ensures LeadsTo(states', steps', t)
    ensures Reset in steps' ==> Reset in steps || step == Reset
  {
    states', steps' := Extend(states, steps, step);
  }

  lemma {:induction false} NothingFound(cache: seq<Entry>, key: Key, e: Entry)
    requires (forall k :: 0 <= k < |cache| ==> cache[k].key != key) && e.key == key
    ensures Find(cache, key) == None && Put(cache, e) == cache + [e]
  {
    if cache != [] {
      NothingFound(cache[1..], key, e);
    }
  }

  /** The cache once `e` is in and at most four entries are left. */
  function Filed(cache: seq<Entry>, e: Entry): seq<Entry> {
    if |cache| < MAX_CACHED_KEYS then cache + [e] else (cache + [e])[1..]
  }

  /** What a request for a key that is not cached comes to. */
  function Requested(s: State, c: Caller, x: Input): State {
    s.(calls := s.calls[c := Call(x, true, Reading(|s.heap|))], heap := s.heap + [NewSim(x, c)],
       cache := Filed(s.cache, Entry(KeyOf(x), |s.heap|)), workers := s.workers[|s.heap| := Simulating])
  }

  ghost predicate CanRequest(s: State, c: Caller, x: Input) {
    && x.snap.jobs != [] && s.lock == None && c !in s.calls && |s.cache| <= MAX_CACHED_KEYS
    && forall k :: 0 <= k < |s.cache| ==> s.cache[k].key != KeyOf(x)
  }

  /** `s` with the call of `c` in `phase`, and the lock held as that phase says. */
  function At(s: State, c: Caller, x: Input, phase: CallPhase): State {
    s.(calls := s.calls[c := Call(x, true, phase)], lock := if InLock(phase) then Some(c) else None)
  }

  lemma AskStepTo(s: State, c: Caller, x: Input)
    requires CanRequest(s, c, x)
    ensures StepTo(s, Ask(c, x, true), At(s, c, x, Wanting))
  {
  }

  lemma AcquireStepTo(s: State, c: Caller, x: Input)
    requires CanRequest(s, c, x)
    ensures StepTo(At(s, c, x, Wanting), Acquire(c), At(s, c, x, Looking))
  {
  }

  lemma LookStepTo(s: State, c: Caller, x: Input)
    requires CanRequest(s, c, x)
    ensures StepTo(At(s, c, x, Looking), Act(c), At(s, c, x, Inserting))
  {
    NothingFound(s.cache, KeyOf(x), Entry(KeyOf(x), 0));
  }

  lemma Enter(states: seq<State>, steps: seq<Step>, s: State, c: Caller, x: Input)
    returns (states': seq<State>, steps': seq<Step>)
    requires LeadsTo(states, steps, s) && CanRequest(s, c, x)
    ensures LeadsTo(states', steps', At(s, c, x, Inserting))
    ensures Reset in steps' ==> Reset in steps
  {
    AskStepTo(s, c, x);
    states', steps' := Go(states, steps, s, Ask(c, x, true), At(s, c, x, Wanting));
    AcquireStepTo(s, c, x);
    states', steps' := Go(states', steps', At(s, c, x, Wanting), Acquire(c), At(s, c, x, Looking));
    LookStepTo(s, c, x);
    states', steps' := Go(states', steps', At(s, c, x, Looking), Act(c), At(s, c, x, Inserting));
  }

  /** The state is in; the cache may hold one too many. */
  function Inserted(s: State, c: Caller, x: Input): State {
    At(s, c, x, Trimming(|s.heap|)).(heap := s.heap + [NewSim(x, c)], cache := s.cache + [Entry(KeyOf(x), |s.heap|)])
  }

  function Evicted(s: State): State {
    if |s.cache| > MAX_CACHED_KEYS then s.(cache := s.cache[1..]) else s
  }

  function Trimmed(s: State, c: Caller, x: Input): State {
    Requested(s, c, x).(workers := s.workers, calls := s.calls[c := Call(x, true, Launching(|s.heap|))])
  }

  lemma InsertStepTo(s: State, c: Caller, x: Input)
    requires CanRequest(s, c, x)
    ensures StepTo(At(s, c, x, Inserting), Act(c), Inserted(s, c, x))
  {
    NothingFound(s.cache, KeyOf(x), Entry(KeyOf(x), |s.heap|));
    InsertIs(s, c, x);
  }

  lemma InsertIs(s: State, c: Caller, x: Input)
    requires s.lock == None
    requires Put(s.cache, Entry(KeyOf(x), |s.heap|)) == s.cache + [Entry(KeyOf(x), |s.heap|)]
    ensures Insert(At(s, c, x, Inserting), c) == Inserted(s, c, x)
  {
  }

  lemma EvictStepTo(s: State, c: Caller, x: Input)
    requires CanRequest(s, c, x) && |s.cache| == MAX_CACHED_KEYS
    ensures StepTo(Inserted(s, c, x), Act(c), Evicted(Inserted(s, c, x)))
  {
  }

  /** Evicting once is enough. */
  lemma EvictedIsFiled(s: State, c: Caller, x: Input)
    requires CanRequest(s, c, x)
    ensures var cache := Filed(s.cache, Entry(KeyOf(x), |s.heap|));
      |cache| <= MAX_CACHED_KEYS && Evicted(Inserted(s, c, x)) == Inserted(s, c, x).(cache := cache)
  {
  }

  lemma TrimStepTo(s: State, c: Caller, x: Input)
    requires CanRequest(s, c, x)
    ensures StepTo(Evicted(Inserted(s, c, x)), Act(c), Trimmed(s, c, x))
  {
    EvictedIsFiled(s, c, x);
    TrimmedGoesOn(s, c, x, Filed(s.cache, Entry(KeyOf(x), |s.heap|)));
  }

  lemma TrimmedGoesOn(s: State, c: Caller, x: Input, cache: seq<Entry>)
    requires s.lock == None && |cache| <= MAX_CACHED_KEYS
    ensures var i := Inserted(s, c, x).(cache := cache);
      StepTo(i, Act(c), At(s, c, x, Launching(|s.heap|)).(heap := i.heap, cache := cache))
  {
  }

  lemma LaunchStepTo(s: State, c: Caller, x: Input)
    requires CanRequest(s, c, x)
    ensures StepTo(Trimmed(s, c, x), Act(c), Requested(s, c, x))
  {
  }

  lemma Request(states: seq<State>, steps: seq<Step>, s: State, c: Caller, x: Input)
    returns (states': seq<State>, steps': seq<Step>)
    requires LeadsTo(states, steps, s) && CanRequest(s, c, x)
    ensures LeadsTo(states', steps', Requested(s, c, x))
    ensures Reset in steps' ==> Reset in steps
  {
    states', steps' := Enter(states, steps, s, c, x);
    InsertStepTo(s, c, x);
    states', steps' := Go(states', steps', At(s, c, x, Inserting), Act(c), Inserted(s, c, x));
    if |s.cache| == MAX_CACHED_KEYS {
      EvictStepTo(s, c, x);
      states', steps' := Go(states', steps', Inserted(s, c, x), Act(c), Evicted(Inserted(s, c, x)));
    }
    TrimStepTo(s, c, x);
    states', steps' := Go(states', steps', Evicted(Inserted(s, c, x)), Act(c), Trimmed(s, c, x));
    LaunchStepTo(s, c, x);
    states', steps' := Go(states', steps', Trimmed(s, c, x), Act(c), Requested(s, c, x));
  }

  /** Two states of the same key, both running, each with a worker of its own. */
  ghost predicate TwoWorkers(s: State, key: Key, a: SimId, b: SimId) {
    && a < b < |s.heap| && a in s.workers && b in s.workers
    && s.heap[a].key == s.heap[b].key == key && s.heap[a].status == s.heap[b].status == Running
  }

  function Start(clock: int): State {
    State([], [], map[], None, map[], clock, [])
  }

  lemma Begin(clock: int) returns (states: seq<State>, steps: seq<Step>)
    ensures LeadsTo(states, steps, Start(clock)) && steps == []
  {
    states, steps := [Start(clock)], [];
  }

  /** `reset_cache` between two requests of the same input: two simulations of one key. */
  lemma ResetDuplicatesWork(x: Input) returns (states: seq<State>, steps: seq<Step>)
    requires x.snap.jobs != []
    ensures IsRun(states, steps) && TwoWorkers(states[|steps|], KeyOf(x), 0, 1)
  {
    states, steps := Begin(0);
    var s := Start(0);
    states, steps := Request(states, steps, s, 0, x);
    s := Requested(s, 0, x);
    states, steps := Extend(states, steps, Reset);
    s := s.(cache := []);
    states, steps := Request(states, steps, s, 1, x);
  }

  function Seeded(x: Input, n: nat): Input {
    x.(seed := n)
  }

  /** After requests with the seeds below `n` the last four are cached and all are
      running. */
  ghost predicate Busy(s: State, x: Input, n: nat) {
    && s.lock == None && |s.heap| == n && LastKeys(s.cache, x, n)
    && (forall c :: c in s.calls ==> c < n)
    && (forall k: SimId :: k < n ==> k in s.workers && s.heap[k] == NewSim(Seeded(x, k), k))
  }

  lemma {:induction false} ManyRequests(x: Input, n: nat) returns (states: seq<State>, steps: seq<Step>)
    requires x.snap.jobs != []
    ensures IsRun(states, steps) && Busy(states[|steps|], x, n) && Reset !in steps
  {
    if n == 0 {
      states, steps := Begin(0);
    } else {
      states, steps := ManyRequests(x, n - 1);
      var s := states[|steps|];
      states, steps := Request(states, steps, s, n - 1, Seeded(x, n - 1));
      BusyNext(s, x, n - 1);
    }
  }

  lemma BusyNext(s: State, x: Input, n: nat)
    requires Busy(s, x, n)
    ensures Busy(Requested(s, n, Seeded(x, n)), x, n + 1)
  {
    FiledNext(s.cache, Entry(KeyOf(Seeded(x, n)), n), x, n);
  }

  /** The last keys, oldest first. */
  ghost predicate LastKeys(cache: seq<Entry>, x: Input, n: nat) {
    && |cache| == (if n < MAX_CACHED_KEYS then n else MAX_CACHED_KEYS)
    && forall k :: 0 <= k < |cache| ==> cache[k].key == KeyOf(Seeded(x, n - |cache| + k))
  }

  lemma FiledNext(cache: seq<Entry>, e: Entry, x: Input, n: nat)
    requires LastKeys(cache, x, n) && e.key == KeyOf(Seeded(x, n))
    ensures LastKeys(Filed(cache, e), x, n + 1)
  {
  }

  /** Five keys are one too many: the first is asked for again while its simulation is
      still going on, and a second one starts. */
  lemma EvictionDuplicatesWork(x: Input) returns (states: seq<State>, steps: seq<Step>)
    requires x.snap.jobs != []
    ensures IsRun(states, steps) && TwoWorkers(states[|steps|], KeyOf(Seeded(x, 0)), 0, 5)
    ensures Reset !in steps
  {
    states, steps := ManyRequests(x, 5);
    states, steps := Request(states, steps, states[|steps|], 5, Seeded(x, 0));
  }

  /** The first state, and its worker, on the way to the end. */
  function Working(x: Input, state: Sim, worker: map<SimId, WorkerPhase>, ran: seq<Ran>): State {
    State([Entry(KeyOf(x), 0)], [state], worker, None, map[0 := Call(x, true, Reading(0))], 0, ran)
  }

  function FirstSim(x: Input, status: SimStatus, finishedAt: Option<int>, stats: Stats, done: bool): Sim {
    Sim(KeyOf(x), status, finishedAt, stats, done, x, 0)
  }

  function Done(x: Input, stats: Stats): State {
    Working(x, FirstSim(x, Ready, Some(0), stats, true), map[], [Ran(x, stats)])
  }

  lemma RequestedIsWorking(x: Input)
    ensures Requested(Start(0), 0, x) == Working(x, FirstSim(x, Running, None, map[], false), map[0 := Simulating], [])
  {
    assert [] + [Entry(KeyOf(x), 0)] == [Entry(KeyOf(x), 0)] && [] + [NewSim(x, 0)] == [NewSim(x, 0)];
  }

  lemma SimulateStepTo(x: Input, stats: Stats)
    ensures StepTo(Working(x, FirstSim(x, Running, None, map[], false), map[0 := Simulating], []), Work(0, Some(stats)),
                   Working(x, FirstSim(x, Running, None, stats, false), map[0 := Publishing(true)], [Ran(x, stats)]))
  {
    var before, ran := FirstSim(x, Running, None, map[], false), Ran(x, stats);
    OneElement(before, FirstSim(x, Running, None, stats, false), ran);
    OneWorker(Simulating, Publishing(true));
    SimulatedFirst(x, before, stats);
  }

  lemma SimulatedFirst(x: Input, state: Sim, stats: Stats)
    requires state.input == x
    ensures var s := Working(x, state, map[0 := Simulating], []);
      Worked(s, 0, Some(stats)) == Working(x, state.(stats := stats), map[0 := Publishing(true)], [Ran(x, stats)])
  {
    OneElement(state, state.(stats := stats), Ran(x, stats));
    OneWorker(Simulating, Publishing(true));
  }

  lemma OneElement<A, B>(a: A, b: A, c: B)
    ensures [a][0 := b] == [b] && [] + [c] == [c]
  {
  }

  lemma OneWorker(a: WorkerPhase, b: WorkerPhase)
    ensures map[0 := a][0 := b] == map[0 := b]
  {
  }

  lemma PublishStepTo(x: Input, stats: Stats)
    ensures StepTo(Working(x, FirstSim(x, Running, None, stats, false), map[0 := Publishing(true)], [Ran(x, stats)]),
                   Work(0, None),
                   Working(x, FirstSim(x, Ready, None, stats, false), map[0 := Stamping], [Ran(x, stats)]))
  {
  }

  lemma StampStepTo(x: Input, stats: Stats)
    ensures StepTo(Working(x, FirstSim(x, Ready, None, stats, false), map[0 := Stamping], [Ran(x, stats)]), Work(0,
        None),
                   Working(x, FirstSim(x, Ready, Some(0), stats, false), map[0 := Signalling], [Ran(x, stats)]))
  {
  }

  lemma SignalStepTo(x: Input, stats: Stats)
    ensures StepTo(Working(x, FirstSim(x, Ready, Some(0), stats, false), map[0 := Signalling], [Ran(x, stats)]),
                   Work(0, None), Done(x, stats))
  {
    assert map[0 := Signalling] - {0} == map[];
  }

  /** The worker of the first state runs to its end. */
  lemma Finished(x: Input, stats: Stats) returns (states: seq<State>, steps: seq<Step>)
    requires x.snap.jobs != []
    ensures LeadsTo(states, steps, Done(x, stats))
  {
    states, steps := Begin(0);
    states, steps := Request(states, steps, Start(0), 0, x);
    RequestedIsWorking(x);
    var ran := [Ran(x, stats)];
    var s0 := Working(x, FirstSim(x, Running, None, map[], false), map[0 := Simulating], []);
    var s1 := Working(x, FirstSim(x, Running, None, stats, false), map[0 := Publishing(true)], ran);
    var s2 := Working(x, FirstSim(x, Ready, None, stats, false), map[0 := Stamping], ran);
    var s3 := Working(x, FirstSim(x, Ready, Some(0), stats, false), map[0 := Signalling], ran);
    SimulateStepTo(x, stats);
    states, steps := Go(states, steps, s0, Work(0, Some(stats)), s1);
    PublishStepTo(x, stats);
    states, steps := Go(states, steps, s1, Work(0, None), s2);
    StampStepTo(x, stats);
    states, steps := Go(states, steps, s2, Work(0, None), s3);
    SignalStepTo(x, stats);
    states, steps := Go(states, steps, s3, Work(0, None), Done(x, stats));
  }

  /** The next caller, in `phase`. */
  function Asked(x: Input, stats: Stats, y: Input, phase: CallPhase): State {
    At(Done(x, stats), 1, y, phase)
  }

  lemma SecondAsks(x: Input, y: Input, stats: Stats)
    requires y.snap.jobs != []
    ensures StepTo(Done(x, stats), Ask(1, y, true), Asked(x, stats, y, Wanting))
  {
  }

  lemma SecondAcquires(x: Input, y: Input, stats: Stats)
    ensures StepTo(Asked(x, stats, y, Wanting), Acquire(1), Asked(x, stats, y, Looking))
  {
  }

  lemma Goes(x: Input, y: Input, stats: Stats, p: CallPhase, q: CallPhase)
    ensures Goto(Asked(x, stats, y, p), 1, q).(lock := if InLock(q) then Some(1) else None) == Asked(x, stats, y, q)
  {
  }

  lemma SecondLooks(x: Input, y: Input, stats: Stats)
    requires KeyOf(x) == KeyOf(y)
    ensures StepTo(Asked(x, stats, y, Looking), Act(1), Asked(x, stats, y, Testing(0)))
  {
    FindsTheOne(KeyOf(x));
    FoundOne(x, y, stats);
  }

  lemma FindsTheOne(key: Key)
    ensures Find([Entry(key, 0)], key) == Some(0)
  {
  }

  lemma FoundOne(x: Input, y: Input, stats: Stats)
    requires Find([Entry(KeyOf(x), 0)], KeyOf(y)) == Some(0)
    ensures LookUp(Asked(x, stats, y, Looking), 1) == Asked(x, stats, y, Testing(0))
  {
    Goes(x, y, stats, Looking, Testing(0));
  }

  lemma SecondTests(x: Input, y: Input, stats: Stats)
    ensures StepTo(Asked(x, stats, y, Testing(0)), Act(1), Asked(x, stats, y, Retesting(0, false)))
  {
    Goes(x, y, stats, Testing(0), Retesting(0, false));
  }

  lemma SecondRetests(x: Input, y: Input, stats: Stats)
    ensures StepTo(Asked(x, stats, y, Retesting(0, false)), Act(1), Asked(x, stats, y, Reading(0)))
  {
    Goes(x, y, stats, Retesting(0, false), Reading(0));
  }

  lemma SecondReads(x: Input, y: Input, stats: Stats)
    ensures StepTo(Asked(x, stats, y, Reading(0)), Act(1), Asked(x, stats, y, Judging(0)))
  {
    Goes(x, y, stats, Reading(0), Judging(0));
  }

  lemma SecondJudges(x: Input, y: Input, stats: Stats)
    ensures StepTo(Asked(x, stats, y, Judging(0)), Act(1), Asked(x, stats, y, Served(OutcomeReady(stats))))
  {
    Goes(x, y, stats, Judging(0), Served(OutcomeReady(stats)));
  }

  lemma FindsDone(x: Input, y: Input, stats: Stats) returns (states: seq<State>, steps: seq<Step>)
    requires KeyOf(x) == KeyOf(y) && x.snap.jobs != [] && y.snap.jobs != []
    ensures LeadsTo(states, steps, Asked(x, stats, y, Testing(0)))
  {
    states, steps := Finished(x, stats);
    SecondAsks(x, y, stats);
    states, steps := Go(states, steps, Done(x, stats), Ask(1, y, true), Asked(x, stats, y, Wanting));
    SecondAcquires(x, y, stats);
    states, steps := Go(states, steps, Asked(x, stats, y, Wanting), Acquire(1), Asked(x, stats, y, Looking));
    SecondLooks(x, y, stats);
    states, steps := Go(states, steps, Asked(x, stats, y, Looking), Act(1), Asked(x, stats, y, Testing(0)));
  }

  lemma ServesDone(x: Input, y: Input, stats: Stats) returns (states: seq<State>, steps: seq<Step>)
    requires KeyOf(x) == KeyOf(y) && x.snap.jobs != [] && y.snap.jobs != []
    ensures LeadsTo(states, steps, Asked(x, stats, y, Served(OutcomeReady(stats))))
  {
    states, steps := FindsDone(x, y, stats);
    var t, r, b := Asked(x, stats, y, Testing(0)), Asked(x, stats, y, Retesting(0, false)), Asked(x, stats, y,
        Reading(0));
    var j, o := Asked(x, stats, y, Judging(0)), Asked(x, stats, y, Served(OutcomeReady(stats)));
    SecondTests(x, y, stats);
    states, steps := Go(states, steps, t, Act(1), r);
    SecondRetests(x, y, stats);
    states, steps := Go(states, steps, r, Act(1), b);
    SecondReads(x, y, stats);
    states, steps := Go(states, steps, b, Act(1), j);
    SecondJudges(x, y, stats);
    states, steps := Go(states, steps, j, Act(1), o);
  }

  /** A caller is served what was simulated for another input of its key. */
  lemma StatsAreShared(x: Input, y: Input, stats: Stats) returns (states: seq<State>, steps: seq<Step>)
    requires KeyOf(x) == KeyOf(y) && x.snap.jobs != [] && y.snap.jobs != []
    ensures IsRun(states, steps) && states[|steps|].ran == [Ran(x, stats)]
    ensures 1 in states[|steps|].calls && states[|steps|].calls[1] == Call(y, true, Served(OutcomeReady(stats)))
  {
    states, steps := ServesDone(x, y, stats);
  }

  /** In particular: the only simulation ran with other calendars, globals, machines or
      resources than the caller's. */
  lemma OtherCalendarsAreServed(mine: Input, theirs: string, stats: Stats) returns (states: seq<State>, steps: seq<Step>)
    requires mine.snap.jobs != [] && theirs != mine.snap.rest
    ensures IsRun(states, steps) && |states[|steps|].ran| == 1
    ensures states[|steps|].ran[0].input.snap.rest != mine.snap.rest
    ensures 1 in states[|steps|].calls && states[|steps|].calls[1] == Call(mine, true, Served(OutcomeReady(stats)))
    ensures states[|steps|].ran[0].stats == stats
  {
    states, steps := StatsAreShared(mine.(snap := mine.snap.(rest := theirs)), mine, stats);
  }

  // ----- a wait that times out

  /** Caller 0 has started the simulation; caller 1, who does not wait for ever, asks for
      the same. */
  function Impatient(x: Input, phase: CallPhase): State {
    var s := Working(x, FirstSim(x, Running, None, map[], false), map[0 := Simulating], []);
    s.(calls := s.calls[1 := Call(x, false, phase)], lock := if InLock(phase) then Some(1) else None)
  }

  lemma ImpatientAsks(x: Input)
    requires x.snap.jobs != []
    ensures StepTo(Working(x, FirstSim(x, Running, None, map[], false), map[0 := Simulating], []), Ask(1, x, false),
                   Impatient(x, Wanting))
  {
  }

  lemma ImpatientAcquires(x: Input)
    ensures StepTo(Impatient(x, Wanting), Acquire(1), Impatient(x, Looking))
  {
  }

  lemma ImpatientGoes(x: Input, p: CallPhase, q: CallPhase)
    ensures Goto(Impatient(x, p), 1, q).(lock := if InLock(q) then Some(1) else None) == Impatient(x, q)
  {
  }

  lemma ImpatientLooks(x: Input)
    ensures StepTo(Impatient(x, Looking), Act(1), Impatient(x, Testing(0)))
  {
    FindsTheOne(KeyOf(x));
    ImpatientFinds(x);
  }

  lemma ImpatientFinds(x: Input)
    requires Find([Entry(KeyOf(x), 0)], KeyOf(x)) == Some(0)
    ensures LookUp(Impatient(x, Looking), 1) == Impatient(x, Testing(0))
  {
    ImpatientGoes(x, Looking, Testing(0));
  }

  lemma ImpatientTests(x: Input)
    ensures StepTo(Impatient(x, Testing(0)), Act(1), Impatient(x, Retesting(0, false)))
  {
    ImpatientGoes(x, Testing(0), Retesting(0, false));
  }

  lemma ImpatientRetests(x: Input)
    ensures StepTo(Impatient(x, Retesting(0, false)), Act(1), Impatient(x, Reading(0)))
  {
    ImpatientGoes(x, Retesting(0, false), Reading(0));
  }

  lemma ImpatientWaits(x: Input)
    ensures StepTo(Impatient(x, Reading(0)), Act(1), Impatient(x, Waiting(0)))
  {
    ImpatientGoes(x, Reading(0), Waiting(0));
  }

  lemma ImpatientWakes(x: Input)
    ensures StepTo(Impatient(x, Waiting(0)), Wake(1), Impatient(x, Judging(0)))
  {
    ImpatientGoes(x, Waiting(0), Judging(0));
  }

  lemma ImpatientGivesUp(x: Input)
    ensures StepTo(Impatient(x, Judging(0)), Act(1), Impatient(x, Doubting(0)))
  {
    ImpatientGoes(x, Judging(0), Doubting(0));
  }

  lemma ImpatientIsPending(x: Input)
    ensures StepTo(Impatient(x, Doubting(0)), Act(1), Impatient(x, Served(OutcomePending)))
  {
    ImpatientGoes(x, Doubting(0), Served(OutcomePending));
  }

  lemma ImpatientReads(x: Input) returns (states: seq<State>, steps: seq<Step>)
    requires x.snap.jobs != []
    ensures LeadsTo(states, steps, Impatient(x, Reading(0)))
  {
    states, steps := Begin(0);
    states, steps := Request(states, steps, Start(0), 0, x);
    RequestedIsWorking(x);
    var s := Working(x, FirstSim(x, Running, None, map[], false), map[0 := Simulating], []);
    ImpatientAsks(x);
    states, steps := Go(states, steps, s, Ask(1, x, false), Impatient(x, Wanting));
    ImpatientAcquires(x);
    states, steps := Go(states, steps, Impatient(x, Wanting), Acquire(1), Impatient(x, Looking));
    ImpatientLooks(x);
    states, steps := Go(states, steps, Impatient(x, Looking), Act(1), Impatient(x, Testing(0)));
    ImpatientTests(x);
    states, steps := Go(states, steps, Impatient(x, Testing(0)), Act(1), Impatient(x, Retesting(0, false)));
    ImpatientRetests(x);
    states, steps := Go(states, steps, Impatient(x, Retesting(0, false)), Act(1), Impatient(x, Reading(0)));
  }

  lemma ImpatientIsServed(x: Input) returns (states: seq<State>, steps: seq<Step>)
    requires x.snap.jobs != []
    ensures LeadsTo(states, steps, Impatient(x, Served(OutcomePending)))
  {
    states, steps := ImpatientReads(x);
    ImpatientWaits(x);
    states, steps := Go(states, steps, Impatient(x, Reading(0)), Act(1), Impatient(x, Waiting(0)));
    ImpatientWakes(x);
    states, steps := Go(states, steps, Impatient(x, Waiting(0)), Wake(1), Impatient(x, Judging(0)));
    ImpatientGivesUp(x);
    states, steps := Go(states, steps, Impatient(x, Judging(0)), Act(1), Impatient(x, Doubting(0)));
    ImpatientIsPending(x);
    states, steps := Go(states, steps, Impatient(x, Doubting(0)), Act(1), Impatient(x, Served(OutcomePending)));
  }

  /** A caller whose wait times out is served "pending" while the simulation goes on. */
  lemma TimeoutIsPending(x: Input) returns (states: seq<State>, steps: seq<Step>)
    requires x.snap.jobs != []
    ensures IsRun(states, steps)
    ensures var s := states[|steps|];
      && 1 in s.calls && s.calls[1] == Call(x, false, Served(OutcomePending))
      && |s.heap| == 1 && s.heap[0].key == KeyOf(x) && s.heap[0].status == Running && !s.heap[0].done
      && s.workers == map[0 := Simulating]
  {
    states, steps := ImpatientIsServed(x);
  }
}
