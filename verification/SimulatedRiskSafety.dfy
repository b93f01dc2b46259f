/** What holds in every interleaving of requests, workers and waiting readers
    (autosys/analysis/simulated_risk.py). */
module SimulatedRiskSafety {
  import opened Options
  import opened SimulatedRisk
  import opened SnapshotKey

  ghost predicate Cached(s: State, key: Key, sim: SimId) {
    Entry(key, sim) in s.cache
  }

  /** No state in the cache for this key is running or ready. */
  ghost predicate NoneBusy(s: State, key: Key) {
    forall k :: 0 <= k < |s.cache| && s.cache[k].key == key ==>
      s.cache[k].sim < |s.heap| && s.heap[s.cache[k].sim].status == Failed
  }

  ghost predicate Bound(s: State, call: Call, sim: SimId) {
    sim < |s.heap| && s.heap[sim].key == KeyOf(call.input)
  }

  /** Created by `c`, its worker not started yet. */
  ghost predicate Unstarted(s: State, c: Caller, sim: SimId) {
    sim < |s.heap| && s.heap[sim].creator == c && sim !in s.workers && s.heap[sim].status == Running && !s.heap[sim].done
  }

  /** `stats` came out of a simulation on an input with this key. */
  ghost predicate Simulated(s: State, key: Key, stats: Stats) {
    exists k :: 0 <= k < |s.ran| && KeyOf(s.ran[k].input) == key && s.ran[k].stats == stats
  }

  /** A simulation of this key has failed. */
  ghost predicate FailedFor(s: State, key: Key) {
    exists sim :: 0 <= sim < |s.heap| && s.heap[sim].key == key && s.heap[sim].status == Failed
  }

  ghost predicate OutcomeOk(s: State, call: Call, o: Outcome) {
    match o
    case OutcomeReady(stats) => Simulated(s, KeyOf(call.input), stats)
    case OutcomePending => !call.noTimeout
    case OutcomeFailed => FailedFor(s, KeyOf(call.input))
    case OutcomeEmpty => true
  }

  ghost predicate CallOk(s: State, c: Caller)
    requires c in s.calls
  {
    var call := s.calls[c];
    var key := KeyOf(call.input);
    && (InLock(call.phase) <==> s.lock == Some(c))
    && (call.input.snap.jobs == [] <==> call.phase == Served(OutcomeEmpty))
    && match call.phase
       case Wanting => true
       case Looking => true
       case Testing(sim) => Bound(s, call, sim) && Cached(s, key, sim)
       case Retesting(sim, recent) => Bound(s, call, sim) && Cached(s, key, sim) && (recent ==>
           s.heap[sim].status == Failed)
       case Inserting => NoneBusy(s, key)
       case Trimming(sim) =>
         && Bound(s, call, sim) && Cached(s, key, sim) && Unstarted(s, c, sim)
         && (|s.cache| > MAX_CACHED_KEYS ==> s.cache[0].sim != sim)
       case Launching(sim) => Bound(s, call, sim) && Unstarted(s, c, sim)
       case Reading(sim) => Bound(s, call, sim)
       case Waiting(sim) => Bound(s, call, sim)
       case Judging(sim) => Bound(s, call, sim) && (call.noTimeout ==> s.heap[sim].status != Running)
       case Doubting(sim) => Bound(s, call, sim) && (call.noTimeout ==> s.heap[sim].status == Failed)
       case Served(o) => OutcomeOk(s, call, o)
  }

  ghost predicate SimOk(s: State, sim: SimId)
    requires sim < |s.heap|
  {
    var state := s.heap[sim];
    && state.key == KeyOf(state.input)
    && (state.status == Ready ==> Simulated(s, state.key, state.stats))
    && (state.done ==> state.status != Running)
    && (sim in s.workers ==>
          match s.workers[sim]
          case Simulating => state.status == Running && !state.done
          case Publishing(ok) => state.status == Running && !state.done && (ok ==> Simulated(s, state.key, state.stats))
          case Stamping => state.status != Running
          case Signalling => state.status != Running)
  }

  ghost predicate CacheOk(s: State) {
    && |s.cache| <= MAX_CACHED_KEYS + 1
    && (|s.cache| > MAX_CACHED_KEYS ==> s.lock.Some? && s.lock.value in s.calls && s.calls[s.lock.value].phase.Trimming?)
    && (forall k :: 0 <= k < |s.cache| ==> s.cache[k].sim < |s.heap| && s.heap[s.cache[k].sim].key == s.cache[k].key)
    && (forall j, k :: 0 <= j < k < |s.cache| ==> s.cache[j].key != s.cache[k].key)
  }

  ghost predicate Inv(s: State) {
    && CacheOk(s) && SimsOk(s) && CallsOk(s)
    && (s.lock.Some? ==> s.lock.value in s.calls)
  }

  ghost predicate SimsOk(s: State) {
    && (forall sim: SimId :: sim < |s.heap| ==> SimOk(s, sim))
    && (forall sim :: sim in s.workers ==> sim < |s.heap|)
  }

  ghost predicate CallsOk(s: State) {
    forall c :: c in s.calls ==> CallOk(s, c)
  }

  // ----- how state objects may change

  /** Once ready or failed, a state stays so, with its stats. */
  ghost predicate Grows(s: State, s': State) {
    && |s.heap| <= |s'.heap| && s.ran <= s'.ran
    && (forall sim: SimId :: sim < |s.heap| ==> SimGrows(s.heap[sim], s'.heap[sim]))
  }

  ghost predicate SimGrows(a: Sim, b: Sim) {
    && b.key == a.key && b.input == a.input && b.creator == a.creator
    && (a.status != Running ==> b.status == a.status && b.stats == a.stats)
    && (a.done ==> b.done)
  }

  lemma SimulatedGrows(s: State, s': State, key: Key, stats: Stats)
    requires s.ran <= s'.ran && Simulated(s, key, stats)
    ensures Simulated(s', key, stats)
  {
    var k :| 0 <= k < |s.ran| && KeyOf(s.ran[k].input) == key && s.ran[k].stats == stats;
    assert s'.ran[k] == s.ran[k];
  }

  lemma FailedGrows(s: State, s': State, key: Key)
    requires Grows(s, s') && FailedFor(s, key)
    ensures FailedFor(s', key)
  {
    var sim: SimId :| sim < |s.heap| && s.heap[sim].key == key && s.heap[sim].status == Failed;
    assert SimGrows(s.heap[sim], s'.heap[sim]);
  }

  /** A step that is not one of caller `c`, as far as `c` can tell. */
  ghost predicate Bystander(s: State, s': State, c: Caller) {
    && Grows(s, s') && c in s.calls && c in s'.calls && s'.calls[c] == s.calls[c]
    && (s.lock == Some(c) <==> s'.lock == Some(c))
    && (s.lock == Some(c) ==> s'.cache == s.cache)
    && (forall sim: SimId :: Unstarted(s, c, sim) ==> Unstarted(s', c, sim))
  }

  lemma BystanderOk(s: State, s': State, c: Caller)
    requires Bystander(s, s', c) && CallOk(s, c)
    ensures CallOk(s', c)
  {
    var call := s.calls[c];
    if call.phase.Served? && call.phase.outcome.OutcomeReady? {
      SimulatedGrows(s, s', KeyOf(call.input), call.phase.outcome.stats);
    }
    if call.phase.Served? && call.phase.outcome.OutcomeFailed? {
      FailedGrows(s, s', KeyOf(call.input));
    }
  }

  /** A step of `c` that changes only its phase and whether it holds the lock. */
  ghost predicate Steers(s: State, s': State, c: Caller) {
    && c in s'.calls && s' == s.(calls := s.calls[c := s'.calls[c]], lock := s'.lock)
    && (s'.lock == s.lock || (s.lock != None && s.lock != Some(c) ==> s'.lock == s.lock))
    && (s'.lock == s.lock || s'.lock == None || s'.lock == Some(c))
  }

  lemma SteerStep(s: State, s': State, c: Caller)
    requires Inv(s) && Steers(s, s', c) && CallOk(s', c)
    requires |s.cache| > MAX_CACHED_KEYS ==> s'.lock == s.lock && s.lock != Some(c)
    ensures Inv(s')
  {
    forall d | d in s'.calls && d != c ensures CallOk(s', d) {
      SteerBystander(s, s', c, d);
      BystanderOk(s, s', d);
    }
    forall sim: SimId | sim < |s'.heap| ensures SimOk(s', sim) {
      SimKept(s, s', sim);
    }
    SteerCache(s, s', c);
  }

  lemma SteerBystander(s: State, s': State, c: Caller, d: Caller)
    requires Steers(s, s', c) && d in s.calls && d != c
    ensures Bystander(s, s', d)
  {
  }

  lemma SteerCache(s: State, s': State, c: Caller)
    requires CacheOk(s) && Steers(s, s', c) && (s.lock.Some? ==> s.lock.value in s.calls)
    requires |s.cache| > MAX_CACHED_KEYS ==> s'.lock == s.lock && s.lock != Some(c)
    ensures CacheOk(s') && (s'.lock.Some? ==> s'.lock.value in s'.calls)
  {
  }

  lemma SimKept(s: State, s': State, sim: SimId)
    requires sim < |s.heap| && SimOk(s, sim) && sim < |s'.heap| && s'.heap[sim] == s.heap[sim] && s.ran <= s'.ran
    requires sim in s'.workers ==> (sim in s.workers && s'.workers[sim] == s.workers[sim])
    ensures SimOk(s', sim)
  {
    var state := s.heap[sim];
    if Simulated(s, state.key, state.stats) {
      SimulatedGrows(s, s', state.key, state.stats);
    }
  }

  // ----- the steps of a caller

  lemma AskStep(s: State, c: Caller, input: Input, noTimeout: bool)
    requires Inv(s) && c !in s.calls
    ensures Inv(Apply(s, Ask(c, input, noTimeout)))
  {
    SteerStep(s, Apply(s, Ask(c, input, noTimeout)), c);
  }

  lemma AcquireStep(s: State, c: Caller)
    requires Inv(s) && Enabled(s, Acquire(c))
    ensures Inv(Apply(s, Acquire(c)))
  {
    assert CallOk(s, c);
    SteerStep(s, Apply(s, Acquire(c)), c);
  }

  lemma {:induction false} FindFacts(cache: seq<Entry>, key: Key)
    ensures var found := Find(cache, key);
      && (found.Some? ==> Entry(key, found.value) in cache)
      && (found.None? ==> forall k :: 0 <= k < |cache| ==> cache[k].key != key)
  {
    if cache != [] {
      FindFacts(cache[1..], key);
      assert cache == [cache[0]] + cache[1..];
    }
  }

  lemma LookUpStep(s: State, c: Caller)
    requires Inv(s) && c in s.calls && s.calls[c].phase.Looking?
    ensures Inv(LookUp(s, c))
  {
    assert CallOk(s, c);
    FindFacts(s.cache, KeyOf(s.calls[c].input));
    SteerStep(s, LookUp(s, c), c);
  }

  lemma FirstReadStep(s: State, c: Caller, sim: SimId)
    requires Inv(s) && c in s.calls && s.calls[c].phase == Testing(sim)
    ensures Inv(FirstRead(s, c, sim))
  {
    assert CallOk(s, c);
    SteerStep(s, FirstRead(s, c, sim), c);
  }

  lemma SecondReadStep(s: State, c: Caller, sim: SimId, recent: bool)
    requires Inv(s) && c in s.calls && s.calls[c].phase == Retesting(sim, recent)
    ensures Inv(SecondRead(s, c, sim, recent))
  {
    assert CallOk(s, c);
    var key := KeyOf(s.calls[c].input);
    var j :| 0 <= j < |s.cache| && s.cache[j] == Entry(key, sim);
    assert forall k :: 0 <= k < |s.cache| && s.cache[k].key == key ==> k == j;
    SteerStep(s, SecondRead(s, c, sim, recent), c);
  }

  lemma ReadStep(s: State, c: Caller, sim: SimId)
    requires Inv(s) && c in s.calls && s.calls[c].phase == Reading(sim)
    ensures Inv(Read(s, c, sim))
  {
    assert CallOk(s, c);
    SteerStep(s, Read(s, c, sim), c);
  }

  lemma WakeStep(s: State, c: Caller)
    requires Inv(s) && Enabled(s, Wake(c))
    ensures Inv(Apply(s, Wake(c)))
  {
    assert CallOk(s, c);
    assert SimOk(s, s.calls[c].phase.sim);
    SteerStep(s, Apply(s, Wake(c)), c);
  }

  lemma JudgeStep(s: State, c: Caller, sim: SimId)
    requires Inv(s) && c in s.calls && s.calls[c].phase == Judging(sim)
    ensures Inv(Judge(s, c, sim))
  {
    assert CallOk(s, c) && SimOk(s, sim);
    JudgeOwn(s, c, sim);
    SteerStep(s, Judge(s, c, sim), c);
  }

  lemma JudgeOwn(s: State, c: Caller, sim: SimId)
    requires c in s.calls && s.calls[c].phase == Judging(sim) && CallOk(s, c) && SimOk'(s, sim)
    ensures CallOk(Judge(s, c, sim), c)
  {
    if s.heap[sim].status == Ready {
      var o, key := OutcomeReady(s.heap[sim].stats), KeyOf(s.calls[c].input);
      SimulatedGrows(s, Goto(s, c, Served(o)), key, s.heap[sim].stats);
      ServedIsOk(Goto(s, c, Served(o)), c, o);
    } else {
      StartDoubting(s, c, sim);
    }
  }

  lemma ServedIsOk(s: State, c: Caller, o: Outcome)
    requires c in s.calls && s.calls[c].phase == Served(o) && s.lock != Some(c) && OutcomeOk(s, s.calls[c], o)
    requires s.calls[c].input.snap.jobs == [] <==> o == OutcomeEmpty
    ensures CallOk(s, c)
  {
  }

  lemma StartDoubting(s: State, c: Caller, sim: SimId)
    requires c in s.calls && s.calls[c].phase == Judging(sim) && CallOk(s, c)
    requires sim < |s.heap| && s.heap[sim].status != Ready
    ensures CallOk(Goto(s, c, Doubting(sim)), c)
  {
  }

  lemma DoubtOwn(s: State, c: Caller, sim: SimId)
    requires c in s.calls && s.calls[c].phase == Doubting(sim) && CallOk(s, c)
    ensures CallOk(Doubt(s, c, sim), c)
  {
    var s' := Doubt(s, c, sim);
    assert s'.heap == s.heap && s'.heap[sim].key == KeyOf(s.calls[c].input);
  }

  lemma DoubtStep(s: State, c: Caller, sim: SimId)
    requires Inv(s) && c in s.calls && s.calls[c].phase == Doubting(sim)
    ensures Inv(Doubt(s, c, sim))
  {
    assert CallOk(s, c);
    DoubtOwn(s, c, sim);
    SteerStep(s, Doubt(s, c, sim), c);
  }

  ghost predicate DistinctEntries(cache: seq<Entry>) {
    forall j, k :: 0 <= j < k < |cache| ==> cache[j].key != cache[k].key
  }

  /** The new entry is in, every other entry keeps its place, and only an unknown key
      makes the cache longer, at its end. */
  ghost predicate IsPut(cache: seq<Entry>, e: Entry, put: seq<Entry>) {
    && e in put && |cache| <= |put| <= |cache| + 1
    && (forall k :: 0 <= k < |put| ==> put[k] == e || (k < |cache| && put[k] == cache[k] && put[k].key != e.key))
    && (|put| > |cache| ==> put[|cache|] == e && forall k :: 0 <= k < |cache| ==> put[k] == cache[k])
    && DistinctEntries(put)
  }

  lemma {:induction false} PutFacts(cache: seq<Entry>, e: Entry)
    requires DistinctEntries(cache)
    ensures IsPut(cache, e, Put(cache, e))
  {
    if cache != [] {
      if cache[0].key != e.key {
        PutFacts(cache[1..], e);
        PutInFront(cache, e, Put(cache[1..], e));
      }
    }
  }

  lemma PutInFront(cache: seq<Entry>, e: Entry, rest: seq<Entry>)
    requires DistinctEntries(cache) && cache != [] && cache[0].key != e.key && IsPut(cache[1..], e, rest)
    ensures IsPut(cache, e, [cache[0]] + rest)
  {
    var put := [cache[0]] + rest;
    assert put[1..] == rest;
    forall k | 0 <= k < |put| ensures put[k] == e || (k < |cache| && put[k] == cache[k] && put[k].key != e.key) {
      if k > 0 {
        assert put[k] == rest[k - 1];
      }
    }
    if |put| > |cache| {
      assert put[|cache|] == rest[|cache| - 1];
      forall k | 0 <= k < |cache| ensures put[k] == cache[k] {
        assert k > 0 ==> rest[k - 1] == cache[1..][k - 1];
      }
    }
  }

  lemma InsertCache(s: State, c: Caller)
    requires Inv(s) && c in s.calls && s.calls[c].phase.Inserting?
    ensures CacheOk(Insert(s, c))
    ensures var s' := Insert(s, c);
      && Cached(s', KeyOf(s.calls[c].input), |s.heap|)
      && (|s'.cache| > MAX_CACHED_KEYS ==> s'.cache[0].sim != |s.heap|)
  {
    assert CallOk(s, c);
    PutFacts(s.cache, Entry(KeyOf(s.calls[c].input), |s.heap|));
  }

  lemma InsertOwn(s: State, c: Caller)
    requires Inv(s) && c in s.calls && s.calls[c].phase.Inserting?
    ensures CallOk(Insert(s, c), c)
  {
    assert CallOk(s, c);
    InsertCache(s, c);
  }

  lemma InsertStep(s: State, c: Caller)
    requires Inv(s) && c in s.calls && s.calls[c].phase.Inserting?
    ensures Inv(Insert(s, c))
  {
    var s' := Insert(s, c);
    assert CallOk(s, c);
    InsertCache(s, c);
    InsertOwn(s, c);
    forall d | d in s'.calls && d != c ensures CallOk(s', d) {
      assert CallOk(s, d);
      assert Bystander(s, s', d);
      BystanderOk(s, s', d);
    }
    forall sim: SimId | sim < |s'.heap| ensures SimOk(s', sim) {
      if sim < |s.heap| {
        SimKept(s, s', sim);
      }
    }
  }

  lemma TrimStep(s: State, c: Caller, sim: SimId)
    requires Inv(s) && c in s.calls && s.calls[c].phase == Trimming(sim)
    ensures Inv(Trim(s, c, sim))
  {
    var s' := Trim(s, c, sim);
    assert CallOk(s, c);
    if |s.cache| > MAX_CACHED_KEYS {
      EvictOwn(s, c, sim);
      forall d | d in s'.calls && d != c ensures CallOk(s', d) {
        assert CallOk(s, d);
        assert Bystander(s, s', d);
        BystanderOk(s, s', d);
      }
      forall x: SimId | x < |s'.heap| ensures SimOk(s', x) {
        SimKept(s, s', x);
      }
    } else {
      SteerStep(s, s', c);
    }
  }

  lemma EvictOwn(s: State, c: Caller, sim: SimId)
    requires Inv(s) && c in s.calls && s.calls[c].phase == Trimming(sim) && |s.cache| > MAX_CACHED_KEYS
    ensures CallOk(Trim(s, c, sim), c) && CacheOk(Trim(s, c, sim))
  {
    var s' := Trim(s, c, sim);
    assert CallOk(s, c);
    var e := Entry(KeyOf(s.calls[c].input), sim);
    var k :| 0 <= k < |s.cache| && s.cache[k] == e;
    assert s'.cache[k - 1] == e;
  }

  lemma LaunchOwn(s: State, c: Caller, sim: SimId)
    requires Inv(s) && c in s.calls && s.calls[c].phase == Launching(sim)
    ensures CallOk(Launch(s, c, sim), c) && SimOk'(Launch(s, c, sim), sim)
  {
    assert CallOk(s, c) && SimOk(s, sim);
    SimulatedSame(s, Launch(s, c, sim));
  }

  lemma LaunchBystander(s: State, c: Caller, sim: SimId, d: Caller)
    requires c in s.calls && d in s.calls && c != d && Unstarted(s, c, sim)
    ensures Bystander(s, Launch(s, c, sim), d)
  {
  }

  lemma LaunchOthers(s: State, c: Caller, sim: SimId, d: Caller)
    requires Inv(s) && c in s.calls && s.calls[c].phase == Launching(sim) && d in s.calls && d != c
    ensures CallOk(Launch(s, c, sim), d)
  {
    assert CallOk(s, c);
    LaunchBystander(s, c, sim, d);
    BystanderOk(s, Launch(s, c, sim), d);
  }

  lemma LaunchSims(s: State, c: Caller, sim: SimId, x: SimId)
    requires Inv(s) && c in s.calls && s.calls[c].phase == Launching(sim) && x < |s.heap| && x != sim
    ensures SimOk'(Launch(s, c, sim), x)
  {
    SimKept(s, Launch(s, c, sim), x);
  }

  lemma LaunchStep(s: State, c: Caller, sim: SimId)
    requires Inv(s) && c in s.calls && s.calls[c].phase == Launching(sim)
    ensures Inv(Launch(s, c, sim))
  {
    var s' := Launch(s, c, sim);
    LaunchOwn(s, c, sim);
    forall d | d in s'.calls ensures CallOk(s', d) {
      if d != c {
        LaunchOthers(s, c, sim, d);
      }
    }
    forall x: SimId | x < |s'.heap| ensures SimOk(s', x) {
      if x != sim {
        LaunchSims(s, c, sim, x);
      }
    }
  }

  lemma SimulatedSame(s: State, s': State)
    requires s'.ran == s.ran
    ensures forall key, stats :: Simulated(s, key, stats) <==> Simulated(s', key, stats)
  {
  }

  lemma ActStep(s: State, c: Caller)
    requires Inv(s) && Enabled(s, Act(c))
    ensures Inv(Advance(s, c))
  {
    match s.calls[c].phase
    case Looking => LookUpStep(s, c);
    case Testing(sim) => FirstReadStep(s, c, sim);
    case Retesting(sim, recent) => SecondReadStep(s, c, sim, recent);
    case Inserting => InsertStep(s, c);
    case Trimming(sim) => TrimStep(s, c, sim);
    case Launching(sim) => LaunchStep(s, c, sim);
    case Reading(sim) => ReadStep(s, c, sim);
    case Judging(sim) => JudgeStep(s, c, sim);
    case Doubting(sim) => DoubtStep(s, c, sim);
  }

  // ----- workers, resets and the clock

  lemma WorkedSim(s: State, sim: SimId, result: Option<Stats>)
    requires Inv(s) && sim in s.workers && sim < |s.heap|
    ensures SimOk(Worked(s, sim, result), sim) && Grows(s, Worked(s, sim, result))
  {
    var s' := Worked(s, sim, result);
    assert SimOk(s, sim);
    if s.workers[sim].Simulating? && result.Some? {
      assert s'.ran[|s.ran|] == Ran(s.heap[sim].input, result.value);
    } else {
      SimulatedSame(s, s');
    }
  }

  /** The worker of `sim` changes nothing else in the heap. */
  lemma WorkShape(s: State, sim: SimId, result: Option<Stats>)
    requires sim in s.workers && sim < |s.heap|
    ensures var s' := Worked(s, sim, result);
      && s'.calls == s.calls && s'.lock == s.lock && s'.cache == s.cache && |s'.heap| == |s.heap| && s.ran <= s'.ran
      && (forall x: SimId :: x < |s.heap| && x != sim ==> s'.heap[x] == s.heap[x])
      && (forall x: SimId :: x in s'.workers ==> x in s.workers && (x != sim ==> s'.workers[x] == s.workers[x]))
  {
  }

  lemma WorkStep(s: State, sim: SimId, result: Option<Stats>)
    requires Inv(s) && sim in s.workers && sim < |s.heap|
    ensures Inv(Worked(s, sim, result))
  {
    WorkedSim(s, sim, result);
    WorkShape(s, sim, result);
    OthersWork(s, Worked(s, sim, result), sim);
  }

  lemma OthersWork(s: State, s': State, sim: SimId)
    requires Inv(s) && sim in s.workers && sim < |s.heap| && Grows(s, s') && SimOk'(s', sim)
    requires s'.calls == s.calls && s'.lock == s.lock && s'.cache == s.cache && |s'.heap| == |s.heap|
    requires forall x: SimId :: x < |s.heap| && x != sim ==> s'.heap[x] == s.heap[x]
    requires forall x: SimId :: x in s'.workers ==> x in s.workers && (x != sim ==> s'.workers[x] == s.workers[x])
    ensures Inv(s')
  {
    forall c | c in s'.calls ensures CallOk(s', c) {
      assert CallOk(s, c);
      assert Bystander(s, s', c);
      BystanderOk(s, s', c);
    }
    forall x: SimId | x < |s'.heap| ensures SimOk(s', x) {
      if x != sim {
        SimKept(s, s', x);
      }
    }
  }

  ghost predicate SimOk'(s: State, sim: SimId) {
    sim < |s.heap| && SimOk(s, sim)
  }

  lemma ResetStep(s: State, step: Step)
    requires Inv(s) && (step.Reset? || step.Tick?) && Enabled(s, step)
    ensures Inv(Apply(s, step))
  {
    var s' := Apply(s, step);
    forall c | c in s'.calls ensures CallOk(s', c) {
      assert CallOk(s, c);
      assert Bystander(s, s', c);
      BystanderOk(s, s', c);
    }
    forall x: SimId | x < |s'.heap| ensures SimOk(s', x) {
      SimKept(s, s', x);
    }
  }

  lemma StepKeepsInv(s: State, step: Step)
    requires Inv(s) && Enabled(s, step)
    ensures Inv(Apply(s, step))
  {
    match step
    case Ask(c, input, noTimeout) => AskStep(s, c, input, noTimeout);
    case Acquire(c) => AcquireStep(s, c);
    case Wake(c) => WakeStep(s, c);
    case Act(c) => ActStep(s, c);
    case Work(sim, result) => WorkStep(s, sim, result);
    case Reset => ResetStep(s, step);
    case Tick(_) => ResetStep(s, step);
  }

  lemma {:induction false} ReachableInv(states: seq<State>, steps: seq<Step>, i: nat)
    requires IsRun(states, steps) && i < |states|
    ensures Inv(states[i]) && (states[i].lock.Some? ==> states[i].lock.value in states[i].calls)
  {
    if i > 0 {
      ReachableInv(states, steps, i - 1);
      assert Taken(states, steps, i - 1);
      StepKeepsInv(states[i - 1], steps[i - 1]);
    }
  }

  // ----- what follows for every interleaving

  /** Whenever the lock is free the cache holds at most four states, one for a key. */
  lemma CacheIsBounded(states: seq<State>, steps: seq<Step>, i: nat)
    requires IsRun(states, steps) && i < |states| && states[i].lock.None?
    ensures |states[i].cache| <= MAX_CACHED_KEYS && DistinctEntries(states[i].cache)
  {
    ReachableInv(states, steps, i);
  }

  /** A request gives the lock back with the state it returns in the cache, filed under
      the request's key. */
  lemma ReturnedStateIsCached(states: seq<State>, steps: seq<Step>, i: nat, c: Caller)
    requires IsRun(states, steps) && i < |steps| && states[i].lock == Some(c) && states[i + 1].lock == None
    ensures var s := states[i + 1];
      && c in s.calls && (s.calls[c].phase.Reading? || s.calls[c].phase.Launching?)
      && s.calls[c].phase.sim < |s.heap| && Entry(KeyOf(s.calls[c].input), s.calls[c].phase.sim) in s.cache
  {
    ReachableInv(states, steps, i);
    assert Taken(states, steps, i);
    OnlyHolderUnlocks(states[i], steps[i], c);
    HeldIsCached(states[i], c);
    StepGrows(states[i], steps[i]);
    ActCalls(states[i], c, c);
  }

  /** The state a call holds as it leaves the lock section is cached under its key. */
  lemma HeldIsCached(s: State, c: Caller)
    requires CallsOk(s) && c in s.calls && (s.calls[c].phase.Retesting? || s.calls[c].phase.Trimming?)
    ensures s.calls[c].phase.sim < |s.heap| && Entry(KeyOf(s.calls[c].input), s.calls[c].phase.sim) in s.cache
  {
    assert CallOk(s, c);
  }

  lemma OnlyHolderUnlocks(s: State, step: Step, c: Caller)
    requires Inv(s) && Enabled(s, step) && s.lock == Some(c) && Apply(s, step).lock == None
    ensures step == Act(c) && (s.calls[c].phase.Retesting? || s.calls[c].phase.Trimming?)
    ensures Apply(s, step).cache == s.cache
    ensures Apply(s, step).calls[c].phase == Reading(s.calls[c].phase.sim) ||
        Apply(s, step).calls[c].phase == Launching(s.calls[c].phase.sim)
  {
    if step.Work? {
      WorkShape(s, step.sim, step.result);
    }
    if step.Act? {
      assert CallOk(s, step.caller);
    }
    assert CallOk(s, c);
  }

  /** A caller that gets "ready" gets the stats of a completed simulation of an input
      with its own key; one that gets "failed" has a failed state of its own key; a caller
      that waits without a timeout never gets "pending"; and "empty" is for exactly those
      without a job. */
  lemma OutcomesAreSound(states: seq<State>, steps: seq<Step>, i: nat, c: Caller)
    requires IsRun(states, steps) && i < |states| && c in states[i].calls && states[i].calls[c].phase.Served?
    ensures var s, call := states[i], states[i].calls[c];
      && (call.phase.outcome.OutcomeReady? ==>
            exists k :: 0 <= k < |s.ran| && KeyOf(s.ran[k].input) == KeyOf(call.input) &&
                s.ran[k].stats == call.phase.outcome.stats)
      && (call.phase.outcome.OutcomeFailed? ==>
            exists sim :: 0 <= sim < |s.heap| && s.heap[sim].key == KeyOf(call.input) && s.heap[sim].status == Failed)
      && (call.phase.outcome.OutcomePending? ==> !call.noTimeout)
      && (call.phase.outcome.OutcomeEmpty? <==> call.input.snap.jobs == [])
  {
    ReachableInv(states, steps, i);
    assert CallOk(states[i], c);
  }

  lemma {:induction false} GrowsUntil(states: seq<State>, steps: seq<Step>, i: nat, j: nat, sim: SimId)
    requires IsRun(states, steps) && i <= j < |states| && sim < |states[i].heap|
    ensures sim < |states[j].heap| && SimGrows(states[i].heap[sim], states[j].heap[sim])
  {
    if i < j {
      GrowsUntil(states, steps, i, j - 1, sim);
      GrowsOnce(states, steps, j - 1, sim);
      SimGrowsOn(states[i].heap[sim], states[j - 1].heap[sim], states[j].heap[sim]);
    }
  }

  lemma GrowsOnce(states: seq<State>, steps: seq<Step>, j: nat, sim: SimId)
    requires IsRun(states, steps) && j < |steps| && sim < |states[j].heap|
    ensures sim < |states[j + 1].heap| && SimGrows(states[j].heap[sim], states[j + 1].heap[sim])
  {
    ReachableInv(states, steps, j);
    assert Taken(states, steps, j);
    StepGrows(states[j], steps[j]);
  }

  lemma SimGrowsOn(a: Sim, b: Sim, c: Sim)
    requires SimGrows(a, b) && SimGrows(b, c)
    ensures SimGrows(a, c)
  {
  }

  /** A call that asks whether its state failed has seen that it is not ready. */
  lemma {:induction false} JudgedBefore(states: seq<State>, steps: seq<Step>, i: nat, c: Caller,
      sim: SimId) returns (j: nat)
    requires IsRun(states, steps) && i < |states| && c in states[i].calls && states[i].calls[c].phase == Doubting(sim)
    ensures j < i && JudgedUnready(states[j], c, sim) && states[j].calls[c].input == states[i].calls[c].input
  {
    assert Taken(states, steps, i - 1);
    j := i - 1;
    DoubtingComesFrom(states[j], steps[j], c, sim);
    if states[j].calls[c].phase == Doubting(sim) {
      j := JudgedBefore(states, steps, j, c, sim);
    }
  }

  ghost predicate JudgedUnready(s: State, c: Caller, sim: SimId) {
    c in s.calls && s.calls[c].phase == Judging(sim) && sim < |s.heap| && s.heap[sim].status != Ready
  }

  lemma DoubtingComesFrom(s: State, step: Step, c: Caller, sim: SimId)
    requires Enabled(s, step) && c in Apply(s, step).calls && Apply(s, step).calls[c].phase == Doubting(sim)
    ensures c in s.calls && s.calls[c].input == Apply(s, step).calls[c].input
    ensures s.calls[c].phase == Doubting(sim) || JudgedUnready(s, c, sim)
  {
    if step.Work? {
      WorkShape(s, step.sim, step.result);
    } else if step.Act? {
      ActCalls(s, step.caller, c);
      ActDoubts(s, step.caller, sim);
    }
  }

  lemma ActDoubts(s: State, c: Caller, sim: SimId)
    requires Enabled(s, Act(c)) && c in Advance(s, c).calls
    ensures Advance(s, c).calls[c].phase == Doubting(sim) ==> JudgedUnready(s, c, sim)
  {
  }

  lemma PendingComesFrom(s: State, step: Step, c: Caller)
    requires Enabled(s, step) && c in Apply(s, step).calls && Apply(s, step).calls[c].phase == Served(OutcomePending)
    ensures c in s.calls && s.calls[c].input == Apply(s, step).calls[c].input
    ensures s.calls[c].phase == Served(OutcomePending)
      || (s.calls[c].phase.Doubting? && s.calls[c].phase.sim < |s.heap| && s.heap[s.calls[c].phase.sim].status != Failed)
  {
    if step.Work? {
      WorkShape(s, step.sim, step.result);
    } else if step.Act? {
      ActCalls(s, step.caller, c);
    }
  }

  /** The call of `c` after a step of `d`. */
  lemma ActCalls(s: State, d: Caller, c: Caller)
    requires Enabled(s, Act(d))
    ensures c != d ==> (c in Advance(s, d).calls <==> c in s.calls)
    ensures c != d && c in s.calls ==> Advance(s, d).calls[c] == s.calls[c]
    ensures d in Advance(s, d).calls && Advance(s, d).calls[d].input == s.calls[d].input
    ensures Advance(s, d).calls[d].phase == Served(OutcomePending) ==>
              s.calls[d].phase.Doubting? && s.heap[s.calls[d].phase.sim].status != Failed
  {
  }

  /** A caller that gets "pending" was looking at a running simulation of its own key when
      it gave up waiting, at step `j`. */
  lemma {:induction false} PendingWasRunning(states: seq<State>, steps: seq<Step>, i: nat, c: Caller)
    returns (j: nat, sim: SimId)
    requires IsRun(states, steps) && i < |states| && c in states[i].calls
    requires states[i].calls[c].phase == Served(OutcomePending)
    ensures j < i && c in states[j].calls && states[j].calls[c].phase == Judging(sim) && sim < |states[j].heap|
    ensures states[j].heap[sim].status == Running && states[j].heap[sim].key == KeyOf(states[i].calls[c].input)
  {
    assert Taken(states, steps, i - 1);
    PendingComesFrom(states[i - 1], steps[i - 1], c);
    if states[i - 1].calls[c].phase == Served(OutcomePending) {
      j, sim := PendingWasRunning(states, steps, i - 1, c);
    } else {
      sim := states[i - 1].calls[c].phase.sim;
      j := RunningBefore(states, steps, i - 1, c, sim);
    }
  }

  /** A state that is not ready when its call judges it and has not failed when the call
      doubts it was running in between. */
  lemma RunningBefore(states: seq<State>, steps: seq<Step>, i: nat, c: Caller, sim: SimId) returns (j: nat)
    requires IsRun(states, steps) && i < |states| && c in states[i].calls && states[i].calls[c].phase == Doubting(sim)
    requires sim < |states[i].heap| && states[i].heap[sim].status != Failed
    ensures j < i && JudgedUnready(states[j], c, sim)
    ensures states[j].heap[sim].status == Running && states[j].heap[sim].key == KeyOf(states[i].calls[c].input)
  {
    j := JudgedBefore(states, steps, i, c, sim);
    GrowsUntil(states, steps, j, i, sim);
    JudgedIsBound(states, steps, j, c, sim);
  }

  lemma JudgedIsBound(states: seq<State>, steps: seq<Step>, j: nat, c: Caller, sim: SimId)
    requires IsRun(states, steps) && j < |states| && c in states[j].calls && states[j].calls[c].phase == Judging(sim)
    ensures sim < |states[j].heap| && states[j].heap[sim].key == KeyOf(states[j].calls[c].input)
  {
    ReachableInv(states, steps, j);
    assert CallOk(states[j], c);
  }

  /** A state is stamped with the time at which its worker, done with the simulation,
      writes it, at step `j`. */
  lemma {:induction false} StampedByTheClock(states: seq<State>, steps: seq<Step>, i: nat, sim: SimId) returns (j: nat)
    requires IsRun(states, steps) && i < |states| && sim < |states[i].heap| && states[i].heap[sim].finishedAt.Some?
    ensures j < i && Stamps(states[j], steps[j], sim) && states[i].heap[sim].finishedAt == Some(states[j].clock)
  {
    assert Taken(states, steps, i - 1);
    j := i - 1;
    StampComesFrom(states[j], steps[j], sim);
    if !(Stamps(states[j], steps[j], sim) && states[i].heap[sim].finishedAt == Some(states[j].clock)) {
      j := StampedByTheClock(states, steps, j, sim);
    }
  }

  ghost predicate Stamps(s: State, step: Step, sim: SimId) {
    step.Work? && step.sim == sim && sim in s.workers && s.workers[sim].Stamping?
  }

  lemma StampComesFrom(s: State, step: Step, sim: SimId)
    requires Enabled(s, step) && sim < |Apply(s, step).heap| && Apply(s, step).heap[sim].finishedAt.Some?
    ensures var at := Apply(s, step).heap[sim].finishedAt;
      || (Stamps(s, step, sim) && at == Some(s.clock))
      || (sim < |s.heap| && s.heap[sim].finishedAt == at)
  {
    if step.Work? {
      WorkStamps(s, step.sim, step.result, sim);
    } else if step.Act? {
      ActStamps(s, step.caller, sim);
    }
  }

  lemma WorkStamps(s: State, worker: SimId, result: Option<Stats>, sim: SimId)
    requires worker in s.workers && worker < |s.heap| && sim < |s.heap|
    ensures Worked(s, worker, result).heap[sim].finishedAt ==
              if sim == worker && s.workers[sim].Stamping? then Some(s.clock) else s.heap[sim].finishedAt
  {
  }

  lemma ActStamps(s: State, c: Caller, sim: SimId)
    requires Enabled(s, Act(c)) && sim < |Advance(s, c).heap|
    ensures sim < |s.heap| ==> Advance(s, c).heap[sim] == s.heap[sim]
    ensures sim >= |s.heap| ==> Advance(s, c).heap[sim].finishedAt == None
  {
  }

  /** With unique job names, that simulation ran on the caller's own job definitions;
      only the other tables of the snapshot may differ. */
  lemma ReadyStatsFitTheJobs(states: seq<State>, steps: seq<Step>, i: nat, c: Caller) returns (k: nat)
    requires IsRun(states, steps) && i < |states| && c in states[i].calls && states[i].calls[c].phase.Served?
    requires states[i].calls[c].phase.outcome.OutcomeReady?
    requires UniqueRows(states[i].calls[c].input.snap.jobs)
    requires forall k :: 0 <= k < |states[i].ran| ==> UniqueRows(states[i].ran[k].input.snap.jobs)
    ensures k < |states[i].ran|
    ensures var mine, ran := states[i].calls[c].input, states[i].ran[k].input;
      && states[i].ran[k].stats == states[i].calls[c].phase.outcome.stats
      && SameJobs(ran.snap.jobs, mine.snap.jobs) && ran.cycles == mine.cycles && ran.seed == mine.seed
  {
    OutcomesAreSound(states, steps, i, c);
    var s, call := states[i], states[i].calls[c];
    k :| 0 <= k < |s.ran| && KeyOf(s.ran[k].input) == KeyOf(call.input) && s.ran[k].stats == call.phase.outcome.stats;
    BlobIsCanonicalIff(s.ran[k].input.snap.jobs, call.input.snap.jobs);
  }

  /** A new state for a key is created only while no cached state of that key is
      running or ready. */
  lemma NoSecondWorker(states: seq<State>, steps: seq<Step>, i: nat, sim: SimId)
    requires IsRun(states, steps) && i < |steps| && |states[i].heap| <= sim < |states[i + 1].heap|
    ensures NoneBusy(states[i], states[i + 1].heap[sim].key)
  {
    ReachableInv(states, steps, i);
    assert Taken(states, steps, i);
    var s, step := states[i], steps[i];
    if step.Work? {
      WorkShape(s, step.sim, step.result);
    }
    if step.Act? {
      assert CallOk(s, step.caller);
    }
  }

  /** Steps of others leave a caller's call alone. */
  lemma CallStays(s: State, step: Step, c: Caller)
    requires Enabled(s, step) && c in s.calls && step != Act(c)
    requires !s.calls[c].phase.Wanting? && !s.calls[c].phase.Waiting?
    ensures var s' := Apply(s, step); c in s'.calls && s'.calls[c] == s.calls[c]
  {
    if step.Work? {
      WorkShape(s, step.sim, step.result);
    }
  }

  lemma {:induction false} CallStaysUntil(states: seq<State>, steps: seq<Step>, i: nat, j: nat, c: Caller)
    requires IsRun(states, steps) && i <= j <= |steps| && c in states[i].calls
    requires !states[i].calls[c].phase.Wanting? && !states[i].calls[c].phase.Waiting?
    requires forall k :: i <= k < j ==> steps[k] != Act(c)
    ensures c in states[j].calls && states[j].calls[c] == states[i].calls[c]
  {
    if i < j {
      CallStaysUntil(states, steps, i, j - 1, c);
      assert Taken(states, steps, j - 1);
      CallStays(states[j - 1], steps[j - 1], c);
    }
  }

  /** The state failed, and its failure is stamped less than a minute ago. */
  predicate FailedRecently(s: State, sim: SimId) {
    sim < |s.heap| && s.heap[sim].status == Failed && s.heap[sim].finishedAt.Some?
    && s.clock - s.heap[sim].finishedAt.value < RETRY_FAILED_AFTER_S
  }

  /** A request that finds a state, reads it at step `i` and again at step `j`, replaces
      it exactly if it has failed by the second read and was not found recently failed by
      the first.  So a failure that is not stamped yet, or comes between the reads, is
      retried at once. */
  lemma FailureIsRetriedIff(states: seq<State>, steps: seq<Step>, i: nat, j: nat, c: Caller, sim: SimId)
    requires IsRun(states, steps) && i < j < |steps| && steps[i] == Act(c) && steps[j] == Act(c)
    requires c in states[i].calls && states[i].calls[c].phase == Testing(sim)
    requires forall k :: i < k < j ==> steps[k] != Act(c)
    ensures sim < |states[j].heap| && c in states[j + 1].calls
    ensures states[j + 1].calls[c].phase ==
              if states[j].heap[sim].status == Failed && !FailedRecently(states[i], sim) then Inserting else Reading(sim)
  {
    assert Taken(states, steps, i) && Taken(states, steps, j);
    CallStaysUntil(states, steps, i + 1, j, c);
  }

  /** Single flight: as long as a state stays cached and has not failed, no other state
      is created for its key. */
  lemma {:induction false} SingleFlight(states: seq<State>, steps: seq<Step>, i: nat, j: nat, key: Key, sim: SimId,
                                        other: SimId)
    requires IsRun(states, steps) && i <= j < |states|
    requires forall k :: i <= k <= j ==>
        Cached(states[k], key, sim) && sim < |states[k].heap| && states[k].heap[sim].status != Failed
    requires |states[i].heap| <= other < |states[j].heap|
    ensures states[j].heap[other].key != key
  {
    ReachableInv(states, steps, j - 1);
    assert Taken(states, steps, j - 1);
    if other < |states[j - 1].heap| {
      SingleFlight(states, steps, i, j - 1, key, sim, other);
      StepGrows(states[j - 1], steps[j - 1]);
    } else {
      NoSecondWorker(states, steps, j - 1, other);
      var k :| 0 <= k < |states[j - 1].cache| && states[j - 1].cache[k] == Entry(key, sim);
    }
  }

  lemma StepGrows(s: State, step: Step)
    requires Inv(s) && Enabled(s, step)
    ensures Grows(s, Apply(s, step))
  {
    if step.Work? {
      WorkedSim(s, step.sim, step.result);
    } else if step.Act? {
      ActGrows(s, step.caller);
    }
  }

  lemma ActGrows(s: State, c: Caller)
    requires Enabled(s, Act(c))
    ensures Grows(s, Advance(s, c))
  {
    if s.calls[c].phase.Inserting? {
      InsertGrows(s, c);
    }
  }

  lemma InsertGrows(s: State, c: Caller)
    requires c in s.calls
    ensures Grows(s, Insert(s, c))
  {
  }
}
