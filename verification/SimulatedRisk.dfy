/** The single-flight cache of risk simulations: requests under a lock, workers and
    waiting readers outside it (autosys/analysis/simulated_risk.py). */
module SimulatedRisk {
  import opened OperationalRisk
  import opened Options
  import opened SnapshotKey

  type Caller = nat

  /** The position of a state object in the heap. */
  type SimId = nat

  type Stats = map<string, RunStats>

  /** A snapshot: the job rows, and the calendars, globals, machines and resources. */
  datatype Snapshot = Snapshot(jobs: seq<Row>, rest: string)

  datatype SimStatus = Running | Ready | Failed

  const MAX_CACHED_KEYS: nat := 4
  const RETRY_FAILED_AFTER_S: int := 60

  /** What a simulation is run on. */
  datatype Input = Input(snap: Snapshot, cycles: int, seed: int)

  /** `_SimState`; `input` (the worker's arguments) and `creator` (the caller that created
      it) are history only. */
  datatype Sim = Sim(key: Key, status: SimStatus, finishedAt: Option<int>, stats: Stats, done: bool,
                     input: Input, creator: Caller)

  /** What the worker does next. */
  datatype WorkerPhase =
    | Simulating             // run the simulation, store its stats
    | Publishing(ok: bool)   // write `status`
    | Stamping               // write `finished_at`
    | Signalling             // set `done`

  datatype Outcome = OutcomeReady(stats: Stats) | OutcomePending | OutcomeFailed | OutcomeEmpty

  /** What a call of `ensure_simulation` does next.  Reads of a state's `status` are
      separate steps, because its worker writes without the lock. */
  datatype CallPhase =
    | Wanting                                  // wait for the lock
    | Looking                                  // lock held: `_states.get`
    | Testing(sim: SimId)                      // lock held: failed, and recently?
    | Retesting(sim: SimId, recent: bool)      // lock held: running, ready or failed recently?
    | Inserting                                // lock held: a new state enters the cache
    | Trimming(sim: SimId)                     // lock held: evict while there are too many
    | Launching(sim: SimId)                    // start the worker
    | Reading(sim: SimId)                      // running?
    | Waiting(sim: SimId)                      // `done.wait`
    | Judging(sim: SimId)                      // ready?
    | Doubting(sim: SimId)                     // failed?
    | Served(outcome: Outcome)

  datatype Call = Call(input: Input, noTimeout: bool, phase: CallPhase)

  datatype Entry = Entry(key: Key, sim: SimId)

  /** A simulation that returned (history only). */
  datatype Ran = Ran(input: Input, stats: Stats)

  /** `cache` is `_states` in insertion order. */
  datatype State = State(cache: seq<Entry>, heap: seq<Sim>, workers: map<SimId, WorkerPhase>,
                         lock: Option<Caller>, calls: map<Caller, Call>, clock: int, ran: seq<Ran>)

  datatype Step =
    | Ask(caller: Caller, input: Input, noTimeout: bool)
    | Acquire(caller: Caller)
    | Wake(caller: Caller)                            // `done` is set, or the wait times out
    | Act(caller: Caller)
    | Work(sim: SimId, result: Option<Stats>)         // None: the simulation raised
    | Reset                                           // `reset_cache`
    | Tick(now: int)

  function KeyOf(input: Input): Key {
    Key(Blob(input.snap.jobs), input.cycles, input.seed)
  }

  predicate InLock(p: CallPhase) {
    p.Looking? || p.Testing? || p.Retesting? || p.Inserting? || p.Trimming?
  }

  predicate HasSim(p: CallPhase) {
    !p.Wanting? && !p.Looking? && !p.Inserting? && !p.Served?
  }

  /** The phases of calls hold positions in the heap (an invariant, needed to read it). */
  predicate Enabled(s: State, step: Step) {
    match step
    case Ask(c, _, _) => c !in s.calls
    case Acquire(c) => c in s.calls && s.calls[c].phase.Wanting? && s.lock.None?
    case Wake(c) =>
      && c in s.calls && s.calls[c].phase.Waiting? && s.calls[c].phase.sim < |s.heap|
      && (s.heap[s.calls[c].phase.sim].done || !s.calls[c].noTimeout)
    case Act(c) =>
      && c in s.calls && !s.calls[c].phase.Wanting? && !s.calls[c].phase.Waiting? && !s.calls[c].phase.Served?
      && (HasSim(s.calls[c].phase) ==> s.calls[c].phase.sim < |s.heap|)
    case Work(sim, _) => sim in s.workers && sim < |s.heap|
    case Reset => s.lock.None?
    case Tick(_) => true
  }

  function Goto(s: State, c: Caller, phase: CallPhase): State
    requires c in s.calls
  {
    s.(calls := s.calls[c := s.calls[c].(phase := phase)])
  }

  function Find(cache: seq<Entry>, key: Key): Option<SimId> {
    if cache == [] then None
    else if cache[0].key == key then Some(cache[0].sim)
    else Find(cache[1..], key)
  }

  /** `_states[key] = state`: a known key keeps its place. */
  function Put(cache: seq<Entry>, e: Entry): seq<Entry> {
    if cache == [] then [e]
    else if cache[0].key == e.key then [e] + cache[1..]
    else [cache[0]] + Put(cache[1..], e)
  }

  function LookUp(s: State, c: Caller): State
    requires c in s.calls
  {
    var found := Find(s.cache, KeyOf(s.calls[c].input));
    Goto(s, c, if found.Some? then Testing(found.value) else Inserting)
  }

  function FirstRead(s: State, c: Caller, sim: SimId): State
    requires c in s.calls && sim < |s.heap|
  {
    var state := s.heap[sim];
    Goto(s, c, Retesting(sim, state.status == Failed && state.finishedAt.Some? &&
                              s.clock - state.finishedAt.value < RETRY_FAILED_AFTER_S))
  }

  function SecondRead(s: State, c: Caller, sim: SimId, recent: bool): State
    requires c in s.calls && sim < |s.heap|
  {
    if s.heap[sim].status == Running || s.heap[sim].status == Ready || recent
    then Goto(s, c, Reading(sim)).(lock := None)
    else Goto(s, c, Inserting)
  }

  function NewSim(input: Input, creator: Caller): Sim {
    Sim(KeyOf(input), Running, None, map[], false, input, creator)
  }

  function Insert(s: State, c: Caller): State
    requires c in s.calls
  {
    var sim := NewSim(s.calls[c].input, c);
    Goto(s, c, Trimming(|s.heap|)).(heap := s.heap + [sim], cache := Put(s.cache, Entry(sim.key, |s.heap|)))
  }

  function Trim(s: State, c: Caller, sim: SimId): State
    requires c in s.calls
  {
    if |s.cache| > MAX_CACHED_KEYS then s.(cache := s.cache[1..])
    else Goto(s, c, Launching(sim)).(lock := None)
  }

  function Launch(s: State, c: Caller, sim: SimId): State
    requires c in s.calls
  {
    Goto(s, c, Reading(sim)).(workers := s.workers[sim := Simulating])
  }

  function Read(s: State, c: Caller, sim: SimId): State
    requires c in s.calls && sim < |s.heap|
  {
    Goto(s, c, if s.heap[sim].status == Running then Waiting(sim) else Judging(sim))
  }

  function Judge(s: State, c: Caller, sim: SimId): State
    requires c in s.calls && sim < |s.heap|
  {
    Goto(s, c, if s.heap[sim].status == Ready then Served(OutcomeReady(s.heap[sim].stats)) else Doubting(sim))
  }

  function Doubt(s: State, c: Caller, sim: SimId): State
    requires c in s.calls && sim < |s.heap|
  {
    Goto(s, c, Served(if s.heap[sim].status == Failed then OutcomeFailed else OutcomePending))
  }

  function Advance(s: State, c: Caller): State
    requires Enabled(s, Act(c))
  {
    match s.calls[c].phase
    case Looking => LookUp(s, c)
    case Testing(sim) => FirstRead(s, c, sim)
    case Retesting(sim, recent) => SecondRead(s, c, sim, recent)
    case Inserting => Insert(s, c)
    case Trimming(sim) => Trim(s, c, sim)
    case Launching(sim) => Launch(s, c, sim)
    case Reading(sim) => Read(s, c, sim)
    case Judging(sim) => Judge(s, c, sim)
    case Doubting(sim) => Doubt(s, c, sim)
  }

  /** One step of the worker of `sim`. */
  function Worked(s: State, sim: SimId, result: Option<Stats>): State
    requires sim in s.workers && sim < |s.heap|
  {
    var state := s.heap[sim];
    match s.workers[sim]
    case Simulating =>
      if result.Some?
      then s.(heap := s.heap[sim := state.(stats := result.value)], ran := s.ran + [Ran(state.input, result.value)],
              workers := s.workers[sim := Publishing(true)])
      else s.(workers := s.workers[sim := Publishing(false)])
    case Publishing(ok) =>
      s.(heap := s.heap[sim := state.(status := if ok then Ready else Failed)], workers := s.workers[sim := Stamping])
    case Stamping =>
      s.(heap := s.heap[sim := state.(finishedAt := Some(s.clock))], workers := s.workers[sim := Signalling])
    case Signalling =>
      s.(heap := s.heap[sim := state.(done := true)], workers := s.workers - {sim})
  }

  function Apply(s: State, step: Step): State
    requires Enabled(s, step)
  {
    match step
    case Ask(c, input, noTimeout) =>
      s.(calls := s.calls[c := Call(input, noTimeout, if input.snap.jobs == [] then Served(OutcomeEmpty) else Wanting)])
    case Acquire(c) => Goto(s, c, Looking).(lock := Some(c))
    case Wake(c) => Goto(s, c, Judging(s.calls[c].phase.sim))
    case Act(c) => Advance(s, c)
    case Work(sim, result) => Worked(s, sim, result)
    case Reset => s.(cache := [])
    case Tick(now) => s.(clock := now)
  }

  ghost predicate Init(s: State) {
    s == State([], [], map[], None, map[], s.clock, [])
  }

  ghost predicate IsRun(states: seq<State>, steps: seq<Step>) {
    && |states| == |steps| + 1 && Init(states[0])
    && forall i :: 0 <= i < |steps| ==> Taken(states, steps, i)
  }

  ghost predicate Taken(states: seq<State>, steps: seq<Step>, i: int)
    requires |states| == |steps| + 1 && 0 <= i < |steps|
  {
    Enabled(states[i], steps[i]) && states[i + 1] == Apply(states[i], steps[i])
  }
}
