/** Charging a dependency chain once, at the box it ends at
    (autosys/analysis/complexity.py, `build_report` and `score_job`). */
module ChainCharging {
  import opened DependencyGraph
  import opened DependencyPaths
  import opened Permutations

  const WAVE_DEPTH_L_THRESHOLD := 4
  const WAVE_DEPTH_XL_THRESHOLD := 7

  datatype ChainDriver = NoDriver | DriverL | DriverXL

  /** The chain branch of `score_job`. */
  function ScoreChain(depth: int, interior: bool): ChainDriver {
    if depth >= WAVE_DEPTH_XL_THRESHOLD && !interior then DriverXL
    else if depth >= WAVE_DEPTH_L_THRESHOLD then DriverL
    else NoDriver
  }

  /** `n` is upstream of a job in `deep`. */
  ghost predicate Interior(e: Estate, deep: set<Name>, n: Name) {
    exists s :: s in deep && Reaches(e, s, n)
  }

  ghost predicate Charged(e: Estate, deep: set<Name>, n: Name) {
    n in deep && !Interior(e, deep, n)
  }

  /** Every deep job pays for its chain or lies upstream of one that does. */
  ghost predicate EveryChainCharged(e: Estate, deep: set<Name>) {
    forall d :: d in deep ==> Charged(e, deep, d) || exists c :: Charged(e, deep, c) && Reaches(e, c, d)
  }

  /** A deep job on a cycle which no deep job outside that cycle waits for. */
  ghost predicate TerminalCycle(e: Estate, deep: set<Name>, t: Name) {
    && t in deep && Reaches(e, t, t)
    && forall r :: r in deep && Reaches(e, r, t) ==> Reaches(e, t, r)
  }

  ghost function Downstream(e: Estate, deep: set<Name>, d: Name): set<Name> {
    set r | r in deep && (r == d || Reaches(e, r, d))
  }

  /** No chain goes uncharged exactly when no chain ends in a cycle; this holds
      for every graph and every choice of deep jobs. */
  lemma EveryChainChargedIff(e: Estate, deep: set<Name>)
    ensures EveryChainCharged(e, deep) <==> !exists t :: TerminalCycle(e, deep, t)
  {
    if t :| TerminalCycle(e, deep, t) {
      forall c | Charged(e, deep, c) ensures !Reaches(e, c, t) {
      }
      assert Interior(e, deep, t);
    } else {
      forall d | d in deep
        ensures Charged(e, deep, d) || exists c :: Charged(e, deep, c) && Reaches(e, c, d)
      {
        ChainEndIsCharged(e, deep, d);
      }
    }
  }

  lemma {:induction false} ChainEndIsCharged(e: Estate, deep: set<Name>, d: Name)
    requires d in deep && forall t :: !TerminalCycle(e, deep, t)
    ensures Charged(e, deep, d) || exists c :: Charged(e, deep, c) && Reaches(e, c, d)
    decreases Downstream(e, deep, d)
  {
    if !Charged(e, deep, d) {
      var s :| s in deep && Reaches(e, s, d);
      if Reaches(e, d, s) {
        ReachesTransitive(e, d, s, d);
      }
      assert exists r :: r in deep && Reaches(e, r, d) && !Reaches(e, d, r) by {
        assert !TerminalCycle(e, deep, d);
      }
      var r :| r in deep && Reaches(e, r, d) && !Reaches(e, d, r);
      forall x | x in Downstream(e, deep, r) ensures x in Downstream(e, deep, d) {
        if x != r {
          ReachesTransitive(e, x, r, d);
        }
      }
      assert d in Downstream(e, deep, d) && d !in Downstream(e, deep, r);
      ChainEndIsCharged(e, deep, r);
      if !Charged(e, deep, r) {
        var c :| Charged(e, deep, c) && Reaches(e, c, r);
        ReachesTransitive(e, c, r, d);
      }
    }
  }

  // ------------------------------------------------------------------
  // The report's root scope
  // ------------------------------------------------------------------

  /** What the depths of a report are, on every graph: a longest path where there is
      one, and deeper than every dependency that does not lead back. */
  ghost predicate Depths(e: Estate, depth: map<Name, int>) {
    && depth.Keys == e.scope
    && (forall n :: n in depth ==> (IsLongest(e, n, depth[n]) <==> Grounded(e, n)))
    && (forall r, d :: r in depth && d in e.Deps(r) && !Reaches(e, d, r) ==> depth[r] >= depth[d] + 1)
  }

  function DeepRoots(depth: map<Name, int>): set<Name> {
    set n | n in depth && depth[n] >= WAVE_DEPTH_XL_THRESHOLD
  }

  /** Interior jobs are exactly those deep jobs that some root job depends on, on
      every graph. */
  lemma InteriorIffReferenced(e: Estate, depth: map<Name, int>, n: Name)
    requires Depths(e, depth) && n in DeepRoots(depth)
    ensures Interior(e, DeepRoots(depth), n) <==> exists r :: r in e.scope && n in e.Deps(r)
  {
    var deep := DeepRoots(depth);
    if Interior(e, deep, n) {
      var s :| s in deep && Reaches(e, s, n);
      var r := LastEdge(e, s, n);
    } else if r :| r in e.scope && n in e.Deps(r) {
      ReachesStep(e, r, n);
      if Reaches(e, n, r) {
        ReachesTransitive(e, n, r, n);
      }
    }
  }

  /** The XL driver lands exactly on the deep root jobs no other root job's condition
      references; unless a chain ends in a cycle, every other deep root job lies
      upstream of one of them. */
  lemma XLDriverOnChainEnds(e: Estate, depth: map<Name, int>, interior: set<Name>, n: Name)
    requires Depths(e, depth) && n in e.scope
    requires forall x :: x in interior <==> Interior(e, DeepRoots(depth), x)
    ensures ScoreChain(depth[n], n in interior) == DriverXL <==>
      (depth[n] >= 7 && forall r :: r in e.scope ==> n !in e.Deps(r))
    ensures ScoreChain(depth[n], n in interior) == DriverL <==>
      4 <= depth[n] && (depth[n] < 7 || exists r :: r in e.scope && n in e.Deps(r))
    ensures depth[n] >= WAVE_DEPTH_XL_THRESHOLD && n in interior &&
            (forall t :: !TerminalCycle(e, DeepRoots(depth), t)) ==>
      exists c :: c in e.scope && ScoreChain(depth[c], c in interior) == DriverXL && Reaches(e, c, n)
  {
    var deep := DeepRoots(depth);
    if n in deep {
      InteriorIffReferenced(e, depth, n);
      if n in interior && forall t :: !TerminalCycle(e, deep, t) {
        EveryChainChargedIff(e, deep);
        var c :| Charged(e, deep, c) && Reaches(e, c, n);
        assert c in e.scope && ScoreChain(depth[c], c in interior) == DriverXL;
      }
    }
  }

  /** Depths of the top-level jobs, with one shared memo. */
  method RootDepths(e: Estate, boxes: seq<Name>) returns (depth: map<Name, int>)
    requires NoDup(boxes)
    ensures depth.Keys == ToSet(boxes)
    ensures forall i :: 0 <= i < |boxes| ==> depth[boxes[i]] == WaveRun(e, boxes, map[]).0[i]
  {
    var table := new WaveTable();
    depth := map[];
    for i := 0 to |boxes|
      invariant table.visiting == {} && RootsDone(e, boxes, i, table.memo, depth)
    {
      ghost var memo := table.memo;
      var wave, _, _ := table.DependencyWave(e, boxes[i]);
      RootsStep(e, boxes, i, memo, depth, wave, table.memo);
      depth := depth[boxes[i] := wave];
    }
    assert boxes[..|boxes|] == boxes;
  }

  /** The depths after `i` calls, and the memo they leave. */
  ghost predicate RootsDone(e: Estate, boxes: seq<Name>, i: nat, memo: Memo, depth: map<Name, int>) {
    && i <= |boxes| && depth.Keys == ToSet(boxes[..i]) && WaveRun(e, boxes[..i], map[]).1 == memo
    && forall j :: 0 <= j < i ==> boxes[j] in depth && depth[boxes[j]] == WaveRun(e, boxes[..i], map[]).0[j]
  }

  lemma RootsStep(e: Estate, boxes: seq<Name>, i: nat, memo: Memo, depth: map<Name, int>, wave: int, memo': Memo)
    requires NoDup(boxes) && i < |boxes| && RootsDone(e, boxes, i, memo, depth)
    requires (wave, memo') == Wave(e, boxes[i], memo, {})
    ensures RootsDone(e, boxes, i + 1, memo', depth[boxes[i] := wave])
  {
    var ws := WaveRun(e, boxes[..i], map[]).0;
    WaveRunAppend(e, boxes[..i], boxes[i], map[]);
    assert boxes[..i + 1] == boxes[..i] + [boxes[i]];
    DepthsGrow(boxes, i, ws, wave, depth);
  }

  lemma DepthsGrow(boxes: seq<Name>, i: nat, ws: seq<int>, wave: int, depth: map<Name, int>)
    requires NoDup(boxes) && i < |boxes| && |ws| == i && depth.Keys == ToSet(boxes[..i])
    requires forall j :: 0 <= j < i ==> boxes[j] in depth && depth[boxes[j]] == ws[j]
    ensures depth[boxes[i] := wave].Keys == ToSet(boxes[..i + 1])
    ensures forall j :: 0 <= j < i + 1 ==> depth[boxes[i] := wave][boxes[j]] == (ws + [wave])[j]
  {
    assert boxes[..i + 1] == boxes[..i] + [boxes[i]];
  }

  /** The root scope of a report: the depths of the top-level jobs and the jobs
      upstream of a deep one, with or without cycles. */
  method RootChains(conditions: map<Name, seq<Name>>, boxes: seq<Name>)
    returns (depth: map<Name, int>, interior: set<Name>)
    requires NoDup(boxes)
    ensures var e := Estate(conditions, ToSet(boxes));
      && depth.Keys == e.scope
      && (forall i :: 0 <= i < |boxes| ==> depth[boxes[i]] == WaveRun(e, boxes, map[]).0[i])
      && (forall n :: n in interior <==> Interior(e, DeepRoots(depth), n))
      && Depths(e, depth)
  {
    var e := Estate(conditions, ToSet(boxes));
    depth := RootDepths(e, boxes);
    var deep := [];
    for i := 0 to |boxes|
      invariant forall n :: n in deep <==> n in boxes[..i] && depth[n] >= WAVE_DEPTH_XL_THRESHOLD
    {
      assert boxes[..i + 1] == boxes[..i] + [boxes[i]];
      if depth[boxes[i]] >= WAVE_DEPTH_XL_THRESHOLD {
        deep := deep + [boxes[i]];
      }
    }
    interior := UpstreamClosure(e, deep);
    RunGivesDepths(e, boxes, depth);
  }

  lemma RunGivesDepths(e: Estate, boxes: seq<Name>, depth: map<Name, int>)
    requires e.scope == ToSet(boxes) == depth.Keys
    requires forall i :: 0 <= i < |boxes| ==> depth[boxes[i]] == WaveRun(e, boxes, map[]).0[i]
    ensures Depths(e, depth)
  {
    var memo := WaveRun(e, boxes, map[]).1;
    WaveRunIsLongest(e, boxes, map[]);
    WaveRunIsLayered(e, boxes, map[]);
    forall n | n in depth
      ensures n in memo && depth[n] == memo[n] && (IsLongest(e, n, depth[n]) <==> Grounded(e, n)) {
      var i :| 0 <= i < |boxes| && boxes[i] == n;
    }
  }

  lemma {:induction false} WaveRunAppend(e: Estate, jobs: seq<Name>, job: Name, memo: Memo)
    ensures var (ws, memo1) := WaveRun(e, jobs, memo);
      var (w, memo2) := Wave(e, job, memo1, {});
      WaveRun(e, jobs + [job], memo) == (ws + [w], memo2)
  {
    var (w, memo2) := Wave(e, job, WaveRun(e, jobs, memo).1, {});
    if jobs == [] {
      assert WaveRun(e, (jobs + [job])[1..], memo2) == ([], memo2);
      assert [w] + [] == [] + [w];
    } else {
      assert (jobs + [job])[1..] == jobs[1..] + [job];
      var (w0, memo1) := Wave(e, jobs[0], memo, {});
      WaveRunAppend(e, jobs[1..], job, memo1);
      var ws := WaveRun(e, jobs[1..], memo1).0;
      assert [w0] + (ws + [w]) == ([w0] + ws) + [w];
    }
  }

  // ------------------------------------------------------------------
  // A root scope that is one cycle: deep, but charged to nobody
  // ------------------------------------------------------------------

  /** `ring` is the whole scope, each job waiting for the next one only. */
  ghost predicate Ring(e: Estate, ring: seq<Name>) {
    && |ring| >= 2 && NoDup(ring) && e.scope == ToSet(ring)
    && forall i :: 0 <= i < |ring| ==> e.Deps(ring[i]) == [ring[if i + 1 == |ring| then 0 else i + 1]]
  }

  lemma {:induction false} RingWave(e: Estate, ring: seq<Name>, i: nat)
    requires Ring(e, ring) && i < |ring|
    ensures Wave(e, ring[i], map[], ToSet(ring[..i])).0 == |ring| - i + 1
    decreases |ring| - i
  {
    var visiting := ToSet(ring[..i]);
    assert ring[..i + 1] == ring[..i] + [ring[i]];
    assert visiting + {ring[i]} == ToSet(ring[..i + 1]);
    WaveSingle(e, ring[i], ring[if i + 1 == |ring| then 0 else i + 1], map[], visiting);
    if i + 1 < |ring| {
      RingWave(e, ring, i + 1);
    }
  }

  lemma RingReaches(e: Estate, ring: seq<Name>, i: nat)
    requires Ring(e, ring) && i < |ring|
    ensures Reaches(e, ring[0], ring[i])
  {
    if i == 0 {
      assert Connects(e, ring + [ring[0]], ring[0], ring[0]);
    } else {
      assert Connects(e, ring[..i + 1], ring[0], ring[i]);
    }
  }

  lemma FirstOfRun(e: Estate, jobs: seq<Name>, memo: Memo)
    requires jobs != []
    ensures WaveRun(e, jobs, memo).0[0] == Wave(e, jobs[0], memo, {}).0
  {
  }

  lemma RingIsDeep(e: Estate, ring: seq<Name>)
    requires Ring(e, ring)
    ensures WaveRun(e, ring, map[]).0[0] == |ring| + 1
  {
    assert ToSet(ring[..0]) == {};
    RingWave(e, ring, 0);
    FirstOfRun(e, ring, map[]);
  }

  lemma RingIsInterior(e: Estate, ring: seq<Name>, deep: set<Name>)
    requires Ring(e, ring) && ring[0] in deep
    ensures forall n :: n in ring ==> Interior(e, deep, n) && Reaches(e, ring[0], n)
  {
    forall n | n in ring ensures Interior(e, deep, n) && Reaches(e, ring[0], n) {
      var i :| 0 <= i < |ring| && ring[i] == n;
      RingReaches(e, ring, i);
    }
  }

  lemma RingIsTerminal(e: Estate, ring: seq<Name>, deep: set<Name>)
    requires Ring(e, ring) && ring[0] in deep && deep <= ToSet(ring)
    requires forall n :: n in ring ==> Interior(e, deep, n) && Reaches(e, ring[0], n)
    ensures TerminalCycle(e, deep, ring[0])
  {
  }

  /** A ring of n boxes scores n + 1 where it is entered; from six boxes on that is
      deep, every box is upstream of it, and no box carries the XL driver. */
  lemma RingIsNotCharged(e: Estate, ring: seq<Name>, depth: map<Name, int>, interior: set<Name>)
    requires Ring(e, ring) && |ring| >= 6 && depth.Keys == e.scope
    requires depth[ring[0]] == WaveRun(e, ring, map[]).0[0]
    requires forall n :: n in interior <==> Interior(e, DeepRoots(depth), n)
    ensures depth[ring[0]] == |ring| + 1
    ensures forall n :: n in ring ==> ScoreChain(depth[n], n in interior) != DriverXL
    ensures TerminalCycle(e, DeepRoots(depth), ring[0])
  {
    RingIsDeep(e, ring);
    DeepRingIsNotCharged(e, ring, depth, interior);
  }

  lemma DeepRingIsNotCharged(e: Estate, ring: seq<Name>, depth: map<Name, int>, interior: set<Name>)
    requires Ring(e, ring) && depth.Keys == e.scope && depth[ring[0]] >= WAVE_DEPTH_XL_THRESHOLD
    requires forall n :: n in interior <==> Interior(e, DeepRoots(depth), n)
    ensures forall n :: n in ring ==> ScoreChain(depth[n], n in interior) != DriverXL
    ensures TerminalCycle(e, DeepRoots(depth), ring[0])
  {
    DeepRing(e, ring, DeepRoots(depth));
  }

  lemma DeepRing(e: Estate, ring: seq<Name>, deep: set<Name>)
    requires Ring(e, ring) && ring[0] in deep && deep <= e.scope
    ensures forall n :: n in ring ==> Interior(e, deep, n)
    ensures TerminalCycle(e, deep, ring[0])
  {
    RingIsInterior(e, ring, deep);
    RingIsTerminal(e, ring, deep);
  }
}
