/** What a wave means: paths through the condition references, and the exact
    closure computed by `upstream_closure` (autosys/analysis/dependency_graph.py). */
module DependencyPaths {
  import opened DependencyGraph

  /** Consecutive names of `p` are a job and one of its dependencies. */
  ghost predicate IsPath(e: Estate, p: seq<Name>) {
    && p != []
    && forall i :: 0 <= i < |p| - 1 ==> p[i + 1] in e.Deps(p[i])
  }

  ghost predicate PathFrom(e: Estate, p: seq<Name>, n: Name) {
    IsPath(e, p) && p[0] == n
  }

  /** A path from `a` to `b` with at least one edge. */
  ghost predicate Connects(e: Estate, p: seq<Name>, a: Name, b: Name) {
    IsPath(e, p) && |p| >= 2 && p[0] == a && p[|p| - 1] == b
  }

  ghost predicate Reaches(e: Estate, a: Name, b: Name) {
    exists p :: Connects(e, p, a, b)
  }

  /** No path from `n` runs into a cycle. */
  ghost predicate Grounded(e: Estate, n: Name) {
    forall c :: (c == n || Reaches(e, n, c)) ==> !Reaches(e, c, c)
  }

  /** `w` is one more than the number of edges on the longest path from `n`. */
  ghost predicate IsLongest(e: Estate, n: Name, w: int) {
    && (exists p :: PathFrom(e, p, n) && |p| == w)
    && (forall p :: PathFrom(e, p, n) ==> |p| <= w)
  }

  lemma ReachesStep(e: Estate, a: Name, b: Name)
    requires b in e.Deps(a)
    ensures Reaches(e, a, b)
  {
    assert Connects(e, [a, b], a, b);
  }

  lemma ReachesTransitive(e: Estate, a: Name, b: Name, c: Name)
    requires Reaches(e, a, b) && Reaches(e, b, c)
    ensures Reaches(e, a, c)
  {
    var p, q :| Connects(e, p, a, b) && Connects(e, q, b, c);
    assert Connects(e, p + q[1..], a, c);
  }

  /** The last edge of a connection. */
  lemma {:induction false} LastEdge(e: Estate, a: Name, b: Name) returns (c: Name)
    requires Reaches(e, a, b)
    ensures b in e.Deps(c) && (c == a || (c in e.scope && Reaches(e, a, c)))
  {
    var p :| Connects(e, p, a, b);
    c := p[|p| - 2];
    assert p[|p| - 2 + 1] in e.Deps(c);
    if |p| > 2 {
      assert p[|p| - 3 + 1] in e.Deps(p[|p| - 3]);
      assert Connects(e, p[..|p| - 1], a, c);
    }
  }

  // ------------------------------------------------------------------
  // The wave is the longest path, where there is one
  // ------------------------------------------------------------------

  /** The memo holds longest paths, except for jobs that run into a cycle. */
  ghost predicate Exact(e: Estate, memo: Memo) {
    forall n :: n in memo && Grounded(e, n) ==> IsLongest(e, n, memo[n])
  }

  lemma GroundedDep(e: Estate, n: Name, d: Name)
    requires Grounded(e, n) && d in e.Deps(n)
    ensures Grounded(e, d)
  {
    ReachesStep(e, n, d);
    forall c | Reaches(e, d, c) ensures Reaches(e, n, c) {
      ReachesTransitive(e, n, d, c);
    }
  }

  /** The open jobs lead to whatever is visited next. */
  lemma VisitingReaches(e: Estate, parent: Name, d: Name, visiting: set<Name>)
    requires d in e.Deps(parent) && forall v :: v in visiting ==> v == parent || Reaches(e, v, parent)
    ensures forall v :: v in visiting ==> Reaches(e, v, d)
  {
    ReachesStep(e, parent, d);
    forall v | v in visiting && v != parent ensures Reaches(e, v, d) {
      ReachesTransitive(e, v, parent, d);
    }
  }

  /** Whatever exact values the memo already holds, and whatever cycles there are
      elsewhere, the computed wave of a grounded job is its longest path. */
  lemma {:induction false} WaveIsLongest(e: Estate, job: Name, memo: Memo, visiting: set<Name>)
    requires Exact(e, memo)
    requires forall v :: v in visiting ==> Reaches(e, v, job)
    ensures var (w, memo') := Wave(e, job, memo, visiting);
      Exact(e, memo') && (Grounded(e, job) ==> IsLongest(e, job, w))
    decreases e.scope + {job} - visiting, 0
  {
    if job !in memo && job !in visiting {
      var deps := e.Deps(job);
      var (waves, memo1) := Waves(e, deps, memo, visiting + {job});
      WavesAreLongest(e, job, deps, memo, visiting + {job});
      if Grounded(e, job) {
        forall i | 0 <= i < |deps| ensures IsLongest(e, deps[i], waves[i]) {
          GroundedDep(e, job, deps[i]);
        }
        LongestFold(e, job, waves);
      }
    }
  }

  lemma {:induction false} WavesAreLongest(e: Estate, parent: Name, deps: seq<Name>, memo: Memo, visiting: set<Name>)
    requires Exact(e, memo)
    requires forall d :: d in deps ==> d in e.Deps(parent) && d in e.scope
    requires forall v :: v in visiting ==> v == parent || Reaches(e, v, parent)
    ensures var (ws, memo') := Waves(e, deps, memo, visiting);
      Exact(e, memo') && forall i :: 0 <= i < |deps| && Grounded(e, deps[i]) ==> IsLongest(e, deps[i], ws[i])
    decreases e.scope - visiting, 1 + |deps|
  {
    if deps != [] {
      var d := deps[0];
      assert e.scope + {d} - visiting == e.scope - visiting;
      VisitingReaches(e, parent, d, visiting);
      WaveIsLongest(e, d, memo, visiting);
      WavesAreLongest(e, parent, deps[1..], Wave(e, d, memo, visiting).1, visiting);
    }
  }

  lemma {:induction false} LongestFold(e: Estate, n: Name, waves: seq<int>)
    requires var deps := e.Deps(n); |waves| == |deps| && forall i :: 0 <= i < |deps| ==> IsLongest(e, deps[i], waves[i])
    ensures IsLongest(e, n, if e.Deps(n) == [] then 1 else 1 + Max(waves))
  {
    var deps := e.Deps(n);
    if deps == [] {
      assert PathFrom(e, [n], n);
      forall p | PathFrom(e, p, n) ensures |p| <= 1 {
        if |p| > 1 {
          SecondIsDep(e, p);
        }
      }
    } else {
      var k :| 0 <= k < |waves| && waves[k] == Max(waves);
      LongestExtends(e, n, deps[k], waves[k]);
      forall p | PathFrom(e, p, n) ensures |p| <= 1 + Max(waves) {
        PathBound(e, n, waves, p);
      }
    }
  }

  lemma PathBound(e: Estate, n: Name, waves: seq<int>, p: seq<Name>)
    requires var deps := e.Deps(n); |waves| == |deps| && forall i :: 0 <= i < |deps| ==> IsLongest(e, deps[i], waves[i])
    requires waves != [] && PathFrom(e, p, n)
    ensures |p| <= 1 + Max(waves)
  {
    var deps := e.Deps(n);
    assert waves[0] in waves;
    LongestPositive(e, deps[0], waves[0]);
    if |p| > 1 {
      SecondIsDep(e, p);
      var i :| 0 <= i < |deps| && deps[i] == p[1];
      TailBound(e, p, waves[i]);
      assert waves[i] in waves;
    }
  }

  lemma LongestPositive(e: Estate, n: Name, w: int)
    requires IsLongest(e, n, w)
    ensures w >= 1
  {
    var q :| PathFrom(e, q, n) && |q| == w;
  }

  lemma TailBound(e: Estate, p: seq<Name>, w: int)
    requires IsPath(e, p) && |p| > 1 && IsLongest(e, p[1], w)
    ensures |p| <= 1 + w
  {
    TailPath(e, p);
  }

  lemma SecondIsDep(e: Estate, p: seq<Name>)
    requires IsPath(e, p) && |p| > 1
    ensures p[1] in e.Deps(p[0])
  {
    assert p[0 + 1] in e.Deps(p[0]);
  }

  lemma LongestExtends(e: Estate, n: Name, d: Name, w: int)
    requires d in e.Deps(n) && IsLongest(e, d, w)
    ensures exists p :: PathFrom(e, p, n) && |p| == 1 + w
  {
    var q :| PathFrom(e, q, d) && |q| == w;
    assert PathFrom(e, [n] + q, n);
  }

  lemma TailPath(e: Estate, p: seq<Name>)
    requires IsPath(e, p) && |p| > 1
    ensures PathFrom(e, p[1..], p[1])
  {
    forall i | 0 <= i < |p[1..]| - 1 ensures p[1..][i + 1] in e.Deps(p[1..][i]) {
      assert p[(i + 1) + 1] in e.Deps(p[i + 1]);
    }
  }

  /** Going round the cycle makes a path of any length. */
  lemma {:induction false} Pump(e: Estate, n: Name, c: Name, k: nat) returns (p: seq<Name>)
    requires (c == n || Reaches(e, n, c)) && Reaches(e, c, c)
    ensures PathFrom(e, p, n) && p[|p| - 1] == c && |p| >= k
  {
    if k == 0 {
      p := [n];
      if c != n {
        p :| Connects(e, p, n, c);
      }
    } else {
      var q := Pump(e, n, c, k - 1);
      var round :| Connects(e, round, c, c);
      JoinPaths(e, q, round);
      p := q + round[1..];
    }
  }

  lemma JoinPaths(e: Estate, p: seq<Name>, q: seq<Name>)
    requires IsPath(e, p) && IsPath(e, q) && p[|p| - 1] == q[0]
    ensures IsPath(e, p + q[1..])
  {
    var r := p + q[1..];
    forall i | 0 <= i < |r| - 1 ensures r[i + 1] in e.Deps(r[i]) {
      if i >= |p| - 1 {
        var j := i - (|p| - 1);
        assert r[i] == q[j] && r[i + 1] == q[j + 1];
      }
    }
  }

  lemma NoLongest(e: Estate, n: Name, w: int)
    requires !Grounded(e, n)
    ensures !IsLongest(e, n, w)
  {
    var c :| (c == n || Reaches(e, n, c)) && Reaches(e, c, c);
    var p := Pump(e, n, c, if w < 0 then 0 else w + 1);
  }

  /** The wave of a job is its longest path if and only if the job neither lies on a
      cycle nor depends, however indirectly, on one; the other jobs have none. */
  lemma WaveIsLongestIff(e: Estate, job: Name)
    ensures IsLongest(e, job, Wave(e, job, map[], {}).0) <==> Grounded(e, job)
    ensures Grounded(e, job) <==> exists w :: IsLongest(e, job, w)
  {
    WaveIsLongest(e, job, map[], {});
    if !Grounded(e, job) {
      forall w ensures !IsLongest(e, job, w) {
        NoLongest(e, job, w);
      }
    }
  }

  lemma LongestIsUnique(e: Estate, n: Name, v: int, w: int)
    requires IsLongest(e, n, v) && IsLongest(e, n, w)
    ensures v == w
  {
  }

  // ------------------------------------------------------------------
  // A report's calls: many jobs, one memo
  // ------------------------------------------------------------------

  /** The waves of `jobs`, asked for one after the other with a shared memo. */
  function WaveRun(e: Estate, jobs: seq<Name>, memo: Memo): (r: (seq<int>, Memo))
    ensures |r.0| == |jobs|
  {
    if jobs == [] then ([], memo)
    else
      var (w, memo1) := Wave(e, jobs[0], memo, {});
      var (ws, memo2) := WaveRun(e, jobs[1..], memo1);
      ([w] + ws, memo2)
  }

  /** The same for every call of a run, whatever the jobs before it did to the memo. */
  lemma {:induction false} WaveRunIsLongest(e: Estate, jobs: seq<Name>, memo: Memo)
    requires Exact(e, memo)
    ensures forall i :: 0 <= i < |jobs| ==>
      (IsLongest(e, jobs[i], WaveRun(e, jobs, memo).0[i]) <==> Grounded(e, jobs[i]))
  {
    if jobs != [] {
      WaveIsLongest(e, jobs[0], memo, {});
      if !Grounded(e, jobs[0]) {
        NoLongest(e, jobs[0], Wave(e, jobs[0], memo, {}).0);
      }
      WaveRunIsLongest(e, jobs[1..], Wave(e, jobs[0], memo, {}).1);
    }
  }

  /** Two estates with the same dependencies, possibly listed in another order. */
  ghost predicate SameDeps(e: Estate, f: Estate) {
    e.scope == f.scope && forall n, d :: d in e.Deps(n) <==> d in f.Deps(n)
  }

  lemma SameDepsLongest(e: Estate, f: Estate, n: Name, w: int)
    requires SameDeps(e, f) && IsLongest(e, n, w)
    ensures IsLongest(f, n, w)
  {
    forall p, m ensures PathFrom(e, p, m) == PathFrom(f, p, m) {
    }
  }

  lemma SameDepsGrounded(e: Estate, f: Estate, n: Name)
    requires SameDeps(e, f) && Grounded(e, n)
    ensures Grounded(f, n)
  {
    forall a, b | Reaches(f, a, b) ensures Reaches(e, a, b) {
      var p :| Connects(f, p, a, b);
      assert Connects(e, p, a, b);
    }
  }

  /** For a grounded job neither the order of dependencies, nor the order of the
      calls, nor sharing the memo between them changes the value. */
  lemma WaveIsOrderIndependent(e: Estate, f: Estate, jobs: seq<Name>, i: nat)
    requires SameDeps(e, f) && i < |jobs| && Grounded(e, jobs[i])
    ensures WaveRun(e, jobs, map[]).0[i] == Wave(f, jobs[i], map[], {}).0
  {
    WaveRunIsLongest(e, jobs, map[]);
    SameDepsLongest(e, f, jobs[i], WaveRun(e, jobs, map[]).0[i]);
    SameDepsGrounded(e, f, jobs[i]);
    WaveIsLongest(f, jobs[i], map[], {});
    LongestIsUnique(f, jobs[i], WaveRun(e, jobs, map[]).0[i], Wave(f, jobs[i], map[], {}).0);
  }

  // ------------------------------------------------------------------
  // On every graph: a job is deeper than what it depends on
  // ------------------------------------------------------------------

  /** A job in the memo is deeper than its dependencies, except for those that lead
      back to it. */
  ghost predicate Layered(e: Estate, memo: Memo) {
    forall r, d :: r in memo && d in e.Deps(r) && !Reaches(e, d, r) ==> d in memo && memo[r] >= memo[d] + 1
  }

  lemma {:induction false} WaveKeepsLayered(e: Estate, job: Name, memo: Memo, visiting: set<Name>)
    requires Layered(e, memo)
    requires forall v :: v in visiting ==> Reaches(e, v, job)
    ensures Layered(e, Wave(e, job, memo, visiting).1)
    decreases e.scope + {job} - visiting, 0
  {
    if job !in memo && job !in visiting {
      var deps := e.Deps(job);
      var (waves, memo1) := Waves(e, deps, memo, visiting + {job});
      WavesKeepLayered(e, job, deps, memo, visiting + {job});
      WavesFacts(e, deps, memo, visiting + {job});
      forall d | d in deps && !Reaches(e, d, job) ensures d in memo1 && 1 + Max(waves) >= memo1[d] + 1 {
        var i :| 0 <= i < |deps| && deps[i] == d;
        assert waves[i] in waves;
      }
    }
  }

  lemma {:induction false} WavesKeepLayered(e: Estate, parent: Name, deps: seq<Name>, memo: Memo, visiting: set<Name>)
    requires Layered(e, memo)
    requires forall d :: d in deps ==> d in e.Deps(parent) && d in e.scope
    requires forall v :: v in visiting ==> v == parent || Reaches(e, v, parent)
    ensures Layered(e, Waves(e, deps, memo, visiting).1)
    decreases e.scope - visiting, 1 + |deps|
  {
    if deps != [] {
      assert e.scope + {deps[0]} - visiting == e.scope - visiting;
      VisitingReaches(e, parent, deps[0], visiting);
      WaveKeepsLayered(e, deps[0], memo, visiting);
      WavesKeepLayered(e, parent, deps[1..], Wave(e, deps[0], memo, visiting).1, visiting);
    }
  }

  /** What a run leaves in the memo: every value it returned, and layered. */
  lemma {:induction false} WaveRunIsLayered(e: Estate, jobs: seq<Name>, memo: Memo)
    requires Layered(e, memo)
    ensures var (ws, memo') := WaveRun(e, jobs, memo);
      && Grows(memo, memo', {}) && Layered(e, memo')
      && forall i :: 0 <= i < |jobs| ==> jobs[i] in memo' && memo'[jobs[i]] == ws[i]
  {
    if jobs != [] {
      WaveKeepsLayered(e, jobs[0], memo, {});
      WaveFacts(e, jobs[0], memo, {});
      WaveRunIsLayered(e, jobs[1..], Wave(e, jobs[0], memo, {}).1);
    }
  }

  // ------------------------------------------------------------------
  // Bounds that hold on every graph
  // ------------------------------------------------------------------

  ghost predicate Bounded(memo: Memo, slack: int) {
    forall n :: n in memo ==> 1 <= memo[n] <= |memo| + slack
  }

  /** Every value stays between 1 and one more than the memo's size; a job that runs
      into no cycle never needs the extra one. */
  lemma {:induction false} WaveBounded(e: Estate, job: Name, memo: Memo, visiting: set<Name>)
    requires Bounded(memo, 1)
    ensures var (w, memo') := Wave(e, job, memo, visiting);
      |memo| <= |memo'| && Bounded(memo', 1) && 1 <= w <= |memo'| + 1
    decreases e.scope + {job} - visiting, 0
  {
    if job !in memo && job !in visiting {
      var deps := e.Deps(job);
      WavesBounded(e, deps, memo, visiting + {job});
      WavesFacts(e, deps, memo, visiting + {job});
    }
  }

  lemma {:induction false} WavesBounded(e: Estate, deps: seq<Name>, memo: Memo, visiting: set<Name>)
    requires forall d :: d in deps ==> d in e.scope
    requires Bounded(memo, 1)
    ensures var (ws, memo') := Waves(e, deps, memo, visiting);
      |memo| <= |memo'| && Bounded(memo', 1) && forall w :: w in ws ==> 1 <= w <= |memo'| + 1
    decreases e.scope - visiting, 1 + |deps|
  {
    if deps != [] {
      assert e.scope + {deps[0]} - visiting == e.scope - visiting;
      WaveBounded(e, deps[0], memo, visiting);
      WavesBounded(e, deps[1..], Wave(e, deps[0], memo, visiting).1, visiting);
    }
  }

  ghost predicate GroundedBounded(e: Estate, memo: Memo) {
    forall n :: n in memo && Grounded(e, n) ==> 1 <= memo[n] <= |memo|
  }

  lemma {:induction false} GroundedWaveBounded(e: Estate, job: Name, memo: Memo, visiting: set<Name>)
    requires GroundedBounded(e, memo)
    requires forall v :: v in visiting ==> Reaches(e, v, job)
    ensures var (w, memo') := Wave(e, job, memo, visiting);
      |memo| <= |memo'| && GroundedBounded(e, memo') && (Grounded(e, job) ==> 1 <= w <= |memo'|)
    decreases e.scope + {job} - visiting, 0
  {
    if job !in memo && job !in visiting {
      var deps := e.Deps(job);
      var (waves, memo1) := Waves(e, deps, memo, visiting + {job});
      GroundedWavesBounded(e, job, deps, memo, visiting + {job});
      WavesFacts(e, deps, memo, visiting + {job});
      if Grounded(e, job) && deps != [] {
        var i :| 0 <= i < |deps| && waves[i] == Max(waves);
        GroundedDep(e, job, deps[i]);
      }
    }
  }

  lemma {:induction false} GroundedWavesBounded(e: Estate, parent: Name, deps: seq<Name>, memo: Memo,
                                                visiting: set<Name>)
    requires GroundedBounded(e, memo)
    requires forall d :: d in deps ==> d in e.Deps(parent) && d in e.scope
    requires forall v :: v in visiting ==> v == parent || Reaches(e, v, parent)
    ensures var (ws, memo') := Waves(e, deps, memo, visiting);
      && |memo| <= |memo'| && GroundedBounded(e, memo')
      && forall i :: 0 <= i < |deps| && Grounded(e, deps[i]) ==> 1 <= ws[i] <= |memo'|
    decreases e.scope - visiting, 1 + |deps|
  {
    if deps != [] {
      var d := deps[0];
      assert e.scope + {d} - visiting == e.scope - visiting;
      VisitingReaches(e, parent, d, visiting);
      GroundedWaveBounded(e, d, memo, visiting);
      GroundedWavesBounded(e, parent, deps[1..], Wave(e, d, memo, visiting).1, visiting);
    }
  }

  /** One unfolding of `Wave` at a job with a single dependency. */
  lemma WaveSingle(e: Estate, n: Name, d: Name, memo: Memo, visiting: set<Name>)
    requires e.Deps(n) == [d] && n !in memo && n !in visiting
    ensures var (w, memo1) := Wave(e, d, memo, visiting + {n});
      Wave(e, n, memo, visiting) == (1 + w, memo1[n := 1 + w])
  {
    assert d in e.Deps(n);
    WavesSingle(e, [d], memo, visiting + {n});
  }

  lemma WavesSingle(e: Estate, deps: seq<Name>, memo: Memo, visiting: set<Name>)
    requires |deps| == 1 && deps[0] in e.scope
    ensures var (w, memo1) := Wave(e, deps[0], memo, visiting);
      Waves(e, deps, memo, visiting) == ([w], memo1)
  {
    var (w, memo1) := Wave(e, deps[0], memo, visiting);
    var (ws, memo2) := Waves(e, deps[1..], memo1, visiting);
    assert ws == [] && memo2 == memo1;
    assert [w] + ws == [w];
  }

  lemma DepsSingle(e: Estate, n: Name, d: Name)
    requires n in e.conditions && e.conditions[n] == [d] && d in e.scope && d != n
    ensures e.Deps(n) == [d]
  {
    assert [d][1..] == [];
    assert Within([d], e.scope) == [d];
  }

  /** The bound is attained on a cycle: two jobs that wait for each other score 3. */
  lemma TwoNodeCycleScoresThree(a: Name, b: Name)
    requires a != b
    ensures var e := Estate(map[a := [b], b := [a]], {a, b});
      Wave(e, a, map[], {}) == (3, map[b := 2, a := 3])
  {
    var e := Estate(map[a := [b], b := [a]], {a, b});
    DepsSingle(e, a, b);
    DepsSingle(e, b, a);
    WaveSingle(e, a, b, map[], {});
    WaveSingle(e, b, a, map[], {} + {a});
  }

  // ------------------------------------------------------------------
  // upstream_closure
  // ------------------------------------------------------------------

  /** Reached from a seed by at least one edge. */
  ghost predicate Upstream(e: Estate, start: seq<Name>, x: Name) {
    exists s :: s in start && Reaches(e, s, x)
  }

  lemma UpstreamStep(e: Estate, start: seq<Name>, n: Name, d: Name)
    requires d in e.Deps(n) && (n in start || Upstream(e, start, n))
    ensures Upstream(e, start, d)
  {
    ReachesStep(e, n, d);
    if n !in start {
      var s :| s in start && Reaches(e, s, n);
      ReachesTransitive(e, s, n, d);
    }
  }

  /** The body of the worklist loop: records the dependencies of `node` not seen yet. */
  method AddDeps(e: Estate, node: Name, out: set<Name>, stack: seq<Name>)
    returns (out': set<Name>, stack': seq<Name>)
    ensures out' == out + ToSet(e.Deps(node))
    ensures stack <= stack' && forall x :: x in stack'[|stack|..] <==> x in out' - out
    ensures out' == out ==> stack' == stack
  {
    var deps := e.Deps(node);
    out', stack' := out, stack;
    for i := 0 to |deps|
      invariant out' == out + ToSet(deps[..i])
      invariant stack <= stack' && forall x :: x in stack'[|stack|..] <==> x in out' - out
      invariant out' == out ==> stack' == stack
    {
      var dep := deps[i];
      assert deps[..i + 1] == deps[..i] + [dep];
      if dep !in out' {
        assert (stack' + [dep])[|stack|..] == stack'[|stack|..] + [dep];
        out' := out' + {dep};
        stack' := stack' + [dep];
      }
    }
    assert deps[..|deps|] == deps;
  }

  /** Exactly the nodes reachable from an in-scope seed by at least one edge. */
  method UpstreamClosure(e: Estate, seeds: seq<Name>) returns (out: set<Name>)
    ensures forall x :: x in out <==> exists s :: s in seeds && s in e.scope && Reaches(e, s, x)
  {
    out := {};
    var start := Within(seeds, e.scope);
    var stack := start;
    while stack != []
      invariant out <= e.scope
      invariant forall x :: x in out ==> Upstream(e, start, x)
      invariant forall x :: x in stack ==> x in start || x in out
      invariant forall x :: x in start || x in out ==> x in stack || ToSet(e.Deps(x)) <= out
      decreases e.scope - out, |stack|
    {
      var node := stack[|stack| - 1];
      ghost var before, out0 := stack, out;
      stack := stack[..|stack| - 1];
      assert before == stack + [node] && node in before;
      ghost var rest := stack;
      out, stack := AddDeps(e, node, out, stack);
      assert stack == rest + stack[|rest|..];
      forall x | x in out ensures Upstream(e, start, x) {
        if x !in out0 {
          UpstreamStep(e, start, node, x);
        }
      }
    }
    forall x ensures x in out <==> exists s :: s in seeds && s in e.scope && Reaches(e, s, x) {
      if s :| s in seeds && s in e.scope && Reaches(e, s, x) {
        var p :| Connects(e, p, s, x);
        ClosedUnderPaths(e, p, start, out);
      }
    }
  }

  lemma {:induction false} ClosedUnderPaths(e: Estate, p: seq<Name>, start: seq<Name>, out: set<Name>)
    requires IsPath(e, p) && p[0] in start
    requires forall x :: x in start || x in out ==> ToSet(e.Deps(x)) <= out
    ensures |p| >= 2 ==> p[|p| - 1] in out
    decreases |p|
  {
    if |p| >= 2 {
      var q := p[..|p| - 1];
      ClosedUnderPaths(e, q, start, out);
      assert p[|p| - 2 + 1] in e.Deps(q[|q| - 1]);
    }
  }
}
