/** Dependency waves and upstream closure (autosys/analysis/dependency_graph.py).

    A condition is taken as the sequence of job names it references, in the order
    in which Python iterates over the set; every statement below holds for every
    such order.  `Wave` is the recursive, cycle-guarded definition;
    `WaveTable.DependencyWave` is the explicit-stack form that replaced it. */
module DependencyGraph {
  import opened Permutations

  type Name = string

  /** `conditions` is `condition_by_name`; a missing job has no condition. */
  datatype Estate = Estate(conditions: map<Name, seq<Name>>, scope: set<Name>) {
    /** The in-scope references of `n`, without a reference to `n` itself. */
    function Deps(n: Name): (deps: seq<Name>)
      ensures forall d :: d in deps <==> d != n && d in scope && n in conditions && d in conditions[n]
    {
      if n in conditions then Without(Within(conditions[n], scope), {n}) else []
    }
  }

  function Within(xs: seq<Name>, keep: set<Name>): (ys: seq<Name>)
    ensures forall x :: x in ys <==> x in xs && x in keep
  {
    if xs == [] then []
    else if xs[0] in keep then [xs[0]] + Within(xs[1..], keep)
    else Within(xs[1..], keep)
  }

  function Without(xs: seq<Name>, drop: set<Name>): (ys: seq<Name>)
    ensures forall x :: x in ys <==> x in xs && x !in drop
    ensures |ys| <= |xs|
  {
    if xs == [] then []
    else if xs[0] in drop then Without(xs[1..], drop)
    else [xs[0]] + Without(xs[1..], drop)
  }

  function ToSet(xs: seq<Name>): set<Name> {
    set x | x in xs
  }

  function Max(xs: seq<int>): (m: int)
    requires xs != []
    ensures m in xs && forall x :: x in xs ==> x <= m
  {
    assert xs == [xs[0]] + xs[1..];
    if |xs| == 1 then xs[0]
    else var m := Max(xs[1..]); if xs[0] < m then m else xs[0]
  }

  // ------------------------------------------------------------------
  // The recursive definition
  // ------------------------------------------------------------------

  type Memo = map<Name, int>

  /** `memo.get(n, 1)` */
  function Lookup(memo: Memo, n: Name): int {
    if n in memo then memo[n] else 1
  }

  /** The wave of `job` and the memo the computation leaves behind. */
  function Wave(e: Estate, job: Name, memo: Memo, visiting: set<Name>): (int, Memo)
    decreases e.scope + {job} - visiting, 0
  {
    if job in memo then (memo[job], memo)
    else if job in visiting then (1, memo)
    else
      var deps := e.Deps(job);
      var (waves, memo1) := Waves(e, deps, memo, visiting + {job});
      var w := if deps == [] then 1 else 1 + Max(waves);
      (w, memo1[job := w])
  }

  /** The waves of `deps`, computed left to right with the memo threaded through. */
  function Waves(e: Estate, deps: seq<Name>, memo: Memo, visiting: set<Name>): (r: (seq<int>, Memo))
    requires forall d :: d in deps ==> d in e.scope
    ensures |r.0| == |deps|
    decreases e.scope - visiting, 1 + |deps|
  {
    if deps == [] then ([], memo)
    else
      assert e.scope + {deps[0]} - visiting == e.scope - visiting;
      var (w, memo1) := Wave(e, deps[0], memo, visiting);
      var (ws, memo2) := Waves(e, deps[1..], memo1, visiting);
      ([w] + ws, memo2)
  }

  /** `after` keeps what `before` holds; what it adds avoids `visiting`. */
  ghost predicate Grows(before: Memo, after: Memo, visiting: set<Name>) {
    && (forall n :: n in before ==> n in after && after[n] == before[n])
    && (forall n :: n in after && n !in before ==> n !in visiting)
  }

  lemma {:induction false} WaveFacts(e: Estate, job: Name, memo: Memo, visiting: set<Name>)
    ensures var (w, memo') := Wave(e, job, memo, visiting);
      && Grows(memo, memo', visiting)
      && (job !in visiting ==> job in memo')
      && w == Lookup(memo', job)
    decreases e.scope + {job} - visiting, 0
  {
    if job !in memo && job !in visiting {
      WavesFacts(e, e.Deps(job), memo, visiting + {job});
    }
  }

  lemma {:induction false} WavesFacts(e: Estate, deps: seq<Name>, memo: Memo, visiting: set<Name>)
    requires forall d :: d in deps ==> d in e.scope
    ensures var (ws, memo') := Waves(e, deps, memo, visiting);
      && Grows(memo, memo', visiting)
      && (forall i :: 0 <= i < |deps| ==> ws[i] == Lookup(memo', deps[i]))
      && (forall d :: d in deps && d !in visiting ==> d in memo')
    decreases e.scope - visiting, 1 + |deps|
  {
    if deps != [] {
      assert e.scope + {deps[0]} - visiting == e.scope - visiting;
      WaveFacts(e, deps[0], memo, visiting);
      var (w, memo1) := Wave(e, deps[0], memo, visiting);
      WavesFacts(e, deps[1..], memo1, visiting);
    }
  }

  // ------------------------------------------------------------------
  // What is left to do on an explicit stack, in terms of `Wave`
  // ------------------------------------------------------------------

  datatype Frame = Frame(node: Name, expanded: bool)

  /** `1 + max(memo.get(d, 1) for d in deps)`, or 1 without dependencies. */
  function Folded(e: Estate, n: Name, memo: Memo): int {
    var deps := e.Deps(n);
    if deps == [] then 1 else 1 + Max(Lookups(memo, deps))
  }

  function Lookups(memo: Memo, deps: seq<Name>): (ws: seq<int>)
    ensures |ws| == |deps| && forall i :: 0 <= i < |deps| ==> ws[i] == Lookup(memo, deps[i])
  {
    if deps == [] then [] else [Lookup(memo, deps[0])] + Lookups(memo, deps[1..])
  }

  /** The memo once every frame of `stack` (top last) has been dealt with. */
  ghost function Finish(e: Estate, stack: seq<Frame>, memo: Memo, visiting: set<Name>): Memo {
    if stack == [] then memo
    else
      var top, rest := stack[|stack| - 1], stack[..|stack| - 1];
      if top.expanded then Finish(e, rest, memo[top.node := Folded(e, top.node, memo)], visiting - {top.node})
      else Finish(e, rest, Wave(e, top.node, memo, visiting).1, visiting)
  }

  /** `pending` pushed so that its first element is on top. */
  ghost function Pushed(pending: seq<Name>): seq<Frame> {
    if pending == [] then [] else Pushed(pending[1..]) + [Frame(pending[0], false)]
  }

  lemma {:induction false} FinishTop(e: Estate, stack: seq<Frame>, top: Frame, memo: Memo, visiting: set<Name>)
    ensures Finish(e, stack + [top], memo, visiting) ==
      if top.expanded
      then Finish(e, stack, memo[top.node := Folded(e, top.node, memo)], visiting - {top.node})
      else Finish(e, stack, Wave(e, top.node, memo, visiting).1, visiting)
  {
    assert (stack + [top])[..|stack|] == stack;
  }

  /** Dependencies already scored or on the path cost nothing, so dropping them
      before pushing does not change what the stack computes. */
  lemma {:induction false} FinishPending(e: Estate, stack: seq<Frame>, deps: seq<Name>, drop: set<Name>,
                                         memo: Memo, visiting: set<Name>)
    requires forall d :: d in deps ==> d in e.scope
    requires drop <= memo.Keys + visiting
    ensures Finish(e, stack + Pushed(Without(deps, drop)), memo, visiting)
         == Finish(e, stack, Waves(e, deps, memo, visiting).1, visiting)
  {
    var pending := Without(deps, drop);
    if deps == [] {
      assert stack + Pushed(pending) == stack;
    } else {
      var memo1 := Wave(e, deps[0], memo, visiting).1;
      WaveFacts(e, deps[0], memo, visiting);
      FinishPending(e, stack, deps[1..], drop, memo1, visiting);
      if deps[0] !in drop {
        assert pending[1..] == Without(deps[1..], drop);
        assert stack + Pushed(pending) == stack + Pushed(pending[1..]) + [Frame(deps[0], false)];
        FinishTop(e, stack + Pushed(pending[1..]), Frame(deps[0], false), memo, visiting);
      }
    }
  }

  /** Folding the scored dependencies is what `Wave` does after its recursive calls. */
  lemma {:induction false} WaveFolds(e: Estate, n: Name, memo: Memo, visiting: set<Name>)
    requires n !in memo && n !in visiting
    ensures var memo1 := Waves(e, e.Deps(n), memo, visiting + {n}).1;
      Wave(e, n, memo, visiting).1 == memo1[n := Folded(e, n, memo1)]
  {
    var deps := e.Deps(n);
    var (ws, memo1) := Waves(e, deps, memo, visiting + {n});
    WavesFacts(e, deps, memo, visiting + {n});
    LookupsAre(ws, memo1, deps);
    WaveUnfolds(e, n, memo, visiting);
  }

  lemma WaveUnfolds(e: Estate, n: Name, memo: Memo, visiting: set<Name>)
    requires n !in memo && n !in visiting
    ensures var (ws, memo1) := Waves(e, e.Deps(n), memo, visiting + {n});
      Wave(e, n, memo, visiting).1 == memo1[n := if e.Deps(n) == [] then 1 else 1 + Max(ws)]
  {
  }

  lemma LookupsAre(ws: seq<int>, memo: Memo, deps: seq<Name>)
    requires |ws| == |deps| && forall i :: 0 <= i < |deps| ==> ws[i] == Lookup(memo, deps[i])
    ensures ws == Lookups(memo, deps)
  {
  }

  /** Expanding a node on the stack is one unfolding of `Wave`. */
  lemma {:induction false} FinishExpand(e: Estate, stack: seq<Frame>, n: Name, memo: Memo, visiting: set<Name>)
    requires n !in memo && n !in visiting
    ensures Finish(e, stack + [Frame(n, false)], memo, visiting)
         == Finish(e, stack + [Frame(n, true)] + Pushed(Without(e.Deps(n), memo.Keys + (visiting + {n}))),
                   memo, visiting + {n})
  {
    var memo1 := Waves(e, e.Deps(n), memo, visiting + {n}).1;
    FinishTop(e, stack, Frame(n, false), memo, visiting);
    FinishPending(e, stack + [Frame(n, true)], e.Deps(n), memo.Keys + (visiting + {n}), memo, visiting + {n});
    FinishTop(e, stack, Frame(n, true), memo1, visiting + {n});
    WaveFolds(e, n, memo, visiting);
    assert visiting + {n} - {n} == visiting;
  }

  /** The nodes whose expansion is still open. */
  ghost function Open(stack: seq<Frame>): set<Name> {
    if stack == [] then {}
    else
      var top := stack[|stack| - 1];
      Open(stack[..|stack| - 1]) + if top.expanded then {top.node} else {}
  }

  /** No frame repeats a node that is open below it or on the caller's path. */
  ghost predicate Stacked(stack: seq<Frame>, visiting: set<Name>, universe: set<Name>) {
    stack == [] ||
    var top, rest := stack[|stack| - 1], stack[..|stack| - 1];
    Stacked(rest, visiting, universe) && top.node in universe && top.node !in visiting + Open(rest)
  }

  /** The loop invariant: the stack still computes `target`, and `visiting` is the
      caller's path plus the open nodes. */
  ghost predicate Working(e: Estate, stack: seq<Frame>, memo: Memo, visiting: set<Name>,
                          path: set<Name>, universe: set<Name>, target: Memo) {
    && Finish(e, stack, memo, visiting) == target
    && Stacked(stack, path, universe)
    && visiting == path + Open(stack)
    && path !! Open(stack)
    && Open(stack) !! memo.Keys
  }

  lemma {:induction false} PushKeepsStacked(stack: seq<Frame>, pending: seq<Name>, path: set<Name>, universe: set<Name>)
    requires Stacked(stack, path, universe)
    requires forall p :: p in pending ==> p in universe && p !in path + Open(stack)
    ensures Stacked(stack + Pushed(pending), path, universe)
    ensures Open(stack + Pushed(pending)) == Open(stack)
    ensures |Pushed(pending)| == |pending|
  {
    if pending == [] {
      assert stack + Pushed(pending) == stack;
    } else {
      PushKeepsStacked(stack, pending[1..], path, universe);
      StackOne(stack + Pushed(pending[1..]), pending[0], path, universe);
      ConcatAssociates(stack, Pushed(pending[1..]), [Frame(pending[0], false)]);
    }
  }

  lemma StackOne(stack: seq<Frame>, n: Name, path: set<Name>, universe: set<Name>)
    requires Stacked(stack, path, universe) && n in universe && n !in path + Open(stack)
    ensures Stacked(stack + [Frame(n, false)], path, universe) && Open(stack + [Frame(n, false)]) == Open(stack)
  {
    assert (stack + [Frame(n, false)])[..|stack|] == stack;
  }

  lemma {:induction false} SkipStep(e: Estate, rest: seq<Frame>, n: Name, memo: Memo, visiting: set<Name>,
                                    path: set<Name>, universe: set<Name>, target: Memo)
    requires Working(e, rest + [Frame(n, false)], memo, visiting, path, universe, target)
    requires n in memo
    ensures Working(e, rest, memo, visiting, path, universe, target)
  {
    assert (rest + [Frame(n, false)])[..|rest|] == rest;
  }

  lemma {:induction false} ExpandStep(e: Estate, rest: seq<Frame>, n: Name, memo: Memo, visiting: set<Name>,
                                      path: set<Name>, universe: set<Name>, target: Memo)
    requires Working(e, rest + [Frame(n, false)], memo, visiting, path, universe, target)
    requires n !in memo && e.scope <= universe
    ensures n !in visiting
    ensures var pending := Without(e.Deps(n), memo.Keys + (visiting + {n}));
      && Working(e, rest + [Frame(n, true)] + Pushed(pending), memo, visiting + {n}, path, universe, target)
      && Open(rest + [Frame(n, true)] + Pushed(pending)) == Open(rest + [Frame(n, false)]) + {n}
      && |Pushed(pending)| == |pending|
  {
    assert (rest + [Frame(n, false)])[..|rest|] == rest;
    assert (rest + [Frame(n, true)])[..|rest|] == rest;
    FinishExpand(e, rest, n, memo, visiting);
    PushKeepsStacked(rest + [Frame(n, true)], Without(e.Deps(n), memo.Keys + (visiting + {n})), path, universe);
  }

  lemma {:induction false} FoldStep(e: Estate, rest: seq<Frame>, n: Name, memo: Memo, visiting: set<Name>,
                                    path: set<Name>, universe: set<Name>, target: Memo)
    requires Working(e, rest + [Frame(n, true)], memo, visiting, path, universe, target)
    ensures n !in memo && n in visiting
    ensures Working(e, rest, memo[n := Folded(e, n, memo)], visiting - {n}, path, universe, target)
    ensures Open(rest) == Open(rest + [Frame(n, true)]) - {n}
  {
    assert (rest + [Frame(n, true)])[..|rest|] == rest;
  }

  /** The dependency edges leaving `nodes`. */
  ghost function Edges(e: Estate, nodes: seq<Name>): nat {
    if nodes == [] then 0 else Edges(e, nodes[..|nodes| - 1]) + |e.Deps(nodes[|nodes| - 1])|
  }

  // ------------------------------------------------------------------
  // The explicit-stack form
  // ------------------------------------------------------------------

  /** The cost so far: each expanded node is in `seen`, was not in `start` and was
      expanded once, and `size` frames are left after `pops` pops. */
  ghost predicate Metered(e: Estate, expansions: seq<Name>, pops: nat, size: nat, seen: set<Name>,
                          start: set<Name>, universe: set<Name>) {
    && NoDup(expansions) && start <= seen
    && (forall n :: n in expansions ==> n in seen && n in universe && n !in start)
    && pops + size <= 1 + |expansions| + Edges(e, expansions)
  }

  lemma {:induction false} MeterExpand(e: Estate, expansions: seq<Name>, pops: nat, size: nat, seen: set<Name>,
                                       start: set<Name>, universe: set<Name>, n: Name, pushed: nat)
    requires Metered(e, expansions, pops, size + 1, seen, start, universe)
    requires n !in seen && n in universe && pushed <= |e.Deps(n)|
    ensures Metered(e, expansions + [n], pops + 1, size + 1 + pushed, seen + {n}, start, universe)
  {
    assert (expansions + [n])[..|expansions|] == expansions;
  }

  /** Pushes `pending` in reverse, so that it is popped in order. */
  method PushReversed(stack: seq<Frame>, pending: seq<Name>) returns (pushed: seq<Frame>)
    ensures pushed == stack + Pushed(pending)
  {
    pushed := stack;
    for i := |pending| downto 0
      invariant pushed == stack + Pushed(pending[i..])
    {
      assert pending[i..][1..] == pending[i + 1..];
      pushed := pushed + [Frame(pending[i], false)];
    }
    assert pending[0..] == pending;
  }

  /** The `memo` and `_visiting` objects a caller shares between calls. */
  class WaveTable {
    var memo: Memo
    var visiting: set<Name>

    constructor ()
      ensures memo == map[] && visiting == {}
    {
      memo, visiting := map[], {};
    }

    /** One turn of the loop, on the popped frame. */
    method Turn(e: Estate, frame: Frame, rest: seq<Frame>, ghost path: set<Name>, ghost universe: set<Name>,
                ghost target: Memo,
                ghost expansions: seq<Name>, ghost pops: nat, ghost start: set<Name>)
      returns (stack: seq<Frame>, ghost expansions': seq<Name>)
      requires Working(e, rest + [frame], memo, visiting, path, universe, target) && e.scope <= universe
      requires Metered(e, expansions, pops, |rest| + 1, memo.Keys + visiting, start, universe)
      modifies this
      ensures Working(e, stack, memo, visiting, path, universe, target)
      ensures Metered(e, expansions', pops + 1, |stack|, memo.Keys + visiting, start, universe)
      ensures old(memo.Keys + visiting) <= memo.Keys + visiting
      ensures |stack| <= |rest| ||
              (frame.node in universe && frame.node !in old(memo.Keys + visiting) && frame.node in memo.Keys + visiting)
    {
      var Frame(node, expanded) := frame;
      stack, expansions' := rest, expansions;
      if expanded {
        FoldStep(e, rest, node, memo, visiting, path, universe, target);
      } else if node in memo {
        SkipStep(e, rest, node, memo, visiting, path, universe, target);
      } else {
        ExpandStep(e, rest, node, memo, visiting, path, universe, target);
      }
      if expanded {
        // Done with `node`, whether or not it is scored already.
        visiting := visiting - {node};
      }
      if node in memo {
        // Reached twice via two parents; the first visit already scored it.
      } else if !expanded {
        var deps := e.Deps(node);
        visiting := visiting + {node};
        stack := stack + [Frame(node, true)];
        var pending := Without(deps, memo.Keys + visiting);
        stack := PushReversed(stack, pending);
        MeterExpand(e, expansions, pops, |rest|, old(memo.Keys + visiting), start, universe, node, |pending|);
        expansions' := expansions + [node];
      } else {
        memo := memo[node := Folded(e, node, memo)];
      }
    }

    /** Besides the wave, reports the nodes it expanded, in order, and how many
        frames it popped. */
    method DependencyWave(e: Estate, job: Name)
      returns (wave: int, ghost expansions: seq<Name>, ghost pops: nat)
      modifies this
      ensures (wave, memo) == Wave(e, job, old(memo), old(visiting))
      ensures visiting == old(visiting)
      ensures NoDup(expansions)
      ensures forall n :: n in expansions ==> n in e.scope + {job} && n !in old(memo)
      ensures pops <= 1 + |expansions| + Edges(e, expansions)
    {
      expansions, pops := [], 0;
      if job in memo {
        return memo[job], expansions, pops;
      }
      if job in visiting {
        return 1, expansions, pops;
      }
      ghost var universe, path, start := e.scope + {job}, visiting, memo.Keys;
      ghost var target := Wave(e, job, memo, visiting).1;
      var stack := [Frame(job, false)];
      StartWorking(e, job, memo, visiting, universe);
      while stack != []
        invariant Working(e, stack, memo, visiting, path, universe, target)
        invariant Metered(e, expansions, pops, |stack|, memo.Keys + visiting, start, universe)
        decreases universe - (memo.Keys + visiting), |stack|
      {
        var top, rest := stack[|stack| - 1], stack[..|stack| - 1];
        SplitLast(stack);
        stack, expansions := Turn(e, top, rest, path, universe, target, expansions, pops, start);
        pops := pops + 1;
      }
      WaveFacts(e, job, old(memo), old(visiting));
      return memo[job], expansions, pops;
    }
  }

  lemma {:induction false} StartWorking(e: Estate, job: Name, memo: Memo, visiting: set<Name>, universe: set<Name>)
    requires job in universe && job !in visiting
    ensures Working(e, [Frame(job, false)], memo, visiting, visiting, universe, Wave(e, job, memo, visiting).1)
  {
    var stack := [Frame(job, false)];
    assert stack[..0] == [] && [] + stack == stack;
    assert Stacked(stack[..0], visiting, universe) && Open(stack[..0]) == {};
    FinishTop(e, [], Frame(job, false), memo, visiting);
  }
}
