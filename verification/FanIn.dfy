/** Blast radius: how many other jobs refer to a job
    (autosys/analysis/dependency_graph.py, `fan_in_counts`). */
module FanIn {
  import opened DependencyGraph
  import opened Permutations

  /** How many of the rows refer to `n`. */
  function Referrers(e: Estate, rows: seq<Name>, n: Name): nat {
    if |rows| == 0 then 0
    else (if n in e.Deps(rows[|rows| - 1]) then 1 else 0) + Referrers(e, rows[..|rows| - 1], n)
  }

  function SumOf(names: seq<Name>, counts: map<Name, nat>): nat
    requires forall n :: n in names ==> n in counts
  {
    if |names| == 0 then 0
    else
      assert names[|names| - 1] in names;
      counts[names[|names| - 1]] + SumOf(names[..|names| - 1], counts)
  }

  lemma {:induction false} SumOfBump(names: seq<Name>, counts: map<Name, nat>, d: Name)
    requires NoDup(names) && d in counts && forall n :: n in names ==> n in counts
    ensures SumOf(names, counts[d := counts[d] + 1]) == SumOf(names, counts) + if d in names then 1 else 0
  {
    if |names| > 0 {
      SplitLast(names);
      SumOfBump(names[..|names| - 1], counts, d);
    }
  }

  lemma {:induction false} SumOfZero(names: seq<Name>, counts: map<Name, nat>)
    requires forall n :: n in names ==> n in counts && counts[n] == 0
    ensures SumOf(names, counts) == 0
  {
    if |names| > 0 {
      SplitLast(names);
      SumOfZero(names[..|names| - 1], counts);
    }
  }

  /** The inner loop: one row's references. */
  method CountRow(names: seq<Name>, deps: seq<Name>, counts0: map<Name, nat>) returns (counts: map<Name, nat>)
    requires NoDup(names) && NoDup(deps) && (forall n :: n in names <==> n in counts0) && forall d :: d in deps ==>
        d in names
    ensures forall n :: n in names <==> n in counts
    ensures forall n :: n in names ==> counts[n] == counts0[n] + if n in deps then 1 else 0
    ensures SumOf(names, counts) == SumOf(names, counts0) + |deps|
  {
    counts := counts0;
    for i := 0 to |deps|
      invariant forall n :: n in names <==> n in counts
      invariant forall n :: n in names ==> counts[n] == counts0[n] + if n in deps[..i] then 1 else 0
      invariant SumOf(names, counts) == SumOf(names, counts0) + i
    {
      var dep := deps[i];
      assert dep in deps && deps[..i + 1] == deps[..i] + [dep];
      SumOfBump(names, counts, dep);
      counts := counts[dep := counts[dep] + 1];
    }
    assert deps[..|deps|] == deps;
  }

  /** The counts after the rows in `done`. */
  ghost predicate Counted(e: Estate, names: seq<Name>, done: seq<Name>, counts: map<Name, nat>) {
    && (forall n :: n in names <==> n in counts)
    && (forall n :: n in names ==> counts[n] == Referrers(e, done, n))
    && SumOf(names, counts) == Edges(e, done)
  }

  lemma CountedStart(e: Estate, names: seq<Name>, none: seq<Name>, counts: map<Name, nat>)
    requires |none| == 0 && (forall n :: n in names <==> n in counts) && forall n :: n in counts ==> counts[n] == 0
    ensures Counted(e, names, none, counts)
  {
    SumOfZero(names, counts);
  }

  lemma CountedStep(e: Estate, names: seq<Name>, done: seq<Name>, n: Name, before: map<Name, nat>,
                    after: map<Name, nat>)
    requires Counted(e, names, done, before) && forall x :: x in names <==> x in after
    requires forall x :: x in names ==> after[x] == before[x] + if x in e.Deps(n) then 1 else 0
    requires SumOf(names, after) == SumOf(names, before) + |e.Deps(n)|
    ensures Counted(e, names, done + [n], after)
  {
    var more := done + [n];
    assert more[..|done|] == done && more[|done|] == n;
    forall x | x in names ensures after[x] == Referrers(e, more, x) {
      ReferrersStep(e, done, n, x);
    }
  }

  lemma ReferrersStep(e: Estate, done: seq<Name>, n: Name, x: Name)
    ensures Referrers(e, done + [n], x) == Referrers(e, done, x) + if x in e.Deps(n) then 1 else 0
  {
    assert (done + [n])[..|done|] == done;
  }

  /** Every job's count is the number of other jobs that refer to it, and all counts
      together are all references there are. */
  method FanInCounts(e: Estate, names: seq<Name>) returns (counts: map<Name, nat>)
    requires NoDup(names) && e.scope == ToSet(names) && forall n :: n in names ==> NoDup(e.Deps(n))
    ensures forall n :: n in names <==> n in counts
    ensures forall n :: n in names ==> counts[n] == Referrers(e, names, n)
    ensures SumOf(names, counts) == Edges(e, names)
  {
    counts := map n | n in names :: 0;
    CountedStart(e, names, names[..0], counts);
    for i := 0 to |names|
      invariant Counted(e, names, names[..i], counts)
    {
      ghost var before := counts;
      assert names[i] in names;
      counts := CountRow(names, e.Deps(names[i]), counts);
      CountedStep(e, names, names[..i], names[i], before, counts);
      assert names[..i + 1] == names[..i] + [names[i]];
    }
    assert names[..|names|] == names;
  }

  /** That number, as the size of a set of jobs. */
  lemma {:induction false} ReferrersAreCounted(e: Estate, names: seq<Name>, n: Name)
    requires NoDup(names)
    ensures Referrers(e, names, n) == |ReferringSet(e, names, n)|
  {
    if |names| == 0 {
      assert ReferringSet(e, names, n) == {};
    } else {
      SplitLast(names);
      ReferrersAreCounted(e, names[..|names| - 1], n);
      ReferringSetStep(e, names[..|names| - 1], names[|names| - 1], n);
    }
  }

  ghost function ReferringSet(e: Estate, names: seq<Name>, n: Name): (s: set<Name>)
    ensures forall r :: r in s <==> r in names && n in e.Deps(r)
  {
    set r | r in names && n in e.Deps(r)
  }

  lemma ReferringSetStep(e: Estate, before: seq<Name>, last: Name, n: Name)
    requires last !in before
    ensures |ReferringSet(e, before + [last], n)| == |ReferringSet(e, before, n)| + if n in e.Deps(last) then 1 else 0
  {
    var more := if n in e.Deps(last) then {last} else {};
    assert ReferringSet(e, before + [last], n) == ReferringSet(e, before, n) + more;
  }
}
