/** The order of the rows in an assessment report
    (autosys/analysis/complexity.py, `build_report`). */
module ReportOrder {
  import opened Permutations
  import opened Sorting

  /** `boxName` is empty for a top-level job; `jobType` is upper-cased. */
  datatype JobRow = JobRow(jobName: string, boxName: string, jobType: string)

  const ByName: JobRow -> string := (r: JobRow) => r.jobName

  function Names(rows: seq<JobRow>): (names: set<string>)
    ensures forall r :: r in rows ==> r.jobName in names
    ensures forall n :: n in names ==> exists r :: r in rows && r.jobName == n
  {
    set r | r in rows :: r.jobName
  }

  /** `job_name` is the primary key of the job table. */
  ghost predicate UniqueNames(rows: seq<JobRow>) {
    DistinctKeys(rows, ByName)
  }

  function Tops(rows: seq<JobRow>): (tops: seq<JobRow>)
    ensures forall r :: r in tops <==> r in rows && r.boxName == ""
    ensures UniqueNames(rows) ==> NoDup(tops)
  {
    if rows == [] then []
    else
      assert rows == [rows[0]] + rows[1..];
      (if rows[0].boxName == "" then [rows[0]] else []) + Tops(rows[1..])
  }

  /** `child_map.get(name, [])` */
  function ChildrenOf(rows: seq<JobRow>, name: string): (kids: seq<JobRow>)
    ensures forall r :: r in kids <==> r in rows && r.boxName == name && r.boxName != ""
    ensures UniqueNames(rows) ==> NoDup(kids)
  {
    if rows == [] then []
    else
      assert rows == [rows[0]] + rows[1..];
      (if rows[0].boxName == name && name != "" then [rows[0]] else []) + ChildrenOf(rows[1..], name)
  }

  function Kids(rows: seq<JobRow>, r: JobRow): seq<JobRow> {
    SortBy(ChildrenOf(rows, r.jobName), ByName)
  }

  // ------------------------------------------------------------------
  // The recursive definition: a preorder of the box forest
  // ------------------------------------------------------------------

  /** `r` followed by the subtrees of its children in name order; `pool` holds the
      names that are not ancestors of `r`. */
  function Preorder(rows: seq<JobRow>, r: JobRow, pool: set<string>): seq<JobRow>
    decreases pool, 0
  {
    if r.jobName !in pool then [] else [r] + Forest(rows, Kids(rows, r), pool - {r.jobName})
  }

  function Forest(rows: seq<JobRow>, siblings: seq<JobRow>, pool: set<string>): seq<JobRow>
    decreases pool, 1 + |siblings|
  {
    if siblings == [] then []
    else Preorder(rows, siblings[0], pool) + Forest(rows, siblings[1..], pool)
  }

  /** A top-level row, a child of it, a child of that, and so on: `depth` levels. */
  ghost predicate ReachedIn(rows: seq<JobRow>, r: JobRow, depth: nat)
    decreases depth
  {
    && r in rows
    && (r.boxName == "" ||
        (depth > 0 && exists b :: b in rows && b.jobName == r.boxName && ReachedIn(rows, b, depth - 1)))
  }

  ghost predicate Reached(rows: seq<JobRow>, r: JobRow) {
    exists depth :: ReachedIn(rows, r, depth)
  }

  // ------------------------------------------------------------------
  // The stack of rows still to visit
  // ------------------------------------------------------------------

  /** What the stack (top last) will still contribute, each row with its own pool. */
  ghost function Pending(rows: seq<JobRow>, stack: seq<JobRow>, pools: seq<set<string>>): seq<JobRow>
    requires |pools| == |stack|
  {
    if stack == [] then []
    else
      var n := |stack| - 1;
      Preorder(rows, stack[n], pools[n]) + Pending(rows, stack[..n], pools[..n])
  }

  ghost function Copies(pool: set<string>, n: nat): seq<set<string>> {
    seq(n, i => pool)
  }

  lemma {:induction false} PendingPush(rows: seq<JobRow>, stack: seq<JobRow>, pools: seq<set<string>>,
                                       kids: seq<JobRow>, pool: set<string>)
    requires |pools| == |stack|
    ensures Pending(rows, stack + Reverse(kids), pools + Copies(pool, |kids|))
         == Forest(rows, kids, pool) + Pending(rows, stack, pools)
  {
    if kids == [] {
      assert stack + Reverse(kids) == stack && pools + Copies(pool, 0) == pools;
    } else {
      var s, p := stack + Reverse(kids[1..]), pools + Copies(pool, |kids| - 1);
      assert stack + Reverse(kids) == s + [kids[0]] && pools + Copies(pool, |kids|) == p + [pool];
      PendingPush(rows, stack, pools, kids[1..], pool);
      PendingTop(rows, s, p, kids[0], pool);
      ConcatAssociates(Preorder(rows, kids[0], pool), Forest(rows, kids[1..], pool), Pending(rows, stack, pools));
    }
  }

  lemma PendingTop(rows: seq<JobRow>, stack: seq<JobRow>, pools: seq<set<string>>, r: JobRow, pool: set<string>)
    requires |pools| == |stack|
    ensures Pending(rows, stack + [r], pools + [pool]) == Preorder(rows, r, pool) + Pending(rows, stack, pools)
  {
    assert (stack + [r])[..|stack|] == stack && (pools + [pool])[..|stack|] == pools;
  }

  /** A row that may be listed: its box, if any, is listed already. */
  ghost predicate Due(rows: seq<JobRow>, r: JobRow, listed: set<string>) {
    r in rows && (r.boxName == "" || r.boxName in listed)
  }

  /** The rows met so far are distinct, each with its box listed before it, and
      nothing below a listed row has been forgotten. */
  ghost predicate Tracked(rows: seq<JobRow>, ordered: seq<JobRow>, stack: seq<JobRow>, listed: set<string>) {
    && NoDup(ordered) && NoDup(stack)
    && (forall r :: r in ordered ==> r.jobName in listed && Due(rows, r, listed))
    && (forall r :: r in stack ==> r.jobName !in listed && Due(rows, r, listed))
    && (forall r :: r in rows && (r.boxName == "" || r.boxName in listed) ==> r in ordered || r in stack)
  }

  /** Each row on the stack is in its own pool, which lacks only listed names. */
  ghost predicate Pooled(names: set<string>, stack: seq<JobRow>, pools: seq<set<string>>, listed: set<string>) {
    && |pools| == |stack|
    && forall i :: 0 <= i < |stack| ==> stack[i].jobName in pools[i] && names <= pools[i] + listed
  }

  lemma PooledPush(names: set<string>, stack: seq<JobRow>, pools: seq<set<string>>, listed: set<string>,
                   kids: seq<JobRow>, pool: set<string>)
    requires Pooled(names, stack, pools, listed)
    requires names <= pool + listed && forall k :: k in kids ==> k.jobName in pool
    ensures Pooled(names, stack + Reverse(kids), pools + Copies(pool, |kids|), listed)
  {
    var s, p := stack + Reverse(kids), pools + Copies(pool, |kids|);
    forall i | 0 <= i < |s| ensures s[i].jobName in p[i] && names <= p[i] + listed {
      if i < |stack| {
        assert s[i] == stack[i] && p[i] == pools[i];
      } else {
        PushedAt(stack, pools, kids, pool, i);
      }
    }
  }

  lemma PushedAt(stack: seq<JobRow>, pools: seq<set<string>>, kids: seq<JobRow>, pool: set<string>, i: int)
    requires |pools| == |stack| <= i < |stack| + |kids|
    ensures (stack + Reverse(kids))[i] in kids && (pools + Copies(pool, |kids|))[i] == pool
  {
    assert (stack + Reverse(kids))[i] == Reverse(kids)[i - |stack|];
  }

  lemma PooledPop(names: set<string>, rest: seq<JobRow>, r: JobRow, pools: seq<set<string>>, pool: set<string>,
                  listed: set<string>)
    requires Pooled(names, rest + [r], pools + [pool], listed)
    ensures r.jobName in pool && names <= pool + listed && |pools| == |rest|
    ensures Pooled(names, rest, pools, listed + {r.jobName})
  {
    var s, p := rest + [r], pools + [pool];
    assert s[|rest|] == r && p[|rest|] == pool;
    forall i | 0 <= i < |rest| ensures rest[i].jobName in pools[i] && names <= pools[i] + (listed + {r.jobName}) {
      assert s[i] == rest[i] && p[i] == pools[i];
    }
  }

  lemma SameNameSameRow(rows: seq<JobRow>, r: JobRow, s: JobRow)
    requires UniqueNames(rows) && r in rows && s in rows && r.jobName == s.jobName
    ensures r == s
  {
    var i :| 0 <= i < |rows| && rows[i] == r;
    var j :| 0 <= j < |rows| && rows[j] == s;
    assert ByName(rows[i]) == ByName(rows[j]);
  }

  lemma SameNameSameIndex(rows: seq<JobRow>, i: int, j: int)
    requires UniqueNames(rows) && 0 <= i < |rows| && 0 <= j < |rows| && rows[i].jobName == rows[j].jobName
    ensures i == j
  {
    assert ByName(rows[i]) == ByName(rows[j]);
  }

  ghost predicate AreKids(rows: seq<JobRow>, r: JobRow, kids: seq<JobRow>) {
    NoDup(kids) && forall k :: k in kids <==> k in rows && k.boxName == r.jobName && k.boxName != ""
  }

  lemma KidsFacts(rows: seq<JobRow>, r: JobRow)
    requires UniqueNames(rows)
    ensures AreKids(rows, r, Kids(rows, r))
  {
    SameMembers(ChildrenOf(rows, r.jobName), Kids(rows, r));
    NoDupCarriesOver(ChildrenOf(rows, r.jobName), Kids(rows, r));
  }

  /** The children of the row on top have not been met. */
  lemma KidIsNew(rows: seq<JobRow>, ordered: seq<JobRow>, rest: seq<JobRow>, r: JobRow, k: JobRow, listed: set<string>)
    requires UniqueNames(rows) && Tracked(rows, ordered, rest + [r], listed)
    requires listed == Names(ordered)
    requires k in rows && k.boxName == r.jobName && k.boxName != ""
    ensures k.jobName !in listed && k.jobName != r.jobName && k !in rest
  {
    assert r in rest + [r];
    if k.jobName == r.jobName {
      SameNameSameRow(rows, k, r);
    }
    if k.jobName in listed {
      var s :| s in ordered && s.jobName == k.jobName;
      SameNameSameRow(rows, k, s);
    }
    assert k in rest ==> k in rest + [r];
  }

  /** Listing the top row and pushing its children keeps the bookkeeping. */
  lemma VisitKeepsTracked(rows: seq<JobRow>, ordered: seq<JobRow>, rest: seq<JobRow>, r: JobRow,
                          kids: seq<JobRow>, listed: set<string>)
    requires UniqueNames(rows) && Tracked(rows, ordered, rest + [r], listed) && AreKids(rows, r, kids)
    requires listed == Names(ordered)
    ensures Tracked(rows, ordered + [r], rest + Reverse(kids), listed + {r.jobName})
  {
    var stack := rest + [r];
    assert r in stack && stack[..|rest|] == rest && stack[|rest|] == r;
    forall k | k in kids
      ensures k.jobName !in listed && k.jobName != r.jobName && k !in rest
    {
      KidIsNew(rows, ordered, rest, r, k, listed);
    }
    forall s | s in rest ensures s.jobName !in listed && s.jobName != r.jobName && Due(rows, s, listed) {
      assert s in stack;
      if s.jobName == r.jobName {
        SameNameSameRow(rows, s, r);
      }
    }
    NoDupReverse(kids);
    NoDupConcat(rest, Reverse(kids));
    NoDupConcat(ordered, [r]);
    forall s | s in rows && (s.boxName == "" || s.boxName in listed + {r.jobName})
      ensures s in ordered + [r] || s in rest + Reverse(kids)
    {
      assert s in kids || s in ordered || s in stack;
    }
  }

  lemma NoDupReverse(kids: seq<JobRow>)
    requires NoDup(kids)
    ensures NoDup(Reverse(kids))
  {
  }

  lemma VisitKeepsPooled(rows: seq<JobRow>, ordered: seq<JobRow>, rest: seq<JobRow>, pools: seq<set<string>>,
                         pool: set<string>,
                         r: JobRow, kids: seq<JobRow>, listed: set<string>, names: set<string>)
    requires UniqueNames(rows) && Tracked(rows, ordered, rest + [r], listed) && AreKids(rows, r, kids)
    requires listed == Names(ordered) && (forall k :: k in rows ==> k.jobName in names)
    requires Pooled(names, rest + [r], pools + [pool], listed)
    ensures r.jobName in pool && |pools| == |rest|
    ensures Pooled(names, rest + Reverse(kids), pools + Copies(pool - {r.jobName}, |kids|), listed + {r.jobName})
  {
    PooledPop(names, rest, r, pools, pool, listed);
    forall k | k in kids ensures k.jobName in pool - {r.jobName} {
      KidIsNew(rows, ordered, rest, r, k, listed);
    }
    PooledPush(names, rest, pools, listed + {r.jobName}, kids, pool - {r.jobName});
  }

  /** One visit is one unfolding of the recursive definition. */
  lemma VisitPending(rows: seq<JobRow>, rest: seq<JobRow>, pools: seq<set<string>>, pool: set<string>, r: JobRow)
    requires |pools| == |rest| && r.jobName in pool
    ensures var kids := Kids(rows, r);
      Pending(rows, rest + [r], pools + [pool])
        == [r] + Pending(rows, rest + Reverse(kids), pools + Copies(pool - {r.jobName}, |kids|))
  {
    var kids := Kids(rows, r);
    PendingTop(rows, rest, pools, r, pool);
    PendingPush(rows, rest, pools, kids, pool - {r.jobName});
    ConcatAssociates([r], Forest(rows, kids, pool - {r.jobName}), Pending(rows, rest, pools));
  }

  lemma NamesAppend(rows: seq<JobRow>, r: JobRow)
    ensures Names(rows + [r]) == Names(rows) + {r.jobName}
  {
  }

  /** The rows of one box are listed by name, and so are the top-level rows. */
  ghost predicate SiblingsByName(ordered: seq<JobRow>) {
    forall i, j :: 0 <= i < j < |ordered| && ordered[i].boxName == ordered[j].boxName ==>
      LexLe(ordered[i].jobName, ordered[j].jobName)
  }

  /** Rows of a box that has no row yet, in name order, fit in anywhere. */
  lemma InsertKids(front: seq<JobRow>, kids: seq<JobRow>, back: seq<JobRow>, name: string)
    requires SiblingsByName(front + back) && SortedBy(kids, ByName)
    requires forall k :: k in kids ==> k.boxName == name
    requires forall x :: x in front || x in back ==> x.boxName != name
    ensures SiblingsByName(front + (kids + back))
  {
    var was, all := front + back, front + (kids + back);
    forall i, j | 0 <= i < j < |all| && all[i].boxName == all[j].boxName
      ensures LexLe(all[i].jobName, all[j].jobName)
    {
      var f, k := |front|, |front| + |kids|;
      assert forall x :: 0 <= x < f ==> all[x] == front[x] && was[x] == front[x];
      assert forall x :: k <= x < |all| ==> all[x] == back[x - k] && was[x - |kids|] == back[x - k];
      assert forall x :: f <= x < k ==> all[x] == kids[x - f];
      if f <= i < k {
        assert LexLe(ByName(kids[i - f]), ByName(kids[j - f]));
      } else {
        var a, b := if i < f then i else i - |kids|, if j < f then j else j - |kids|;
        assert was[a] == all[i] && was[b] == all[j];
      }
    }
  }

  lemma ReversePushed(rest: seq<JobRow>, r: JobRow, kids: seq<JobRow>)
    ensures Reverse(rest + [r]) == [r] + Reverse(rest)
    ensures Reverse(rest + Reverse(kids)) == kids + Reverse(rest)
  {
  }

  lemma VisitKeepsByName(rows: seq<JobRow>, ordered: seq<JobRow>, rest: seq<JobRow>, r: JobRow,
                         kids: seq<JobRow>, listed: set<string>)
    requires SiblingsByName(ordered + Reverse(rest + [r])) && SortedBy(kids, ByName)
    requires AreKids(rows, r, kids) && Tracked(rows, ordered, rest + [r], listed)
    ensures SiblingsByName(ordered + [r] + Reverse(rest + Reverse(kids)))
  {
    var front, back := ordered + [r], Reverse(rest);
    PushedOrder(ordered, rest, r, kids);
    if kids == [] {
      ConcatEmpty(back);
    } else {
      NoKidYet(rows, ordered, rest, r, kids, listed);
      InsertKids(front, kids, back, r.jobName);
    }
  }

  lemma PushedOrder(ordered: seq<JobRow>, rest: seq<JobRow>, r: JobRow, kids: seq<JobRow>)
    ensures ordered + Reverse(rest + [r]) == ordered + [r] + Reverse(rest)
    ensures ordered + [r] + Reverse(rest + Reverse(kids)) == ordered + [r] + (kids + Reverse(rest))
  {
    ReversePushed(rest, r, kids);
    ConcatAssociates(ordered, [r], Reverse(rest));
  }

  /** Nothing met so far is in the box on top. */
  lemma NoKidYet(rows: seq<JobRow>, ordered: seq<JobRow>, rest: seq<JobRow>, r: JobRow, kids: seq<JobRow>,
                 listed: set<string>)
    requires kids != [] && AreKids(rows, r, kids) && Tracked(rows, ordered, rest + [r], listed)
    ensures forall x :: x in ordered + [r] || x in Reverse(rest) ==> x.boxName != r.jobName
  {
    assert kids[0] in kids && r in rest + [r];
    forall x | x in ordered + [r] || x in Reverse(rest) ensures x.boxName != r.jobName {
      assert x in ordered || x in rest + [r];
    }
  }

  // ------------------------------------------------------------------
  // The iterative walk
  // ------------------------------------------------------------------

  /** Where the row called `name` is listed; the length if it is not. */
  function Position(ordered: seq<JobRow>, name: string): nat {
    if ordered == [] || ordered[0].jobName == name then 0 else 1 + Position(ordered[1..], name)
  }

  lemma {:induction false} PositionFacts(ordered: seq<JobRow>, name: string, more: seq<JobRow>)
    ensures Position(ordered, name) <= |ordered|
    ensures Position(ordered, name) < |ordered| ==>
      ordered[Position(ordered, name)].jobName == name && Position(ordered + more, name) == Position(ordered, name)
    ensures name in Names(ordered) ==> Position(ordered, name) < |ordered|
  {
    if ordered != [] {
      PositionFacts(ordered[1..], name, more);
      assert (ordered + more)[1..] == ordered[1..] + more;
      assert ordered == [ordered[0]] + ordered[1..];
    }
  }

  /** A row's box, if it has one, is listed before it. */
  ghost predicate BoxesFirst(ordered: seq<JobRow>) {
    forall i :: 0 <= i < |ordered| && ordered[i].boxName != "" ==> Position(ordered, ordered[i].boxName) < i
  }

  /** The depth-first part: a preorder of the box forest, holding exactly the rows
      reached from a top-level row. */
  method DepthFirst(rows: seq<JobRow>) returns (ordered: seq<JobRow>)
    requires UniqueNames(rows)
    ensures ordered == Forest(rows, SortBy(Tops(rows), ByName), Names(rows))
    ensures NoDup(ordered)
    ensures forall r :: r in ordered <==> r in rows && Reached(rows, r)
    ensures BoxesFirst(ordered) && SiblingsByName(ordered)
  {
    ordered := [];
    var seen: set<string> := {};
    var tops := SortBy(Tops(rows), ByName);
    var stack := Reverse(tops);
    ghost var names := Names(rows);
    ghost var target, pools := Forest(rows, tops, names), Copies(names, |tops|);
    StartTracked(rows, tops);
    while stack != []
      invariant Walking(rows, names, ordered, seen, stack, pools, target)
      decreases names - seen, |stack|
    {
      var r := stack[|stack| - 1];
      SplitLast(stack);
      stack := stack[..|stack| - 1];
      TopIsNew(rows, names, ordered, seen, stack, pools, target, r);
      if r.jobName !in seen {
        pools := Visit(rows, names, ordered, seen, stack, pools, target, r);
        seen := seen + {r.jobName};
        ordered := ordered + [r];
        var kids := Kids(rows, r);
        stack := stack + Reverse(kids);
      }
    }
    WalkDone(rows, names, ordered, seen, pools, target);
  }

  /** The loop invariant of `DepthFirst`. */
  ghost predicate Walking(rows: seq<JobRow>, names: set<string>, ordered: seq<JobRow>, seen: set<string>,
                          stack: seq<JobRow>, pools: seq<set<string>>, target: seq<JobRow>) {
    && names == Names(rows) && seen == Names(ordered)
    && Tracked(rows, ordered, stack, seen)
    && Pooled(names, stack, pools, seen)
    && ordered + Pending(rows, stack, pools) == target
    && BoxesFirst(ordered) && SiblingsByName(ordered + Reverse(stack))
  }

  /** The `seen` check never fires: names are unique and a row has one box. */
  lemma TopIsNew(rows: seq<JobRow>, names: set<string>, ordered: seq<JobRow>, seen: set<string>,
                 rest: seq<JobRow>, pools: seq<set<string>>, target: seq<JobRow>, r: JobRow)
    requires Walking(rows, names, ordered, seen, rest + [r], pools, target)
    ensures r.jobName !in seen && r in rows && (r.boxName == "" || r.boxName in seen)
  {
    assert r in rest + [r];
  }

  lemma WalkDone(rows: seq<JobRow>, names: set<string>, ordered: seq<JobRow>, seen: set<string>,
                 pools: seq<set<string>>, target: seq<JobRow>)
    requires Walking(rows, names, ordered, seen, [], pools, target)
    ensures ordered == target && NoDup(ordered) && BoxesFirst(ordered) && SiblingsByName(ordered)
    ensures forall r :: r in ordered <==> r in rows && Reached(rows, r)
  {
    assert ordered + [] == ordered && ordered + Reverse([]) == ordered;
    forall r | r in rows ensures r in ordered <==> Reached(rows, r) {
      if i :| 0 <= i < |ordered| && ordered[i] == r {
        ListedIsReached(rows, ordered, i);
      }
      if depth :| ReachedIn(rows, r, depth) {
        ReachedIsListed(rows, ordered, r, depth);
      }
    }
  }

  lemma {:induction false} ListedIsReached(rows: seq<JobRow>, ordered: seq<JobRow>, i: nat)
    requires BoxesFirst(ordered) && i < |ordered| && forall r :: r in ordered ==> r in rows
    ensures ReachedIn(rows, ordered[i], i)
  {
    if ordered[i].boxName != "" {
      var j := Position(ordered, ordered[i].boxName);
      PositionFacts(ordered, ordered[i].boxName, []);
      ListedIsReached(rows, ordered, j);
      ReachedDeeper(rows, ordered[j], j, i - 1);
      ReachedVia(rows, ordered[i], ordered[j], i);
    }
  }

  lemma ReachedVia(rows: seq<JobRow>, r: JobRow, b: JobRow, depth: nat)
    requires r in rows && b.jobName == r.boxName && depth > 0 && ReachedIn(rows, b, depth - 1)
    ensures ReachedIn(rows, r, depth)
  {
  }

  lemma {:induction false} ReachedDeeper(rows: seq<JobRow>, r: JobRow, d: nat, depth: nat)
    requires ReachedIn(rows, r, d) && d <= depth
    ensures ReachedIn(rows, r, depth)
    decreases depth
  {
    if r.boxName != "" {
      var b :| b in rows && b.jobName == r.boxName && ReachedIn(rows, b, d - 1);
      ReachedDeeper(rows, b, d - 1, depth - 1);
    }
  }

  lemma {:induction false} ReachedIsListed(rows: seq<JobRow>, ordered: seq<JobRow>, r: JobRow, depth: nat)
    requires ReachedIn(rows, r, depth)
    requires forall x :: x in rows && (x.boxName == "" || x.boxName in Names(ordered)) ==> x in ordered
    ensures r in ordered
    decreases depth
  {
    if r.boxName != "" {
      var b :| b in rows && b.jobName == r.boxName && ReachedIn(rows, b, depth - 1);
      ReachedIsListed(rows, ordered, b, depth - 1);
    }
  }

  /** The effect of visiting `r` on the invariant. */
  lemma Visit(rows: seq<JobRow>, names: set<string>, ordered: seq<JobRow>, seen: set<string>,
              rest: seq<JobRow>, pools: seq<set<string>>, target: seq<JobRow>, r: JobRow)
    returns (pools': seq<set<string>>)
    requires UniqueNames(rows) && Walking(rows, names, ordered, seen, rest + [r], pools, target)
    ensures r.jobName !in seen && r.jobName in names
    ensures Walking(rows, names, ordered + [r], seen + {r.jobName}, rest + Reverse(Kids(rows, r)), pools', target)
  {
    var kids := Kids(rows, r);
    var pool, below := pools[|rest|], pools[..|rest|];
    SplitLast(pools);
    TopIsNew(rows, names, ordered, seen, rest, pools, target, r);
    KidsFacts(rows, r);
    SortByIsSorted(ChildrenOf(rows, r.jobName), ByName);
    VisitKeepsByName(rows, ordered, rest, r, kids, seen);
    NamesAppend(ordered, r);
    VisitKeepsTracked(rows, ordered, rest, r, kids, seen);
    VisitKeepsPooled(rows, ordered, rest, below, pool, r, kids, seen, names);
    pools' := below + Copies(pool - {r.jobName}, |kids|);
    VisitPending(rows, rest, below, pool, r);
    ConcatAssociates(ordered, [r], Pending(rows, rest + Reverse(kids), pools'));
    BoxesFirstAppend(ordered, r);
  }

  lemma BoxesFirstAppend(ordered: seq<JobRow>, r: JobRow)
    requires BoxesFirst(ordered) && (r.boxName == "" || r.boxName in Names(ordered))
    ensures BoxesFirst(ordered + [r])
  {
    forall i | 0 <= i < |ordered + [r]| && (ordered + [r])[i].boxName != ""
      ensures Position(ordered + [r], (ordered + [r])[i].boxName) < i
    {
      PositionFacts(ordered, (ordered + [r])[i].boxName, [r]);
    }
  }

  lemma StartTracked(rows: seq<JobRow>, tops: seq<JobRow>)
    requires UniqueNames(rows) && tops == SortBy(Tops(rows), ByName)
    ensures Walking(rows, Names(rows), [], {}, Reverse(tops), Copies(Names(rows), |tops|), Forest(rows, tops,
        Names(rows)))
  {
    SameMembers(Tops(rows), tops);
    NoDupCarriesOver(Tops(rows), tops);
    TopsTracked(rows, tops);
    StartPending(rows, tops, Names(rows));
    ConcatEmpty(Forest(rows, tops, Names(rows)));
    TopsByName(rows, tops);
    assert Names([]) == {};
  }

  lemma TopsByName(rows: seq<JobRow>, tops: seq<JobRow>)
    requires tops == SortBy(Tops(rows), ByName)
    ensures SiblingsByName([] + Reverse(Reverse(tops)))
  {
    SortByIsSorted(Tops(rows), ByName);
    SortedAreInOrder(tops);
    ReverseTwice(tops);
  }

  lemma SortedAreInOrder(rows: seq<JobRow>)
    requires SortedBy(rows, ByName)
    ensures SiblingsByName(rows)
  {
    forall i, j | 0 <= i < j < |rows| ensures LexLe(rows[i].jobName, rows[j].jobName) {
      assert LexLe(ByName(rows[i]), ByName(rows[j]));
    }
  }

  lemma ReverseTwice(xs: seq<JobRow>)
    ensures [] + Reverse(Reverse(xs)) == xs
  {
  }

  lemma TopsTracked(rows: seq<JobRow>, tops: seq<JobRow>)
    requires NoDup(tops) && forall r :: r in tops <==> r in rows && r.boxName == ""
    ensures Tracked(rows, [], Reverse(tops), {})
  {
    NoDupReverse(tops);
  }

  lemma StartPending(rows: seq<JobRow>, tops: seq<JobRow>, names: set<string>)
    requires forall r :: r in tops ==> r.jobName in names
    ensures Pooled(names, Reverse(tops), Copies(names, |tops|), {})
    ensures Pending(rows, Reverse(tops), Copies(names, |tops|)) == Forest(rows, tops, names)
  {
    PendingPush(rows, [], [], tops, names);
    PooledPush(names, [], [], {}, tops, names);
    ConcatEmpty(Reverse(tops));
    ConcatEmpty(Copies(names, |tops|));
    ConcatEmpty(Forest(rows, tops, names));
  }

  /** Rows the walk did not reach. */
  function Unlisted(rows: seq<JobRow>, seen: set<string>): (orphans: seq<JobRow>)
    ensures forall r :: r in orphans <==> r in rows && r.jobName !in seen
    ensures UniqueNames(rows) ==> NoDup(orphans)
  {
    if rows == [] then []
    else
      assert rows == [rows[0]] + rows[1..];
      (if rows[0].jobName !in seen then [rows[0]] else []) + Unlisted(rows[1..], seen)
  }

  /** The whole order: the depth-first part, then the orphans by name.  It terminates
      and loses no row even when `box_name` references form a cycle. */
  method OrderRows(rows: seq<JobRow>) returns (ordered: seq<JobRow>, reached: nat)
    requires UniqueNames(rows)
    ensures multiset(ordered) == multiset(rows)
    ensures reached <= |ordered|
    ensures ordered[..reached] == Forest(rows, SortBy(Tops(rows), ByName), Names(rows))
    ensures forall r :: r in ordered[..reached] <==> r in rows && Reached(rows, r)
    ensures BoxesFirst(ordered[..reached]) && SiblingsByName(ordered[..reached])
    ensures SortedBy(ordered[reached..], ByName)
    ensures forall r :: r in ordered[reached..] <==> r in rows && !Reached(rows, r)
  {
    ordered := DepthFirst(rows);
    reached := |ordered|;
    var orphans := Unlisted(rows, Names(ordered));
    var sorted := SortBy(orphans, ByName);
    SortByIsSorted(orphans, ByName);
    ListedPlusOrphans(rows, ordered, orphans, sorted);
    ordered := ordered + sorted;
    assert ordered[..reached] + ordered[reached..] == ordered;
  }

  lemma ListedPlusOrphans(rows: seq<JobRow>, walk: seq<JobRow>, orphans: seq<JobRow>, sorted: seq<JobRow>)
    requires UniqueNames(rows) && NoDup(walk) && (forall r :: r in walk ==> r in rows)
    requires orphans == Unlisted(rows, Names(walk)) && multiset(sorted) == multiset(orphans)
    ensures multiset(walk + sorted) == multiset(rows)
    ensures forall r :: r in sorted <==> r in rows && r !in walk
  {
    SameMembers(orphans, sorted);
    NoDupCarriesOver(orphans, sorted);
    forall r | r in rows ensures r in walk <==> r.jobName in Names(walk) {
      if r.jobName in Names(walk) {
        var s :| s in walk && s.jobName == r.jobName;
        SameNameSameRow(rows, r, s);
      }
    }
    NoDupConcat(walk, sorted);
    NoDupSameMembers(walk + sorted, rows);
  }

  // ------------------------------------------------------------------
  // The order of the table does not matter
  // ------------------------------------------------------------------

  /** Rows with distinct names, sorted, are determined by their members. */
  lemma SameSorted(rows: seq<JobRow>, a: seq<JobRow>, b: seq<JobRow>)
    requires UniqueNames(rows) && NoDup(a) && NoDup(b)
    requires (forall r :: r in a ==> r in rows) && (forall r :: r in a <==> r in b)
    ensures SortBy(a, ByName) == SortBy(b, ByName)
  {
    var sa, sb := SortBy(a, ByName), SortBy(b, ByName);
    NoDupSameMembers(a, b);
    SortByIsSorted(a, ByName);
    SortByIsSorted(b, ByName);
    SameMembers(a, sa);
    NoDupCarriesOver(a, sa);
    forall i, j | 0 <= i < j < |sa| ensures ByName(sa[i]) != ByName(sa[j]) {
      assert sa[i] in sa && sa[j] in sa;
      if sa[i].jobName == sa[j].jobName {
        SameNameSameRow(rows, sa[i], sa[j]);
      }
    }
    DistinctTellApart(sa, ByName);
    SortedIsUnique(sa, sb, ByName);
  }

  lemma SameNames(rows: seq<JobRow>, others: seq<JobRow>)
    requires UniqueNames(rows) && multiset(rows) == multiset(others)
    ensures UniqueNames(others) && Names(rows) == Names(others)
  {
    SameMembers(rows, others);
    NoDupCarriesOver(rows, others);
    forall i, j | 0 <= i < j < |others| ensures ByName(others[i]) != ByName(others[j]) {
      assert others[i] in others && others[j] in others;
      if others[i].jobName == others[j].jobName {
        SameNameSameRow(rows, others[i], others[j]);
      }
    }
  }

  lemma SameKids(rows: seq<JobRow>, others: seq<JobRow>, r: JobRow)
    requires UniqueNames(rows) && UniqueNames(others) && forall x :: x in rows <==> x in others
    ensures Kids(rows, r) == Kids(others, r)
  {
    SameSorted(rows, ChildrenOf(rows, r.jobName), ChildrenOf(others, r.jobName));
  }

  lemma {:induction false} SameForest(rows: seq<JobRow>, others: seq<JobRow>, siblings: seq<JobRow>, pool: set<string>)
    requires UniqueNames(rows) && UniqueNames(others) && forall x :: x in rows <==> x in others
    ensures Forest(rows, siblings, pool) == Forest(others, siblings, pool)
    decreases pool, |siblings|
  {
    if siblings != [] {
      var r := siblings[0];
      SameForest(rows, others, siblings[1..], pool);
      if r.jobName in pool {
        SameKids(rows, others, r);
        SameForest(rows, others, Kids(rows, r), pool - {r.jobName});
      }
    }
  }

  /** The depth-first part depends on which rows the table has, not on their order. */
  lemma WalkIgnoresTableOrder(rows: seq<JobRow>, others: seq<JobRow>)
    requires UniqueNames(rows) && multiset(rows) == multiset(others)
    ensures Forest(rows, SortBy(Tops(rows), ByName), Names(rows))
         == Forest(others, SortBy(Tops(others), ByName), Names(others))
  {
    SameNames(rows, others);
    SameMembers(rows, others);
    SameSorted(rows, Tops(rows), Tops(others));
    SameForest(rows, others, SortBy(Tops(rows), ByName), Names(rows));
  }
}
