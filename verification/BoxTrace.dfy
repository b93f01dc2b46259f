/** The jobs a box trace resets: everything below a box, through nested boxes
    (autosys/analysis/box_trace.py, `_collect_descendants`). */
module BoxTrace {
  import opened Permutations
  import opened ReportOrder
  import opened Sorting

  /** `r` is in the box, or in a row of type BOX that is `depth` levels or less below. */
  ghost predicate DescendsIn(rows: seq<JobRow>, box: string, r: JobRow, depth: nat)
    decreases depth
  {
    r in rows && r.boxName != "" &&
    (r.boxName == box ||
     (depth > 0 && exists b :: b in rows && b.jobType == "BOX" && b.jobName == r.boxName && DescendsIn(rows, box, b, depth - 1)))
  }

  ghost predicate Descends(rows: seq<JobRow>, box: string, r: JobRow) {
    exists depth: nat :: DescendsIn(rows, box, r, depth)
  }

  /** `get_children`: the rows of a box, by name. */
  function GetChildren(rows: seq<JobRow>, box: string): seq<JobRow> {
    SortBy(ChildrenOf(rows, box), ByName)
  }

  lemma ChildrenMembers(rows: seq<JobRow>, box: string)
    ensures forall r :: r in GetChildren(rows, box) <==> r in rows && r.boxName == box && r.boxName != ""
  {
    SameMembers(ChildrenOf(rows, box), GetChildren(rows, box));
  }

  /** All rows of this box are collected. */
  ghost predicate Expanded(rows: seq<JobRow>, result: seq<JobRow>, box: string) {
    forall r :: r in rows && r.boxName == box && r.boxName != "" ==> r in result
  }

  /** The names on the frontier, and the one being expanded, are the box itself or
      boxes collected; every other one of these is expanded. */
  ghost predicate Collecting(rows: seq<JobRow>, box: string, result: seq<JobRow>, seen: set<string>,
                             frontier: seq<string>, busy: set<string>) {
    && NoDup(result) && seen == Names(result)
    && (forall r :: r in result ==> r in rows && Descends(rows, box, r))
    && (forall n :: n in frontier || n in busy ==> IsSource(box, result, n))
    && (forall n :: IsSource(box, result, n) ==> n in frontier || n in busy || Expanded(rows, result, n))
  }

  ghost predicate IsSource(box: string, result: seq<JobRow>, n: string) {
    n == box || exists r :: r in result && r.jobType == "BOX" && r.jobName == n
  }

  lemma ChildDescends(rows: seq<JobRow>, box: string, result: seq<JobRow>, n: string, child: JobRow)
    requires IsSource(box, result, n) && child in rows && child.boxName == n && n != ""
    requires forall r :: r in result ==> r in rows && Descends(rows, box, r)
    ensures Descends(rows, box, child)
  {
    if n == box {
      assert DescendsIn(rows, box, child, 0);
    } else {
      var b :| b in result && b.jobType == "BOX" && b.jobName == n;
      var depth: nat :| DescendsIn(rows, box, b, depth);
      assert DescendsIn(rows, box, child, depth + 1);
    }
  }

  lemma SourcesGrow(box: string, result: seq<JobRow>, child: JobRow, n: string)
    ensures IsSource(box, result + [child], n) <==>
      IsSource(box, result, n) || (child.jobType == "BOX" && n == child.jobName)
  {
    forall r ensures r in result + [child] <==> r in result || r == child {
    }
  }

  lemma ExpandedStays(rows: seq<JobRow>, result: seq<JobRow>, child: JobRow, n: string)
    requires Expanded(rows, result, n)
    ensures Expanded(rows, result + [child], n)
  {
  }

  lemma CollectStep(rows: seq<JobRow>, box: string, result: seq<JobRow>, seen: set<string>, frontier: seq<string>,
                    parent: string, child: JobRow)
    requires Collecting(rows, box, result, seen, frontier, {parent}) && child.jobName !in seen
    requires child in rows && child.boxName == parent && parent != ""
    ensures var more := if child.jobType == "BOX" then frontier + [child.jobName] else frontier;
      Collecting(rows, box, result + [child], seen + {child.jobName}, more, {parent})
  {
    var result', more := result + [child], if child.jobType == "BOX" then frontier + [child.jobName] else frontier;
    ChildDescends(rows, box, result, parent, child);
    assert forall r :: r in result' ==> r in result || r == child;
    forall n | n in more || n in {parent} ensures IsSource(box, result', n) {
      SourcesGrow(box, result, child, n);
    }
    forall n | IsSource(box, result', n) ensures n in more || n in {parent} || Expanded(rows, result', n) {
      SourcesGrow(box, result, child, n);
      if n !in more && n !in {parent} {
        ExpandedStays(rows, result, child, n);
      }
    }
  }

  // ----- the rows of a box are collected by name

  /** The boxes that have a row collected are expanded, except perhaps `parent`. */
  ghost predicate WholeBoxes(rows: seq<JobRow>, result: seq<JobRow>, parent: string) {
    forall r :: r in result && r.boxName != parent ==> Expanded(rows, result, r.boxName)
  }

  /** Of the rows of `parent` all are collected, or only some of `part`. */
  ghost predicate OnlyFrom(rows: seq<JobRow>, result: seq<JobRow>, parent: string, part: seq<JobRow>) {
    Expanded(rows, result, parent) || forall r :: r in result && r.boxName == parent ==> r in part
  }

  ghost predicate Collects(rows: seq<JobRow>, result: seq<JobRow>, parent: string, children: seq<JobRow>, i: nat)
    requires i <= |children|
  {
    SiblingsByName(result) && WholeBoxes(rows, result, parent) && OnlyFrom(rows, result, parent, children[..i])
  }

  lemma NextIsLater(rows: seq<JobRow>, result: seq<JobRow>, parent: string, children: seq<JobRow>, i: nat)
    requires i < |children| && Collects(rows, result, parent, children, i) && SortedBy(children, ByName)
    requires children[i] in rows && children[i].boxName == parent && parent != "" && children[i] !in result
    ensures Collects(rows, result + [children[i]], parent, children, i + 1)
  {
    var child, all := children[i], result + [children[i]];
    assert forall r :: r in all <==> r in result || r == child;
    assert !Expanded(rows, result, parent);
    assert children[..i + 1] == children[..i] + [child];
    forall r | r in result && r.boxName == parent ensures LexLe(r.jobName, child.jobName) {
      var k := IndexIn(children, i, r);
      assert LexLe(ByName(children[k]), ByName(children[i]));
    }
    forall r | r in all && r.boxName != parent ensures Expanded(rows, all, r.boxName) {
      ExpandedStays(rows, result, child, r.boxName);
    }
  }

  lemma NextIsKnown(rows: seq<JobRow>, result: seq<JobRow>, parent: string, children: seq<JobRow>, i: nat)
    requires i < |children| && Collects(rows, result, parent, children, i)
    ensures Collects(rows, result, parent, children, i + 1)
  {
    assert children[..i + 1] == children[..i] + [children[i]];
  }

  lemma StartsWhole(rows: seq<JobRow>, result: seq<JobRow>, parent: string, children: seq<JobRow>)
    requires SiblingsByName(result) && AllWhole(rows, result)
    ensures Collects(rows, result, parent, children, 0)
  {
  }

  /** Every box that has a row collected is expanded. */
  ghost predicate AllWhole(rows: seq<JobRow>, result: seq<JobRow>) {
    forall r :: r in result ==> Expanded(rows, result, r.boxName)
  }

  /** The parent is done. */
  lemma ParentDone(rows: seq<JobRow>, box: string, result: seq<JobRow>, seen: set<string>, frontier: seq<string>,
                   parent: string, children: seq<JobRow>)
    requires UniqueNames(rows) && Collecting(rows, box, result, seen, frontier, {parent})
    requires children == GetChildren(rows, parent) && AllSeen(children, seen)
    ensures Collecting(rows, box, result, seen, frontier, {})
    ensures WholeBoxes(rows, result, parent) ==> AllWhole(rows, result)
  {
    ChildrenMembers(rows, parent);
    ParentExpanded(rows, result, seen, parent, children);
  }

  lemma ChildFacts(rows: seq<JobRow>, parent: string, i: nat)
    requires i < |GetChildren(rows, parent)|
    ensures var child := GetChildren(rows, parent)[i]; child in rows && child.boxName == parent && parent != ""
  {
    ChildrenMembers(rows, parent);
    assert GetChildren(rows, parent)[i] in GetChildren(rows, parent);
  }

  /** One child: collected unless it has been before; a box goes on the frontier. */
  method CollectOne(ghost rows: seq<JobRow>, ghost box: string, ghost parent: string, child: JobRow,
                    result0: seq<JobRow>, seen0: set<string>, frontier0: seq<string>)
    returns (result: seq<JobRow>, seen: set<string>, frontier: seq<string>)
    requires Collecting(rows, box, result0, seen0, frontier0, {parent})
    requires child in rows && child.boxName == parent && parent != ""
    ensures Collecting(rows, box, result, seen, frontier, {parent})
    ensures seen == seen0 + {child.jobName} && |frontier| + |seen0| <= |frontier0| + |seen| && |seen0| <= |seen|
    ensures result == if child.jobName in seen0 then result0 else result0 + [child]
  {
    result, seen, frontier := result0, seen0, frontier0;
    if child.jobName in seen {
      return;
    }
    CollectStep(rows, box, result, seen, frontier, parent, child);
    seen := seen + {child.jobName};
    result := result + [child];
    if child.jobType == "BOX" {
      frontier := frontier + [child.jobName];
    }
  }

  /** The names of these rows have been seen. */
  ghost predicate AllSeen(rows: seq<JobRow>, seen: set<string>) {
    forall j :: 0 <= j < |rows| ==> rows[j].jobName in seen
  }

  lemma AllSeenMore(children: seq<JobRow>, i: nat, seen: set<string>, more: set<string>)
    requires i < |children| && AllSeen(children[..i], seen) && seen <= more && children[i].jobName in more
    ensures AllSeen(children[..i + 1], more)
  {
    assert forall j :: 0 <= j < i ==> children[..i + 1][j] == children[..i][j];
  }

  /** The inner loop: the rows of one box that are not collected yet. */
  method ExpandBox(rows: seq<JobRow>, ghost box: string, parent: string, result0: seq<JobRow>, seen0: set<string>,
                   frontier0: seq<string>)
    returns (result: seq<JobRow>, seen: set<string>, frontier: seq<string>)
    requires Collecting(rows, box, result0, seen0, frontier0, {parent})
    requires SiblingsByName(result0) && AllWhole(rows, result0)
    ensures Collecting(rows, box, result, seen, frontier, {parent})
    ensures SiblingsByName(result) && WholeBoxes(rows, result, parent)
    ensures AllSeen(GetChildren(rows, parent), seen)
    ensures |frontier| + |seen0| <= |frontier0| + |seen| && |seen0| <= |seen|
  {
    result, seen, frontier := result0, seen0, frontier0;
    var children := GetChildren(rows, parent);
    SortByIsSorted(ChildrenOf(rows, parent), ByName);
    StartsWhole(rows, result, parent, children);
    for i := 0 to |children|
      invariant Collecting(rows, box, result, seen, frontier, {parent})
      invariant Collects(rows, result, parent, children, i)
      invariant |frontier| + |seen0| <= |frontier0| + |seen| && |seen0| <= |seen|
      invariant AllSeen(children[..i], seen)
    {
      ghost var before := seen;
      ChildFacts(rows, parent, i);
      NextIsKnown(rows, result, parent, children, i);
      if children[i].jobName !in seen {
        NextIsLater(rows, result, parent, children, i);
      }
      result, seen, frontier := CollectOne(rows, box, parent, children[i], result, seen, frontier);
      AllSeenMore(children, i, before, seen);
    }
    assert children[..|children|] == children;
  }

  lemma ParentExpanded(rows: seq<JobRow>, result: seq<JobRow>, seen: set<string>, parent: string, children: seq<JobRow>)
    requires UniqueNames(rows) && seen == Names(result) && forall r :: r in result ==> r in rows
    requires forall r :: r in children <==> r in rows && r.boxName == parent && r.boxName != ""
    requires forall j :: 0 <= j < |children| ==> children[j].jobName in seen
    ensures Expanded(rows, result, parent)
  {
    forall r | r in rows && r.boxName == parent && r.boxName != "" ensures r in result {
      assert r in children;
      var s :| s in result && s.jobName == r.jobName;
      SameNameSameRow(rows, r, s);
    }
  }

  lemma {:induction false} DescendantIsCollected(rows: seq<JobRow>, box: string, result: seq<JobRow>, r: JobRow,
                                                 depth: nat)
    requires DescendsIn(rows, box, r, depth)
    requires forall n :: IsSource(box, result, n) ==> Expanded(rows, result, n)
    ensures r in result
    decreases depth
  {
    if r.boxName == box {
      assert IsSource(box, result, box);
    } else {
      var b :| b in rows && b.jobType == "BOX" && b.jobName == r.boxName && DescendsIn(rows, box, b, depth - 1);
      DescendantIsCollected(rows, box, result, b, depth - 1);
      assert IsSource(box, result, r.boxName);
    }
  }

  lemma SeenInNames(rows: seq<JobRow>, result: seq<JobRow>)
    requires forall r :: r in result ==> r in rows
    ensures |Names(result)| <= |Names(rows)|
  {
    assert Names(result) <= Names(rows);
    SubsetSize(Names(result), Names(rows));
  }

  lemma {:induction false} SubsetSize<T>(a: set<T>, b: set<T>)
    requires a <= b
    ensures |a| <= |b|
    decreases b
  {
    if a != {} {
      var x :| x in a;
      SubsetSize(a - {x}, b - {x});
    }
  }

  /** Every row below the box, through rows of type BOX, exactly once, also when the
      `box_name` references form a cycle; the rows of one box by name. */
  method CollectDescendants(rows: seq<JobRow>, box: string) returns (result: seq<JobRow>)
    requires UniqueNames(rows)
    ensures NoDup(result)
    ensures forall r :: r in result <==> Descends(rows, box, r)
    ensures SiblingsByName(result)
  {
    var seen: set<string>, frontier := {}, [box];
    result := [];
    SeenInNames(rows, result);
    while |frontier| > 0
      invariant Collecting(rows, box, result, seen, frontier, {})
      invariant SiblingsByName(result) && AllWhole(rows, result)
      invariant |seen| <= |Names(rows)|
      decreases 2 * (|Names(rows)| - |seen|) + |frontier|
    {
      var parent := frontier[|frontier| - 1];
      var rest := frontier[..|frontier| - 1];
      SplitLast(frontier);
      assert Collecting(rows, box, result, seen, rest, {parent});
      result, seen, frontier := ExpandBox(rows, box, parent, result, seen, rest);
      ParentDone(rows, box, result, seen, frontier, parent, GetChildren(rows, parent));
      SeenInNames(rows, result);
    }
    forall r | Descends(rows, box, r) ensures r in result {
      var depth: nat :| DescendsIn(rows, box, r, depth);
      DescendantIsCollected(rows, box, result, r, depth);
    }
  }
}
