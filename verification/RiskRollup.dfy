/** Boxes inherit the worst risk of what they contain
    (autosys/analysis/complexity.py, `build_report`). */
module RiskRollup {
  import opened OperationalRisk
  import opened Permutations
  import opened ReportOrder

  datatype Assessment = Assessment(row: JobRow, risk: Risk, riskSource: string)

  predicate IsBox(a: Assessment) {
    a.row.jobType == "BOX"
  }

  ghost predicate IsChild(results: seq<Assessment>, i: int, j: int) {
    && 0 <= i < |results| && 0 <= j < |results|
    && results[j].row.boxName == results[i].row.jobName && results[j].row.boxName != ""
  }

  /** `x` lies at most `depth` levels below `i`, through rows of type BOX. */
  ghost predicate Below(results: seq<Assessment>, i: int, x: int, depth: nat)
    decreases depth
  {
    0 <= i < |results| &&
    (x == i ||
     (depth > 0 && IsBox(results[i]) && exists j :: IsChild(results, i, j) && Below(results, j, x, depth - 1)))
  }

  ghost predicate InSubtree(results: seq<Assessment>, i: int, x: int) {
    0 <= x < |results| && exists depth: nat :: Below(results, i, x, depth)
  }

  /** `final` has the highest initial risk found in the subtree of `i`, together with
      that member's risk source, which is the row's own unless its risk went up. */
  ghost predicate RolledUp(results: seq<Assessment>, i: int, final: Assessment)
    requires 0 <= i < |results|
  {
    && (final.risk == results[i].risk ==> final.riskSource == results[i].riskSource)
    && (forall x :: InSubtree(results, i, x) ==> RiskOrder(results[x].risk) <= RiskOrder(final.risk))
    && (exists m :: InSubtree(results, i, m) && final.risk == results[m].risk && final.riskSource == results[m].riskSource)
  }

  ghost predicate SameRows(a: seq<Assessment>, b: seq<Assessment>) {
    |a| == |b| && forall i :: 0 <= i < |a| ==> a[i].row == b[i].row
  }

  lemma SubtreeSelf(results: seq<Assessment>, i: int)
    requires 0 <= i < |results|
    ensures InSubtree(results, i, i)
  {
    assert Below(results, i, i, 0);
  }

  lemma SubtreeChild(results: seq<Assessment>, i: int, j: int, x: int)
    requires IsChild(results, i, j) && IsBox(results[i]) && InSubtree(results, j, x)
    ensures InSubtree(results, i, x)
  {
    var depth: nat :| Below(results, j, x, depth);
    assert Below(results, i, x, depth + 1);
  }

  /** What one turn of the reverse loop leaves at row `i`. */
  function Inherit(own: Assessment, worst: Assessment): Assessment {
    if RiskOrder(worst.risk) > RiskOrder(own.risk)
    then own.(risk := worst.risk, riskSource := worst.riskSource) else own
  }

  /** `by_name` */
  ghost predicate Indexes(byName: map<string, nat>, results: seq<Assessment>) {
    && (forall i :: 0 <= i < |results| ==> results[i].row.jobName in byName && byName[results[i].row.jobName] == i)
    && (forall n :: n in byName ==> byName[n] < |results| && results[byName[n]].row.jobName == n)
  }

  /** The included children of `box`, in the order of the full job set. */
  function Children(allRows: seq<JobRow>, byName: map<string, nat>, box: string): (children: seq<nat>)
    ensures forall j :: j in children <==>
      exists c :: c in allRows && c.boxName == box && c.boxName != "" && c.jobName in byName && byName[c.jobName] == j
  {
    if allRows == [] then []
    else
      assert allRows == [allRows[0]] + allRows[1..];
      var c := allRows[0];
      (if c.boxName == box && c.boxName != "" && c.jobName in byName then [byName[c.jobName]] else [])
      + Children(allRows[1..], byName, box)
  }

  lemma ChildrenFacts(results: seq<Assessment>, allRows: seq<JobRow>, byName: map<string, nat>, i: int)
    requires 0 <= i < |results| && Indexes(byName, results)
    requires UniqueNames(allRows) && forall j :: 0 <= j < |results| ==> results[j].row in allRows
    ensures forall j :: j in Children(allRows, byName, results[i].row.jobName) <==> IsChild(results, i, j)
  {
    var children := Children(allRows, byName, results[i].row.jobName);
    forall j ensures j in children <==> IsChild(results, i, j) {
      if j in children {
        var c :| c in allRows && c.boxName == results[i].row.jobName && c.boxName != "" && c.jobName in byName &&
            byName[c.jobName] == j;
        SameNameSameRow(allRows, c, results[j].row);
      }
      if IsChild(results, i, j) {
        assert results[j].row in allRows && byName[results[j].row.jobName] == j;
      }
    }
  }

  /** `worst` is the first of the children with the highest risk; -1 without any. */
  ghost predicate IsFirstWorst(results: seq<Assessment>, children: seq<nat>, worst: int) {
    if children == [] then worst == -1
    else exists k :: 0 <= k < |children| && worst == children[k] && FirstMax(results, children, k)
  }

  /** `max(children, key=...)` */
  method WorstChild(results: array<Assessment>, children: seq<nat>) returns (worst: int)
    requires forall l :: 0 <= l < |children| ==> children[l] < results.Length
    ensures IsFirstWorst(results[..], children, worst)
  {
    if children == [] {
      return -1;
    }
    var k := 0;
    for l := 1 to |children|
      invariant 0 <= k < l
      invariant FirstMax(results[..], children[..l], k)
    {
      assert children[..l + 1] == children[..l] + [children[l]];
      if RiskOrder(results[children[l]].risk) > RiskOrder(results[children[k]].risk) {
        k := l;
      }
    }
    assert children[..|children|] == children;
    return children[k];
  }

  ghost predicate FirstMax(results: seq<Assessment>, children: seq<nat>, k: int) {
    && 0 <= k < |children| && (forall l :: 0 <= l < |children| ==> children[l] < |results|)
    && (forall l :: 0 <= l < |children| ==> RiskOrder(results[children[l]].risk) <= RiskOrder(results[children[k]].risk))
    && (forall l :: 0 <= l < k ==> RiskOrder(results[children[l]].risk) < RiskOrder(results[children[k]].risk))
  }

  /** Row `p` of the full job set is an included child of `box`. */
  predicate IsChildRow(allRows: seq<JobRow>, byName: map<string, nat>, box: string, p: int) {
    0 <= p < |allRows| && allRows[p].boxName == box && allRows[p].boxName != "" && allRows[p].jobName in byName
  }

  /** The children come in the order of the full job set. */
  lemma {:induction false} ChildRowOf(allRows: seq<JobRow>, byName: map<string, nat>, box: string,
      k: nat) returns (p: nat)
    requires k < |Children(allRows, byName, box)|
    ensures IsChildRow(allRows, byName, box, p) && byName[allRows[p].jobName] == Children(allRows, byName, box)[k]
    ensures forall e :: IsChildRow(allRows, byName, box, e) && e < p ==>
      byName[allRows[e].jobName] in Children(allRows, byName, box)[..k]
  {
    var children, rest := Children(allRows, byName, box), Children(allRows[1..], byName, box);
    if IsChildRow(allRows, byName, box, 0) {
      assert children == [byName[allRows[0].jobName]] + rest;
      if k == 0 {
        p := 0;
      } else {
        p := ChildRowOf(allRows[1..], byName, box, k - 1);
        assert children[..k] == [children[0]] + rest[..k - 1];
        EarlierChildren(allRows, byName, box, p, rest[..k - 1], children[..k]);
        p := p + 1;
      }
    } else {
      assert children == rest;
      p := ChildRowOf(allRows[1..], byName, box, k);
      EarlierChildren(allRows, byName, box, p, rest[..k], children[..k]);
      p := p + 1;
    }
  }

  lemma EarlierChildren(allRows: seq<JobRow>, byName: map<string, nat>, box: string, p: nat, rest: seq<nat>,
      all: seq<nat>)
    requires allRows != []
    requires forall e :: IsChildRow(allRows[1..], byName, box, e) && e < p ==> byName[allRows[1..][e].jobName] in rest
    requires forall x :: x in rest ==> x in all
    requires IsChildRow(allRows, byName, box, 0) ==> byName[allRows[0].jobName] in all
    ensures forall e :: IsChildRow(allRows, byName, box, e) && e < p + 1 ==> byName[allRows[e].jobName] in all
  {
    forall e | IsChildRow(allRows, byName, box, e) && e < p + 1 ensures byName[allRows[e].jobName] in all {
      if e > 0 {
        assert allRows[1..][e - 1] == allRows[e];
        assert IsChildRow(allRows[1..], byName, box, e - 1);
      }
    }
  }

  /** The child a box inherits from: of those with the highest risk, the one that comes
      first in the full job set. */
  lemma WorstIsFirstInTable(results: seq<Assessment>, allRows: seq<JobRow>, byName: map<string, nat>, box: string,
                            worst: nat) returns (p: nat)
    requires forall n :: n in byName ==> byName[n] < |results|
    requires IsFirstWorst(results, Children(allRows, byName, box), worst)
    ensures IsChildRow(allRows, byName, box, p) && byName[allRows[p].jobName] == worst
    ensures forall e :: IsChildRow(allRows, byName, box, e) ==>
      var risk := RiskOrder(results[byName[allRows[e].jobName]].risk);
      risk <= RiskOrder(results[worst].risk) && (e < p ==> risk < RiskOrder(results[worst].risk))
  {
    var children := Children(allRows, byName, box);
    var k :| 0 <= k < |children| && worst == children[k] && FirstMax(results, children, k);
    p := ChildRowOf(allRows, byName, box, k);
    forall e | IsChildRow(allRows, byName, box, e)
      ensures var risk := RiskOrder(results[byName[allRows[e].jobName]].risk);
        risk <= RiskOrder(results[worst].risk) && (e < p ==> risk < RiskOrder(results[worst].risk))
    {
      var x := byName[allRows[e].jobName];
      assert allRows[e] in allRows && x in children;
      var l :| 0 <= l < |children| && children[l] == x;
      if e < p {
        var m := IndexIn(children, k, x);
      }
    }
  }

  /** What the roll-up is given: the assessed rows, their index by name, and the full
      job set. */
  ghost predicate Given(results: seq<Assessment>, allRows: seq<JobRow>, byName: map<string, nat>) {
    Indexes(byName, results) && UniqueNames(allRows) && forall j :: 0 <= j < |results| ==> results[j].row in allRows
  }

  // ------------------------------------------------------------------
  // The reverse walk
  // ------------------------------------------------------------------

  /** What the turn of row `i` sees: later rows as they end, the others as they start. */
  ghost function Seen(start: seq<Assessment>, final: seq<Assessment>, i: int): (seen: seq<Assessment>)
    requires 0 <= i < |start| == |final|
    ensures |seen| == |start| && forall j :: 0 <= j < |start| ==> seen[j] == if j > i then final[j] else start[j]
  {
    start[..i + 1] + final[i + 1..]
  }

  /** Row `i` ends as its turn leaves it: a box inherits from the first of its worst
      children, if that one is worse than the box. */
  ghost predicate Turned(start: seq<Assessment>, final: seq<Assessment>, children: seq<nat>, i: int)
    requires 0 <= i < |start| == |final|
  {
    if !IsBox(start[i]) || children == [] then final[i] == start[i]
    else exists k :: FirstMax(Seen(start, final, i), children, k)
                     && final[i] == Inherit(start[i], Seen(start, final, i)[children[k]])
  }

  /** The rows from `from` on have had their turns. */
  ghost predicate Walked(start: seq<Assessment>, final: seq<Assessment>, from: int, allRows: seq<JobRow>,
                         byName: map<string, nat>) {
    && 0 <= from <= |start| == |final|
    && (forall i :: 0 <= i < from ==> final[i] == start[i])
    && (forall i :: from <= i < |start| ==> Turned(start, final, Children(allRows, byName, start[i].row.jobName), i))
  }

  /** One turn on its own: a row changes after all later ones, so what they saw stays. */
  lemma TurnKeepsWalked(start: seq<Assessment>, now: seq<Assessment>, i: int, v: Assessment, allRows: seq<JobRow>,
                        byName: map<string, nat>)
    requires Walked(start, now, i + 1, allRows, byName) && 0 <= i < |now|
    requires Turned(start, now[i := v], Children(allRows, byName, start[i].row.jobName), i)
    ensures Walked(start, now[i := v], i, allRows, byName)
  {
    var final := now[i := v];
    forall j | i <= j < |start| ensures Turned(start, final, Children(allRows, byName, start[j].row.jobName), j) {
      if j > i {
        assert Seen(start, final, j) == Seen(start, now, j);
      }
    }
  }

  lemma BoxTurned(start: seq<Assessment>, now: seq<Assessment>, i: int, children: seq<nat>, worst: int)
    requires |start| == |now| && 0 <= i < |now| && IsBox(start[i]) && IsFirstWorst(now, children, worst)
    requires forall j :: 0 <= j <= i ==> now[j] == start[j]
    ensures if worst < 0 then children == []
            else worst < |now| && Turned(start, now[i := Inherit(now[i], now[worst])], children, i)
  {
    if children != [] {
      var k :| 0 <= k < |children| && worst == children[k] && FirstMax(now, children, k);
      assert Seen(start, now[i := Inherit(now[i], now[worst])], i) == now;
    }
  }

  /** The reverse walk over the report, in place. */
  method RollUp(results: array<Assessment>, allRows: seq<JobRow>, byName: map<string, nat>)
    requires Given(results[..], allRows, byName)
    modifies results
    ensures Walked(old(results[..]), results[..], 0, allRows, byName)
    ensures SameRows(old(results[..]), results[..])
    ensures forall i :: 0 <= i < results.Length && Settled(old(results[..]), i) ==>
        RolledUp(old(results[..]), i, results[i])
    ensures forall i :: 0 <= i < results.Length && !IsBox(results[i]) ==> results[i] == old(results[i])
    ensures forall i :: 0 <= i < results.Length ==> RiskOrder(old(results[i]).risk) <= RiskOrder(results[i].risk)
  {
    ghost var start := results[..];
    for i := results.Length downto 0
      invariant Walked(start, results[..], i, allRows, byName) && SameRows(start, results[..])
    {
      Turn(results, allRows, byName, i, start);
    }
    WalkFacts(start, results[..], allRows, byName);
  }

  /** One turn of the reverse walk. */
  method Turn(results: array<Assessment>, allRows: seq<JobRow>, byName: map<string, nat>, i: nat,
              ghost start: seq<Assessment>)
    requires i < results.Length && Given(start, allRows, byName)
    requires Walked(start, results[..], i + 1, allRows, byName) && SameRows(start, results[..])
    modifies results
    ensures Walked(start, results[..], i, allRows, byName) && SameRows(start, results[..])
  {
    ghost var now := results[..];
    if !IsBox(results[i]) {
      LeafTurn(start, now, i, allRows, byName);
      return;
    }
    var children := Children(allRows, byName, results[i].row.jobName);
    ChildrenAreRows(start, allRows, byName, i);
    var worst := WorstChild(results, children);
    BoxTurn(start, now, i, worst, allRows, byName);
    if worst >= 0 {
      results[i] := Inherit(results[i], results[worst]);
    }
    assert results[..] == Updated(now, i, worst);
  }

  /** The results after the turn of box `i`. */
  ghost function Updated(now: seq<Assessment>, i: int, worst: int): seq<Assessment>
    requires 0 <= i < |now| && worst < |now|
  {
    if worst >= 0 then now[i := Inherit(now[i], now[worst])] else now
  }

  lemma ChildrenAreRows(results: seq<Assessment>, allRows: seq<JobRow>, byName: map<string, nat>, i: int)
    requires 0 <= i < |results| && Given(results, allRows, byName)
    ensures forall l :: 0 <= l < |Children(allRows, byName, results[i].row.jobName)| ==>
      Children(allRows, byName, results[i].row.jobName)[l] < |results|
  {
    var children := Children(allRows, byName, results[i].row.jobName);
    ChildrenFacts(results, allRows, byName, i);
    assert forall l :: 0 <= l < |children| ==> children[l] in children;
  }

  lemma LeafTurn(start: seq<Assessment>, now: seq<Assessment>, i: int, allRows: seq<JobRow>, byName: map<string, nat>)
    requires Walked(start, now, i + 1, allRows, byName) && 0 <= i < |now| && !IsBox(now[i])
    ensures Walked(start, now, i, allRows, byName)
  {
    assert now[i := now[i]] == now;
    TurnKeepsWalked(start, now, i, now[i], allRows, byName);
  }

  lemma BoxTurn(start: seq<Assessment>, now: seq<Assessment>, i: int, worst: int, allRows: seq<JobRow>,
                byName: map<string, nat>)
    requires Walked(start, now, i + 1, allRows, byName) && 0 <= i < |now| && IsBox(now[i]) && SameRows(start, now)
    requires IsFirstWorst(now, Children(allRows, byName, now[i].row.jobName), worst)
    ensures worst < |now| && Walked(start, Updated(now, i, worst), i, allRows, byName)
    ensures SameRows(start, Updated(now, i, worst))
  {
    assert now[i := now[i]] == now;
    BoxTurned(start, now, i, Children(allRows, byName, start[i].row.jobName), worst);
    TurnKeepsWalked(start, now, i, Updated(now, i, worst)[i], allRows, byName);
  }

  // ------------------------------------------------------------------
  // What the walk achieves
  // ------------------------------------------------------------------

  /** In a walk, each box ends at the highest of its own risk and those its turn saw. */
  ghost predicate Takes(start: seq<Assessment>, final: seq<Assessment>, i: int)
    requires 0 <= i < |start| == |final|
  {
    && final[i].row == start[i].row && RiskOrder(start[i].risk) <= RiskOrder(final[i].risk)
    && (IsBox(start[i]) ==> forall j :: IsChild(start, i, j) ==>
          RiskOrder(Seen(start, final, i)[j].risk) <= RiskOrder(final[i].risk))
    && (final[i] == start[i] ||
        (IsBox(start[i]) && RiskOrder(start[i].risk) < RiskOrder(final[i].risk) &&
         exists j :: IsChild(start, i, j) && Seen(start, final, i)[j].risk == final[i].risk
                     && Seen(start, final, i)[j].riskSource == final[i].riskSource))
  }

  lemma TurnTakes(start: seq<Assessment>, final: seq<Assessment>, i: int, children: seq<nat>)
    requires 0 <= i < |start| == |final| && Turned(start, final, children, i)
    requires forall j :: j in children <==> IsChild(start, i, j)
    ensures Takes(start, final, i)
  {
    var seen := Seen(start, final, i);
    if IsBox(start[i]) {
      if children == [] {
        forall j ensures !IsChild(start, i, j) {
        }
      } else {
        var k :| FirstMax(seen, children, k) && final[i] == Inherit(start[i], seen[children[k]]);
        assert children[k] in children;
        forall j | IsChild(start, i, j) ensures RiskOrder(seen[j].risk) <= RiskOrder(final[i].risk) {
          assert j in children;
        }
      }
    }
  }

  lemma WalkTakes(start: seq<Assessment>, final: seq<Assessment>, allRows: seq<JobRow>, byName: map<string, nat>)
    requires Given(start, allRows, byName) && Walked(start, final, 0, allRows, byName)
    ensures forall i :: 0 <= i < |start| ==> Takes(start, final, i)
  {
    forall i | 0 <= i < |start| ensures Takes(start, final, i) {
      ChildrenFacts(start, allRows, byName, i);
      TurnTakes(start, final, i, Children(allRows, byName, start[i].row.jobName));
    }
  }

  lemma WalkFacts(start: seq<Assessment>, final: seq<Assessment>, allRows: seq<JobRow>, byName: map<string, nat>)
    requires Given(start, allRows, byName) && Walked(start, final, 0, allRows, byName)
    ensures forall i :: 0 <= i < |start| ==> RiskOrder(start[i].risk) <= RiskOrder(final[i].risk)
    ensures forall i :: 0 <= i < |start| && Settled(start, i) ==> RolledUp(start, i, final[i])
  {
    WalkTakes(start, final, allRows, byName);
    forall i | 0 <= i < |start| ensures RiskOrder(start[i].risk) <= RiskOrder(final[i].risk) {
      assert Takes(start, final, i);
    }
    forall i | 0 <= i < |start| && Settled(start, i) ensures RolledUp(start, i, final[i]) {
      SettledRollsUp(start, final, i);
    }
  }

  /** Box `j`, a child of box `x`, has something to hand up: another child than `x`. */
  ghost predicate HandsUp(results: seq<Assessment>, x: int, j: int) {
    IsChild(results, x, j) && IsBox(results[x]) && IsBox(results[j]) && exists k :: k != x && IsChild(results, j, k)
  }

  /** Below `i`, every box is listed before the boxes that hand something up to it. */
  ghost predicate Settled(results: seq<Assessment>, i: int) {
    forall x, j :: InSubtree(results, i, x) && HandsUp(results, x, j) ==> x <= j
  }

  lemma SettledBelow(results: seq<Assessment>, i: int, j: int)
    requires Settled(results, i) && IsChild(results, i, j) && IsBox(results[i])
    ensures Settled(results, j)
  {
    forall x | InSubtree(results, j, x) ensures InSubtree(results, i, x) {
      SubtreeChild(results, i, j, x);
    }
  }

  /** A settled row ends with the highest initial risk of its subtree. */
  lemma {:induction false} SettledRollsUp(start: seq<Assessment>, final: seq<Assessment>, i: int)
    requires |start| == |final| && 0 <= i < |start| && Settled(start, i)
    requires forall j :: 0 <= j < |start| ==> Takes(start, final, j)
    ensures RolledUp(start, i, final[i])
    decreases |start| - i
  {
    SubtreeSelf(start, i);
    if IsBox(start[i]) {
      forall j | IsChild(start, i, j) && j > i ensures RolledUp(start, j, final[j]) {
        SettledBelow(start, i, j);
        SettledRollsUp(start, final, j);
      }
    }
    assert Takes(start, final, i);
    forall x | InSubtree(start, i, x) ensures RiskOrder(start[x].risk) <= RiskOrder(final[i].risk) {
      var depth: nat :| Below(start, i, x, depth);
      NothingIsMissed(start, final, i, x, depth);
    }
    if final[i] != start[i] {
      var j :| IsChild(start, i, j) && Seen(start, final, i)[j].risk == final[i].risk
               && Seen(start, final, i)[j].riskSource == final[i].riskSource;
      SubtreeSelf(start, j);
      var m :| InSubtree(start, j, m) && final[i].risk == start[m].risk && final[i].riskSource == start[m].riskSource;
      SubtreeChild(start, i, j, m);
    }
  }

  lemma {:induction false} NothingIsMissed(start: seq<Assessment>, final: seq<Assessment>, i: int, x: int, depth: nat)
    requires |start| == |final| && 0 <= i < |start| && 0 <= x < |start| && Settled(start, i) && Takes(start, final, i)
    requires IsBox(start[i]) ==> forall j :: IsChild(start, i, j) && j > i ==> RolledUp(start, j, final[j])
    requires Below(start, i, x, depth)
    ensures RiskOrder(start[x].risk) <= RiskOrder(final[i].risk)
    decreases depth
  {
    if x != i {
      var j :| IsChild(start, i, j) && Below(start, j, x, depth - 1);
      assert RiskOrder(Seen(start, final, i)[j].risk) <= RiskOrder(final[i].risk);
      if j > i {
        assert InSubtree(start, j, x);
      } else if j == i {
        NothingIsMissed(start, final, i, x, depth - 1);
      } else if x != j {
        // Read before it had its turn: then `i` is all it has.
        var k :| IsChild(start, j, k) && Below(start, k, x, depth - 2);
        SubtreeSelf(start, i);
        assert k == i by {
          if k != i {
            assert HandsUp(start, i, j);
          }
        }
        NothingIsMissed(start, final, i, x, depth - 2);
      }
    }
  }

  /** Within the first `n` rows a box comes before its children, which are among
      the first `n` rows too. */
  ghost predicate ParentsFirst(results: seq<Assessment>, n: int) {
    0 <= n <= |results| && forall i, j :: i < n && IsChild(results, i, j) ==> i < j < n
  }

  lemma ParentsFirstSettles(results: seq<Assessment>, n: int, i: int)
    requires ParentsFirst(results, n) && 0 <= i < n
    ensures Settled(results, i)
  {
    forall x, j | InSubtree(results, i, x) && HandsUp(results, x, j) ensures x <= j {
      var depth: nat :| Below(results, i, x, depth);
      StaysInFront(results, n, i, x, depth);
    }
  }

  lemma {:induction false} StaysInFront(results: seq<Assessment>, n: int, i: int, x: int, depth: nat)
    requires ParentsFirst(results, n) && i < n && Below(results, i, x, depth)
    ensures x < n
    decreases depth
  {
    if x != i {
      var j :| IsChild(results, i, j) && Below(results, j, x, depth - 1);
      StaysInFront(results, n, j, x, depth - 1);
    }
  }

  // ----- rows that are not settled

  lemma {:induction false} FirstMaxExists(results: seq<Assessment>, children: seq<nat>, n: nat) returns (k: nat)
    requires 0 < n <= |children| && forall l :: 0 <= l < |children| ==> children[l] < |results|
    ensures FirstMax(results, children[..n], k)
  {
    if n == 1 {
      k := 0;
    } else {
      k := FirstMaxExists(results, children, n - 1);
      if RiskOrder(results[children[n - 1]].risk) > RiskOrder(results[children[k]].risk) {
        k := n - 1;
      }
    }
  }

  /** There is a walk from every start. */
  lemma {:induction false} WalkExists(start: seq<Assessment>, i: nat, allRows: seq<JobRow>, byName: map<string, nat>)
    returns (final: seq<Assessment>)
    requires Given(start, allRows, byName) && i <= |start|
    ensures Walked(start, final, i, allRows, byName)
    decreases |start| - i
  {
    if i == |start| {
      return start;
    }
    var now := WalkExists(start, i + 1, allRows, byName);
    var children := Children(allRows, byName, start[i].row.jobName);
    var v := now[i];
    if IsBox(start[i]) && children != [] {
      ChildrenFacts(start, allRows, byName, i);
      forall l | 0 <= l < |children| ensures children[l] < |now| {
        assert children[l] in children;
      }
      var k := FirstMaxExists(now, children, |children|);
      assert children[..|children|] == children;
      v := Inherit(now[i], now[children[k]]);
      BoxTurned(start, now, i, children, children[k]);
    }
    TurnKeepsWalked(start, now, i, v, allRows, byName);
    return now[i := v];
  }

  /** The rows with one HIGH among NO_DATA. */
  function OneHigh(rows: seq<Assessment>, k: int): (start: seq<Assessment>)
    ensures SameRows(rows, start)
    ensures forall i :: 0 <= i < |rows| ==> start[i].risk == if i == k then HIGH else NO_DATA
  {
    seq(|rows|, i requires 0 <= i < |rows| => rows[i].(risk := if i == k then HIGH else NO_DATA))
  }

  /** If the one HIGH row's box is listed before box `x`, no row after `x` but itself
      becomes HIGH. */
  lemma {:induction false} HighStays(rows: seq<Assessment>, start: seq<Assessment>, final: seq<Assessment>,
                                     x: int, j: int, k: int, r: int)
    requires SameRows(rows, start) && |start| == |final| && DistinctRows(rows)
    requires forall i :: 0 <= i < |rows| ==> start[i].risk == if i == k then HIGH else NO_DATA
    requires forall i :: 0 <= i < |start| ==> Takes(start, final, i)
    requires IsChild(rows, j, k) && j < x < r < |rows| && r != k
    ensures final[r].risk != HIGH
    decreases |rows| - r
  {
    assert Takes(start, final, r);
    if final[r].risk == HIGH {
      var c :| IsChild(start, r, c) && Seen(start, final, r)[c].risk == HIGH;
      if c == k {
        OnlyParent(rows, r, j, k);
      } else if c > r {
        HighStays(rows, start, final, x, j, k, c);
      }
    }
  }

  ghost predicate DistinctRows(rows: seq<Assessment>) {
    forall i, j :: 0 <= i < j < |rows| ==> rows[i].row.jobName != rows[j].row.jobName
  }

  lemma OnlyParent(rows: seq<Assessment>, i: int, j: int, k: int)
    requires DistinctRows(rows) && IsChild(rows, i, k) && IsChild(rows, j, k)
    ensures i == j
  {
  }

  /** A box listed after a child box that has something to hand up misses it. */
  lemma UnsettledMisses(rows: seq<Assessment>, start: seq<Assessment>, final: seq<Assessment>, x: int, j: int, k: int)
    requires SameRows(rows, start) && |start| == |final| && DistinctRows(rows)
    requires forall i :: 0 <= i < |rows| ==> start[i].risk == if i == k then HIGH else NO_DATA
    requires forall i :: 0 <= i < |start| ==> Takes(start, final, i)
    requires IsChild(rows, x, j) && IsChild(rows, j, k) && j < x && k != x
    ensures final[x].risk != HIGH
  {
    assert Takes(start, final, x);
    if final[x].risk == HIGH {
      var c :| IsChild(start, x, c) && Seen(start, final, x)[c].risk == HIGH;
      if c == k {
        OnlyParent(rows, x, j, k);
      } else {
        HighStays(rows, start, final, x, j, k, c);
      }
    }
  }

  lemma GrandchildBelow(rows: seq<Assessment>, x: int, j: int, k: int)
    requires IsChild(rows, x, j) && IsChild(rows, j, k) && IsBox(rows[x]) && IsBox(rows[j])
    ensures InSubtree(rows, x, k)
  {
    SubtreeSelf(rows, k);
    SubtreeChild(rows, j, k, k);
    SubtreeChild(rows, x, j, k);
  }

  /** So there are risks for which the walk does not roll it up. */
  lemma UnsettledFails(rows: seq<Assessment>, x: int, j: int, allRows: seq<JobRow>, byName: map<string, nat>)
    returns (start: seq<Assessment>, final: seq<Assessment>)
    requires Given(rows, allRows, byName) && HandsUp(rows, x, j) && j < x
    ensures SameRows(rows, start) && Walked(start, final, 0, allRows, byName)
    ensures !RolledUp(start, x, final[x])
  {
    var k :| k != x && IsChild(rows, j, k);
    start := OneHigh(rows, k);
    SameRowsGiven(rows, start, allRows, byName);
    final := WalkExists(start, 0, allRows, byName);
    WalkTakes(start, final, allRows, byName);
    UnsettledMisses(rows, start, final, x, j, k);
    GrandchildBelow(start, x, j, k);
    MissesOne(start, x, k, final[x]);
  }

  lemma MissesOne(start: seq<Assessment>, x: int, k: int, v: Assessment)
    requires 0 <= x < |start| && InSubtree(start, x, k) && start[k].risk == HIGH && v.risk != HIGH
    ensures !RolledUp(start, x, v)
  {
  }

  lemma SameRowsGiven(a: seq<Assessment>, b: seq<Assessment>, allRows: seq<JobRow>, byName: map<string, nat>)
    requires SameRows(a, b) && Given(a, allRows, byName)
    ensures Given(b, allRows, byName) && DistinctRows(a)
  {
  }

  /** Every row is rolled up, whatever the risks, if and only if every row is settled: no
      box is listed after a child box that has something to hand up to it. */
  lemma EveryRowRollsUpIff(rows: seq<Assessment>, allRows: seq<JobRow>, byName: map<string, nat>)
    requires Given(rows, allRows, byName)
    ensures (forall start, final :: SameRows(rows, start) && Walked(start, final, 0, allRows, byName) ==>
               forall i :: 0 <= i < |start| ==> RolledUp(start, i, final[i]))
        <==> forall x, j :: HandsUp(rows, x, j) ==> x <= j
  {
    if x, j :| HandsUp(rows, x, j) && j < x {
      var start, final := UnsettledFails(rows, x, j, allRows, byName);
    } else {
      forall start, final, i | SameRows(rows, start) && Walked(start, final, 0, allRows, byName) && 0 <= i < |start|
        ensures RolledUp(start, i, final[i])
      {
        forall x, j | HandsUp(start, x, j) ensures HandsUp(rows, x, j) {
          var k :| k != x && IsChild(start, j, k);
          assert IsChild(rows, j, k) && IsChild(rows, x, j);
        }
        WalkFacts(start, final, allRows, byName);
      }
    }
  }

  /** Raising initial risks never lowers a final one, in any row. */
  lemma {:induction false} WalkIsMonotone(low: seq<Assessment>, lowFinal: seq<Assessment>, high: seq<Assessment>,
                                          highFinal: seq<Assessment>, i: int)
    requires SameRows(low, high) && |low| == |lowFinal| == |highFinal| && 0 <= i < |low|
    requires forall x :: 0 <= x < |low| ==> RiskOrder(low[x].risk) <= RiskOrder(high[x].risk)
    requires forall x :: 0 <= x < |low| ==> Takes(low, lowFinal, x) && Takes(high, highFinal, x)
    ensures RiskOrder(lowFinal[i].risk) <= RiskOrder(highFinal[i].risk)
    decreases |low| - i
  {
    assert Takes(low, lowFinal, i) && Takes(high, highFinal, i);
    if lowFinal[i] != low[i] {
      var j :| IsChild(low, i, j) && Seen(low, lowFinal, i)[j].risk == lowFinal[i].risk;
      assert IsChild(high, i, j);
      assert RiskOrder(Seen(high, highFinal, i)[j].risk) <= RiskOrder(highFinal[i].risk);
      if j > i {
        WalkIsMonotone(low, lowFinal, high, highFinal, j);
      }
    }
  }
}
