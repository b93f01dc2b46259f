/** Subtrees are contiguous in the report order
    (autosys/analysis/complexity.py, `build_report`). */
module ReportBlocks {
  import opened Permutations
  import opened ReportOrder
  import opened Sorting

  /** `x` is `r`, or in a box that is, and so on: `depth` levels. */
  ghost predicate UnderIn(rows: seq<JobRow>, r: JobRow, x: JobRow, depth: nat)
    decreases depth
  {
    x == r ||
    (depth > 0 && x.boxName != "" && exists b :: b in rows && b.jobName == x.boxName && UnderIn(rows, r, b, depth - 1))
  }

  ghost predicate Under(rows: seq<JobRow>, r: JobRow, x: JobRow) {
    exists depth: nat :: UnderIn(rows, r, x, depth)
  }

  /** `walk` lists the subtree of `r` in one piece; the names missing from its pool are
      listed before it. */
  ghost predicate IsBlock(rows: seq<JobRow>, walk: seq<JobRow>, names: set<string>, before: seq<JobRow>, r: JobRow,
                          pool: set<string>, after: seq<JobRow>) {
    && walk == before + (Preorder(rows, r, pool) + after)
    && r.jobName in pool && forall n :: n in names ==> n in pool || n in Names(before)
  }

  lemma NamesConcat(a: seq<JobRow>, b: seq<JobRow>)
    ensures Names(a + b) == Names(a) + Names(b)
  {
    forall n ensures n in Names(a + b) <==> n in Names(a) || n in Names(b) {
      assert forall r :: r in a + b <==> r in a || r in b;
    }
  }

  lemma Wrap<T>(left: seq<T>, before: seq<T>, block: seq<T>, after: seq<T>, right: seq<T>)
    ensures left + (before + (block + after)) + right == left + before + (block + (after + right))
  {
  }

  /** Every row of a forest starts a block of it. */
  lemma {:induction false} FindBlock(rows: seq<JobRow>, siblings: seq<JobRow>, pool: set<string>, r: JobRow)
    returns (before: seq<JobRow>, inner: set<string>, after: seq<JobRow>)
    requires r in Forest(rows, siblings, pool)
    ensures IsBlock(rows, Forest(rows, siblings, pool), pool, before, r, inner, after)
    decreases pool, 1 + |siblings|
  {
    var s := siblings[0];
    var first, rest := Preorder(rows, s, pool), Forest(rows, siblings[1..], pool);
    if r in first {
      if r == s {
        before, inner, after := [], pool, rest;
        ConcatEmpty(first + rest);
      } else {
        var b, a;
        b, inner, a := FindBlock(rows, Kids(rows, s), pool - {s.jobName}, r);
        before, after := [s] + b, a + rest;
        Wrap([s], b, Preorder(rows, r, inner), a, rest);
        NamesConcat([s], b);
        assert s in [s];
      }
    } else {
      var b;
      b, inner, after := FindBlock(rows, siblings[1..], pool, r);
      before := first + b;
      ConcatAssociates(first, b, Preorder(rows, r, inner) + after);
      NamesConcat(first, b);
    }
  }

  lemma {:induction false} SiblingIsListed(rows: seq<JobRow>, siblings: seq<JobRow>, pool: set<string>, s: JobRow)
    requires s in siblings && s.jobName in pool
    ensures s in Forest(rows, siblings, pool)
    decreases |siblings|
  {
    if siblings[0] == s {
      assert Preorder(rows, s, pool)[0] == s;
      assert s in Preorder(rows, s, pool);
    } else {
      assert siblings == [siblings[0]] + siblings[1..];
      SiblingIsListed(rows, siblings[1..], pool, s);
    }
  }

  lemma {:induction false} MembersAreUnder(rows: seq<JobRow>, siblings: seq<JobRow>, pool: set<string>, x: JobRow)
    returns (s: JobRow, depth: nat)
    requires UniqueNames(rows) && x in Forest(rows, siblings, pool) && forall k :: k in siblings ==> k in rows
    ensures s in siblings && UnderIn(rows, s, x, depth)
    decreases pool, 1 + |siblings|
  {
    s := siblings[0];
    if x in Preorder(rows, s, pool) {
      if x == s {
        depth := 0;
      } else {
        KidsFacts(rows, s);
        var k;
        k, depth := MembersAreUnder(rows, Kids(rows, s), pool - {s.jobName}, x);
        UnderKid(rows, s, k, x, depth);
        depth := depth + 1;
      }
    } else {
      s, depth := MembersAreUnder(rows, siblings[1..], pool, x);
    }
  }

  lemma {:induction false} UnderKid(rows: seq<JobRow>, s: JobRow, k: JobRow, x: JobRow, depth: nat)
    requires UnderIn(rows, k, x, depth) && s in rows && k.boxName == s.jobName && k.boxName != ""
    ensures UnderIn(rows, s, x, depth + 1)
    decreases depth
  {
    if x == k {
      assert UnderIn(rows, s, s, depth);
    } else {
      var b :| b in rows && b.jobName == x.boxName && UnderIn(rows, k, b, depth - 1);
      UnderKid(rows, s, k, b, depth - 1);
    }
  }

  /** The whole walk. */
  ghost predicate IsWalk(rows: seq<JobRow>, walk: seq<JobRow>) {
    && UniqueNames(rows) && walk == Forest(rows, SortBy(Tops(rows), ByName), Names(rows))
    && NoDup(walk) && BoxesFirst(walk) && forall r :: r in walk ==> r in rows
  }

  /** A row is not listed before its box. */
  lemma BoxIsBefore(rows: seq<JobRow>, walk: seq<JobRow>, b: JobRow, x: JobRow, i: nat)
    requires IsWalk(rows, walk) && i < |walk| && walk[i] == b && x.boxName == b.jobName && x.boxName != ""
    ensures x.jobName !in Names(walk[..i]) || x !in rows
  {
    if x in rows && x.jobName in Names(walk[..i]) {
      var y :| y in walk[..i] && y.jobName == x.jobName;
      var j := IndexIn(walk, i, y);
      SameNameSameRow(rows, x, y);
      PositionFacts(walk, b.jobName, []);
      var p := Position(walk, b.jobName);
      SameNameSameRow(rows, walk[p], b);
    }
  }

  lemma BlockStart(rows: seq<JobRow>, walk: seq<JobRow>, before: seq<JobRow>, r: JobRow, pool: set<string>,
                   after: seq<JobRow>)
    requires IsBlock(rows, walk, Names(rows), before, r, pool, after)
    ensures |before| < |walk| && walk[|before|] == r && walk[..|before|] == before && r in walk
  {
    var block := Preorder(rows, r, pool);
    assert block[0] == r && walk[|before|] == block[0];
  }

  /** The children of the row a block starts with are in the block. */
  lemma KidInBlock(rows: seq<JobRow>, walk: seq<JobRow>, before: seq<JobRow>, b: JobRow, pool: set<string>,
                   after: seq<JobRow>, x: JobRow)
    requires IsWalk(rows, walk) && IsBlock(rows, walk, Names(rows), before, b, pool, after)
    requires x in rows && x.boxName == b.jobName && x.boxName != ""
    ensures x in Preorder(rows, b, pool)
  {
    BlockStart(rows, walk, before, b, pool, after);
    BoxIsBefore(rows, walk, b, x, |before|);
    if x.jobName == b.jobName {
      SameNameSameRow(rows, b, x);
    } else {
      KidsFacts(rows, b);
      SiblingIsListed(rows, Kids(rows, b), pool - {b.jobName}, x);
    }
  }

  /** A row whose box is in the block is in the block. */
  lemma ChildInBlock(rows: seq<JobRow>, walk: seq<JobRow>, before: seq<JobRow>, r: JobRow, pool: set<string>,
                     after: seq<JobRow>, b: JobRow, x: JobRow)
    requires IsWalk(rows, walk) && IsBlock(rows, walk, Names(rows), before, r, pool, after)
    requires b in Preorder(rows, r, pool) && x in rows && x.boxName == b.jobName && x.boxName != ""
    ensures x in Preorder(rows, r, pool)
  {
    if b == r {
      KidInBlock(rows, walk, before, r, pool, after, x);
    } else {
      var before2, pool2, after2 := InnerBlock(rows, walk, before, r, pool, after, b);
      KidInBlock(rows, walk, before2, b, pool2, after2, x);
    }
  }

  lemma InnerBlock(rows: seq<JobRow>, walk: seq<JobRow>, before: seq<JobRow>, r: JobRow, pool: set<string>,
                   after: seq<JobRow>, b: JobRow)
    returns (before2: seq<JobRow>, pool2: set<string>, after2: seq<JobRow>)
    requires IsBlock(rows, walk, Names(rows), before, r, pool, after) && b in Preorder(rows, r, pool) && b != r
    ensures IsBlock(rows, walk, Names(rows), before2, b, pool2, after2)
    ensures forall x :: x in Preorder(rows, b, pool2) ==> x in Preorder(rows, r, pool)
  {
    var bb, aa;
    bb, pool2, aa := FindBlock(rows, Kids(rows, r), pool - {r.jobName}, b);
    var block := Preorder(rows, b, pool2);
    before2, after2 := before + ([r] + bb), aa + after;
    Wrap([r], bb, block, aa, after);
    ConcatAssociates(before, [r] + bb, block + (aa + after));
    NamesConcat([r], bb);
    NamesConcat(before, [r] + bb);
    assert r in [r];
  }

  lemma {:induction false} UnderIsInBlock(rows: seq<JobRow>, walk: seq<JobRow>, before: seq<JobRow>, r: JobRow,
                                          pool: set<string>, after: seq<JobRow>, x: JobRow, depth: nat)
    requires IsWalk(rows, walk) && IsBlock(rows, walk, Names(rows), before, r, pool, after)
    requires x in walk && UnderIn(rows, r, x, depth)
    ensures x in Preorder(rows, r, pool)
    decreases depth
  {
    if x == r {
      assert Preorder(rows, r, pool)[0] == r;
    } else {
      var b :| b in rows && b.jobName == x.boxName && UnderIn(rows, r, b, depth - 1);
      var i :| 0 <= i < |walk| && walk[i] == x;
      PositionFacts(walk, x.boxName, []);
      SameNameSameRow(rows, b, walk[Position(walk, x.boxName)]);
      UnderIsInBlock(rows, walk, before, r, pool, after, b, depth - 1);
      ChildInBlock(rows, walk, before, r, pool, after, b, x);
    }
  }

  lemma BlockIsUnder(rows: seq<JobRow>, r: JobRow, pool: set<string>, x: JobRow)
    requires UniqueNames(rows) && r in rows && x in Preorder(rows, r, pool)
    ensures Under(rows, r, x)
  {
    if x == r {
      assert UnderIn(rows, r, x, 0);
    } else {
      KidsFacts(rows, r);
      var k, depth := MembersAreUnder(rows, Kids(rows, r), pool - {r.jobName}, x);
      UnderKid(rows, r, k, x, depth);
    }
  }

  lemma BlockIsSubtree(rows: seq<JobRow>, walk: seq<JobRow>, before: seq<JobRow>, r: JobRow, pool: set<string>,
                       after: seq<JobRow>, x: JobRow)
    requires IsWalk(rows, walk) && IsBlock(rows, walk, Names(rows), before, r, pool, after) && r in rows
    ensures x in Preorder(rows, r, pool) <==> x in walk && Under(rows, r, x)
  {
    if x in Preorder(rows, r, pool) {
      BlockIsUnder(rows, r, pool, x);
    } else if x in walk && Under(rows, r, x) {
      var depth: nat :| UnderIn(rows, r, x, depth);
      UnderIsInBlock(rows, walk, before, r, pool, after, x, depth);
    }
  }

  /** `part` lists exactly the listed rows below `r`. */
  ghost predicate IsSubtree(rows: seq<JobRow>, walk: seq<JobRow>, r: JobRow, part: seq<JobRow>) {
    forall x :: x in part <==> x in walk && Under(rows, r, x)
  }

  /** The depth-first part around the block of `r`. */
  lemma SplitAt(rows: seq<JobRow>, walk: seq<JobRow>, r: JobRow)
    returns (before: seq<JobRow>, block: seq<JobRow>, after: seq<JobRow>)
    requires IsWalk(rows, walk) && r in walk
    ensures walk == before + (block + after) && block != [] && block[0] == r
    ensures IsSubtree(rows, walk, r, block)
  {
    var pool;
    before, pool, after := FindBlock(rows, SortBy(Tops(rows), ByName), Names(rows), r);
    block := Preorder(rows, r, pool);
    forall x ensures x in block <==> x in walk && Under(rows, r, x) {
      BlockIsSubtree(rows, walk, before, r, pool, after, x);
    }
  }

  lemma BlockIsSlice(rows: seq<JobRow>, walk: seq<JobRow>, r: JobRow, before: seq<JobRow>, block: seq<JobRow>,
                     after: seq<JobRow>) returns (i: nat, j: nat)
    requires walk == before + (block + after) && block != [] && block[0] == r && IsSubtree(rows, walk, r, block)
    ensures i < j <= |walk| && walk[i] == r && IsSubtree(rows, walk, r, walk[i..j])
  {
    Middle(before, block, after);
    i, j := |before|, |before| + |block|;
  }

  /** In the depth-first part every row is followed, without a gap, by exactly the rows
      below it. */
  lemma SubtreesAreContiguous(rows: seq<JobRow>, walk: seq<JobRow>, r: JobRow) returns (i: nat, j: nat)
    requires IsWalk(rows, walk) && r in walk
    ensures i < j <= |walk| && walk[i] == r && IsSubtree(rows, walk, r, walk[i..j])
  {
    var before, block, after := SplitAt(rows, walk, r);
    i, j := BlockIsSlice(rows, walk, r, before, block, after);
  }
}
