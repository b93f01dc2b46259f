/** Rearrangements of a sequence. */
module Permutations {

  lemma ConcatAssociates<T>(a: seq<T>, b: seq<T>, c: seq<T>)
    ensures a + b + c == a + (b + c)
  {
  }

  lemma ConcatEmpty<T>(xs: seq<T>)
    ensures xs + [] == xs && [] + xs == xs
  {
  }

  lemma Slices<T>(a: seq<T>, b: seq<T>, c: seq<T>)
    ensures (a + (b + c))[..|a|] == a && (a + (b + c))[..|a| + |b|] == a + b && (a + (b + c))[|a| + |b|..] == c
  {
  }

  lemma TakeDrop<T>(a: seq<T>, m: nat, tail: seq<T>)
    requires m <= |a|
    ensures (a + tail)[..m] == a[..m] && (a + tail)[|a|..] == tail
  {
  }

  lemma Middle<T>(a: seq<T>, b: seq<T>, c: seq<T>)
    ensures |a| + |b| <= |a + (b + c)| && (a + (b + c))[|a|..|a| + |b|] == b
  {
  }

  lemma IndexIn<T>(xs: seq<T>, n: nat, x: T) returns (i: nat)
    requires n <= |xs| && x in xs[..n]
    ensures i < n && xs[i] == x
  {
    i :| 0 <= i < n && xs[..n][i] == x;
  }

  lemma SplitLast<T>(xs: seq<T>)
    requires xs != []
    ensures xs == xs[..|xs| - 1] + [xs[|xs| - 1]]
  {
  }

  lemma TakeAndDrop<T>(xs: seq<T>, k: nat)
    requires k <= |xs|
    ensures xs == xs[..k] + xs[k..]
  {
  }

  lemma RemoveAt<T>(b: seq<T>, k: nat)
    requires k < |b|
    ensures b == b[..k] + ([b[k]] + b[k + 1..])
    ensures multiset(b[..k] + b[k + 1..]) == multiset(b) - multiset{b[k]}
  {
    assert b == b[..k] + ([b[k]] + b[k + 1..]);
    assert multiset(b) == multiset(b[..k] + b[k + 1..]) + multiset{b[k]};
  }

  /** Takes the first element of `a` out of a rearrangement of `a`. */
  lemma TakeOut<T>(a: seq<T>, b: seq<T>) returns (k: nat)
    requires a != [] && multiset(a) == multiset(b)
    ensures k < |b| && b[k] == a[0]
    ensures multiset(a[1..]) == multiset(b[..k] + b[k + 1..])
    ensures b == b[..k] + ([b[k]] + b[k + 1..])
  {
    SameMembers(a, b);
    assert a[0] in b;
    k :| 0 <= k < |b| && b[k] == a[0];
    RemoveAt(a, 0);
    RemoveAt(b, k);
    assert a[..0] + a[1..] == a[1..];
  }

  lemma SameMembers<T>(a: seq<T>, b: seq<T>)
    requires multiset(a) == multiset(b)
    ensures forall x :: x in a <==> x in b
    ensures |a| == |b|
  {
    forall x ensures x in a <==> x in b {
      assert x in a <==> x in multiset(a);
      assert x in b <==> x in multiset(b);
    }
    assert |a| == |multiset(a)| && |b| == |multiset(b)|;
  }

  ghost predicate NoDup<T>(xs: seq<T>) {
    forall i, j :: 0 <= i < j < |xs| ==> xs[i] != xs[j]
  }

  lemma {:induction false} CountNoDup<T>(xs: seq<T>, x: T)
    requires NoDup(xs)
    ensures multiset(xs)[x] == if x in xs then 1 else 0
  {
    if xs != [] {
      CountNoDup(xs[1..], x);
      assert xs == [xs[0]] + xs[1..];
    }
  }

  /** Two lists without repetitions and with the same members are rearrangements. */
  lemma NoDupSameMembers<T(!new)>(a: seq<T>, b: seq<T>)
    requires NoDup(a) && NoDup(b) && forall x :: x in a <==> x in b
    ensures multiset(a) == multiset(b)
  {
    forall x ensures multiset(a)[x] == multiset(b)[x] {
      CountNoDup(a, x);
      CountNoDup(b, x);
    }
  }

  lemma NoDupCarriesOver<T>(a: seq<T>, b: seq<T>)
    requires NoDup(a) && multiset(a) == multiset(b)
    ensures NoDup(b)
  {
    forall i, j | 0 <= i < j < |b| ensures b[i] != b[j] {
      CountNoDup(a, b[i]);
      if b[i] == b[j] {
        CountTwice(b, i, j);
      }
    }
  }

  lemma CountTwice<T>(b: seq<T>, i: nat, j: nat)
    requires i < j < |b| && b[i] == b[j]
    ensures multiset(b)[b[i]] >= 2
  {
    var x := b[i];
    assert b == b[..j] + b[j..] && b[..j][i] == x && b[j..][0] == x;
    assert x in multiset(b[..j]) && x in multiset(b[j..]);
    assert multiset(b) == multiset(b[..j]) + multiset(b[j..]);
  }

  lemma NoDupConcat<T(!new)>(a: seq<T>, b: seq<T>)
    requires NoDup(a) && NoDup(b) && forall x :: x in b ==> x !in a
    ensures NoDup(a + b)
  {
    forall i, j | 0 <= i < j < |a + b| ensures (a + b)[i] != (a + b)[j] {
      if i < |a| <= j {
        assert (a + b)[i] in a && (a + b)[j] in b;
      }
    }
  }

  function Reverse<T(!new)>(xs: seq<T>): (r: seq<T>)
    ensures |r| == |xs| && forall i :: 0 <= i < |xs| ==> r[i] == xs[|xs| - 1 - i]
    ensures forall x :: x in r <==> x in xs
  {
    if xs == [] then []
    else
      assert xs == [xs[0]] + xs[1..];
      Reverse(xs[1..]) + [xs[0]]
  }
}
