/** Python's order on strings, and `sorted(xs, key=...)` with a string key. */
module Sorting {
  import opened Permutations

  predicate LexLe(a: string, b: string) {
    a == [] || (b != [] && (a[0] < b[0] || (a[0] == b[0] && LexLe(a[1..], b[1..]))))
  }

  lemma {:induction false} LexTotal(a: string, b: string)
    ensures LexLe(a, b) || LexLe(b, a)
  {
    if a != [] && b != [] && a[0] == b[0] {
      LexTotal(a[1..], b[1..]);
    }
  }

  lemma {:induction false} LexTransitive(a: string, b: string, c: string)
    requires LexLe(a, b) && LexLe(b, c)
    ensures LexLe(a, c)
  {
    if a != [] && b != [] && c != [] && a[0] == b[0] && b[0] == c[0] {
      LexTransitive(a[1..], b[1..], c[1..]);
    }
  }

  lemma {:induction false} LexAntisymmetric(a: string, b: string)
    requires LexLe(a, b) && LexLe(b, a)
    ensures a == b
  {
    if a != [] && b != [] {
      LexAntisymmetric(a[1..], b[1..]);
      assert a == [a[0]] + a[1..] && b == [b[0]] + b[1..];
    }
  }

  ghost predicate SortedBy<T(!new)>(xs: seq<T>, key: T -> string) {
    forall i, j :: 0 <= i < j < |xs| ==> LexLe(key(xs[i]), key(xs[j]))
  }

  ghost predicate DistinctKeys<T(!new)>(xs: seq<T>, key: T -> string) {
    forall i, j :: 0 <= i < j < |xs| ==> key(xs[i]) != key(xs[j])
  }

  /** Elements with the same key are the same. */
  ghost predicate KeysTellApart<T(!new)>(xs: seq<T>, key: T -> string) {
    forall x, y :: x in xs && y in xs && key(x) == key(y) ==> x == y
  }

  function InsertBy<T>(x: T, xs: seq<T>, key: T -> string): (r: seq<T>)
    ensures multiset(r) == multiset(xs) + multiset{x}
  {
    if xs == [] || LexLe(key(x), key(xs[0])) then [x] + xs
    else
      assert xs == [xs[0]] + xs[1..];
      [xs[0]] + InsertBy(x, xs[1..], key)
  }

  function SortBy<T>(xs: seq<T>, key: T -> string): (r: seq<T>)
    ensures multiset(r) == multiset(xs)
  {
    if xs == [] then []
    else
      assert xs == [xs[0]] + xs[1..];
      InsertBy(xs[0], SortBy(xs[1..], key), key)
  }

  lemma {:induction false} InsertByKeepsSorted<T(!new)>(x: T, xs: seq<T>, key: T -> string)
    requires SortedBy(xs, key)
    ensures SortedBy(InsertBy(x, xs, key), key)
  {
    if xs == [] {
    } else if LexLe(key(x), key(xs[0])) {
      forall i | 0 < i < |xs| ensures LexLe(key(x), key(xs[i])) {
        LexTransitive(key(x), key(xs[0]), key(xs[i]));
      }
    } else {
      LexTotal(key(x), key(xs[0]));
      var rest := InsertBy(x, xs[1..], key);
      InsertByKeepsSorted(x, xs[1..], key);
      SameMembers(rest, xs[1..] + [x]);
      forall i | 0 <= i < |rest| ensures LexLe(key(xs[0]), key(rest[i])) {
        assert rest[i] in xs[1..] + [x];
      }
    }
  }

  lemma {:induction false} SortByIsSorted<T(!new)>(xs: seq<T>, key: T -> string)
    ensures SortedBy(SortBy(xs, key), key)
  {
    if xs != [] {
      SortByIsSorted(xs[1..], key);
      InsertByKeepsSorted(xs[0], SortBy(xs[1..], key), key);
    }
  }

  /** Sorting by keys that tell the elements apart forgets the order of the input. */
  lemma {:induction false} SortedIsUnique<T(!new)>(a: seq<T>, b: seq<T>, key: T -> string)
    requires SortedBy(a, key) && SortedBy(b, key) && multiset(a) == multiset(b)
    requires KeysTellApart(a, key)
    ensures a == b
  {
    if |a| == 0 {
      SameMembers(a, b);
    } else {
      SameFirst(a, b, key);
      SameRests(a, b);
      TailTellsApart(a, key);
      TailIsSorted(a, key);
      TailIsSorted(b, key);
      SortedIsUnique(a[1..], b[1..], key);
      FirstAndRest(a, b);
    }
  }

  lemma SameRests<T>(a: seq<T>, b: seq<T>)
    requires |a| > 0 && |b| > 0 && a[0] == b[0] && multiset(a) == multiset(b)
    ensures multiset(a[1..]) == multiset(b[1..])
  {
    assert a == [a[0]] + a[1..] && b == [b[0]] + b[1..];
    assert multiset(a[1..]) == multiset(a) - multiset{a[0]} && multiset(b[1..]) == multiset(b) - multiset{b[0]};
  }

  lemma FirstAndRest<T>(a: seq<T>, b: seq<T>)
    requires |a| > 0 && |b| > 0 && a[0] == b[0] && a[1..] == b[1..]
    ensures a == b
  {
    assert a == [a[0]] + a[1..] && b == [b[0]] + b[1..];
  }

  lemma TailIsSorted<T(!new)>(a: seq<T>, key: T -> string)
    requires SortedBy(a, key) && |a| > 0
    ensures SortedBy(a[1..], key)
  {
  }

  lemma SameFirst<T(!new)>(a: seq<T>, b: seq<T>, key: T -> string)
    requires SortedBy(a, key) && SortedBy(b, key) && multiset(a) == multiset(b)
    requires KeysTellApart(a, key) && a != []
    ensures b != [] && a[0] == b[0]
  {
    SameMembers(a, b);
    assert a[0] in b && b[0] in a;
    var k :| 0 <= k < |b| && b[k] == a[0];
    var i :| 0 <= i < |a| && a[i] == b[0];
    LexTotal(key(a[0]), key(a[0]));
    LexTotal(key(b[0]), key(b[0]));
    assert LexLe(key(a[0]), key(a[i])) && LexLe(key(b[0]), key(b[k]));
    LexAntisymmetric(key(a[0]), key(b[0]));
  }

  lemma TailTellsApart<T(!new)>(a: seq<T>, key: T -> string)
    requires KeysTellApart(a, key) && a != []
    ensures KeysTellApart(a[1..], key)
  {
  }

  lemma DistinctTellApart<T(!new)>(a: seq<T>, key: T -> string)
    requires DistinctKeys(a, key)
    ensures KeysTellApart(a, key)
  {
    forall x, y | x in a && y in a && key(x) == key(y) ensures x == y {
      var i, j :| 0 <= i < |a| && 0 <= j < |a| && a[i] == x && a[j] == y;
      assert i == j;
    }
  }
}
