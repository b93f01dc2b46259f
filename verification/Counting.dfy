/** How many elements of a sequence have a property. */
module Counting {

  /** Where they are. */
  function Positions<T>(xs: seq<T>, p: T -> bool): set<nat> {
    set i: nat | i < |xs| && p(xs[i])
  }

  /** How many they are, element by element. */
  lemma PositionsStep<T>(xs: seq<T>, p: T -> bool)
    ensures xs == [] ==> |Positions(xs, p)| == 0
    ensures xs != [] ==> |Positions(xs, p)| == (if p(xs[0]) then 1 else 0) + |Positions(xs[1..], p)|
  {
    if xs == [] {
      assert Positions(xs, p) == {};
    } else {
      ShiftKeepsSize(Positions(xs[1..], p));
      PositionsShift(xs, p);
    }
  }

  /** The same from the other end. */
  lemma PositionsLast<T>(xs: seq<T>, p: T -> bool)
    requires xs != []
    ensures var n := |xs| - 1; |Positions(xs, p)| == |Positions(xs[..n], p)| + if p(xs[n]) then 1 else 0
  {
    var n := |xs| - 1;
    var rest := Positions(xs[..n], p);
    assert n !in rest;
    assert Positions(xs, p) == if p(xs[n]) then rest + {n} else rest;
  }

  lemma PositionsShift<T>(xs: seq<T>, p: T -> bool)
    requires xs != []
    ensures Positions(xs, p) == Shifted(Positions(xs[1..], p)) + if p(xs[0]) then {0} else {}
  {
    var rest := Positions(xs[1..], p);
    forall i: nat ensures i in Positions(xs, p) <==> i in Shifted(rest) || (i == 0 && p(xs[0])) {
      if 0 < i < |xs| {
        assert xs[i] == xs[1..][i - 1];
      }
    }
  }

  function Shifted(s: set<nat>): (r: set<nat>)
    ensures forall j: nat :: j in r <==> j > 0 && j - 1 in s
  {
    set i | i in s :: i + 1
  }

  lemma {:induction false} ShiftKeepsSize(s: set<nat>)
    ensures |Shifted(s)| == |s|
  {
    if s == {} {
      assert Shifted(s) == {};
    } else {
      var x :| x in s;
      ShiftKeepsSize(s - {x});
      assert Shifted(s) == Shifted(s - {x}) + {x + 1};
    }
  }
}
