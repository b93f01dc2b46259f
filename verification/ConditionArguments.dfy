/** The fallback of `rename_job_refs` for text the tokenizer cannot read: a name that is
    the whole argument of a parenthesis (autosys/analysis/condition_refs.py). */
module ConditionArguments {
  import opened ConditionRename
  import opened ConditionTokens
  import opened Options

  /** `\s*[,)]` */
  predicate Closes(rest: string) {
    Spaces(rest) < |rest| && (rest[Spaces(rest)] == ',' || rest[Spaces(rest)] == ')')
  }

  /** `name` stands `j` characters of white space behind a parenthesis, as its whole
      argument; `s` is what follows the parenthesis. */
  predicate ArgumentAt(s: string, j: nat, name: string) {
    j <= Spaces(s) && j + |name| <= |s| && s[j..j + |name|] == name && Closes(s[j + |name|..])
  }

  /** The pattern takes as much white space as it can. */
  function LastArgument(s: string, j: nat, name: string): (k: Option<nat>)
    requires j <= Spaces(s)
    ensures k.Some? ==> k.value <= j && ArgumentAt(s, k.value, name)
  {
    if ArgumentAt(s, j, name) then Some(j) else if j == 0 then None else LastArgument(s, j - 1, name)
  }

  /** The name behind the parenthesis a text starts with. */
  function FrontArgument(text: string, name: string): (k: Option<nat>)
    ensures k.Some? ==> |text| > 0 && 1 + k.value + |name| <= |text| && ArgumentAt(text[1..], k.value, name)
  {
    if |text| > 0 && text[0] == '(' then LastArgument(text[1..], Spaces(text[1..]), name) else None
  }

  /** Where the name behind the parenthesis a text starts with starts. */
  function FrontMatch(name: string): string -> Option<nat> {
    (text: string) => var k := FrontArgument(text, name); if k.None? then None else Some(1 + k.value)
  }

  /** The starts of all matches of `size` characters, one after the other; `front` tells
      whether the text starts with one. */
  function AllMatches(front: string -> Option<nat>, text: string, offset: nat, size: nat): seq<nat>
    decreases |text|
  {
    if |text| == 0 then []
    else
      var k, next := front(text), Onward(front, text, size);
      (if k.Some? then [offset + k.value] else []) + AllMatches(front, text[next..], offset + next, size)
  }

  /** Where the search goes on. */
  function Onward(front: string -> Option<nat>, text: string, size: nat): (next: nat)
    requires |text| > 0
    ensures 0 < next <= |text|
  {
    var k := front(text);
    if k.Some? && 0 < k.value + size <= |text| then k.value + size else 1
  }

  /** The start of every match of `\(\s*(name)(?=\s*[,)])`. */
  function WholeArguments(text: string, offset: nat, name: string): seq<nat> {
    AllMatches(FrontMatch(name), text, offset, |name|)
  }

  ghost predicate InsideAt(front: string -> Option<nat>, size: nat, text: string) {
    front(text).Some? ==> 0 < front(text).value + size <= |text|
  }

  lemma {:induction false} MatchesFit(front: string -> Option<nat>, text: string, offset: nat, size: nat)
    requires forall t :: InsideAt(front, size, t)
    ensures Fits(AllMatches(front, text, offset, size), offset, |text|, size)
    decreases |text|
  {
    if |text| > 0 {
      var k, next := front(text), Onward(front, text, size);
      var rest := AllMatches(front, text[next..], offset + next, size);
      assert InsideAt(front, size, text);
      MatchesFit(front, text[next..], offset + next, size);
      if k.Some? {
        assert ([offset + k.value] + rest)[1..] == rest;
      } else {
        assert [] + rest == rest;
        FitsEarlier(rest, offset + next, |text| - next, size, offset);
      }
    }
  }

  lemma WholeArgumentsFit(text: string, offset: nat, name: string)
    ensures Fits(WholeArguments(text, offset, name), offset, |text|, |name|)
  {
    forall t ensures InsideAt(FrontMatch(name), |name|, t) {
    }
    MatchesFit(FrontMatch(name), text, offset, |name|);
  }

  lemma {:induction false} PrefixIsContained(text: string, name: string, j: nat)
    requires j + |name| <= |text| && text[j..j + |name|] == name
    ensures Contains(text, name)
  {
    assert text[..j] + text[j..] == text && name <= text[j..];
    ContainsAfter(text[..j], text[j..], name);
  }

  ghost predicate ContainedAt(front: string -> Option<nat>, text: string, name: string) {
    front(text).Some? ==> Contains(text, name)
  }

  lemma {:induction false} MatchesAreContained(front: string -> Option<nat>, text: string, offset: nat, name: string)
    requires forall t :: ContainedAt(front, t, name)
    requires AllMatches(front, text, offset, |name|) != []
    ensures Contains(text, name)
    decreases |text|
  {
    assert ContainedAt(front, text, name);
    if front(text).None? {
      var next := Onward(front, text, |name|);
      MatchesAreContained(front, text[next..], offset + next, name);
      assert text[..next] + text[next..] == text;
      ContainsAfter(text[..next], text[next..], name);
    }
  }

  lemma FrontIsContained(text: string, name: string)
    ensures ContainedAt(FrontMatch(name), text, name)
  {
    var k := FrontArgument(text, name);
    if k.Some? {
      assert text[1..][k.value..k.value + |name|] == text[1 + k.value..1 + k.value + |name|];
      PrefixIsContained(text, name, 1 + k.value);
    }
  }

  lemma ArgumentsAreContained(text: string, offset: nat, name: string)
    requires WholeArguments(text, offset, name) != []
    ensures Contains(text, name)
  {
    forall t ensures ContainedAt(FrontMatch(name), t, name) {
      FrontIsContained(t, name);
    }
    MatchesAreContained(FrontMatch(name), text, offset, name);
  }

  // ----- which positions these are

  /** `name` at position `q` is the whole argument of the parenthesis at `p`. */
  ghost predicate IsArgument(text: string, p: int, q: int, name: string) {
    && 0 <= p < q <= q + |name| <= |text| && text[p] == '(' && (forall i :: p < i < q ==> IsSpace(text[i]))
    && text[q..q + |name|] == name && Closes(text[q + |name|..])
  }

  /** A name that the white space and the parentheses of a condition cannot be part of. */
  predicate IsPlainName(name: string) {
    name != "" && !IsSpace(name[0]) && '(' !in name
  }

  lemma SpacesUpTo(s: string, j: nat)
    requires j <= |s| && (forall i :: 0 <= i < j ==> IsSpace(s[i])) && (j < |s| ==> !IsSpace(s[j]))
    ensures Spaces(s) == j
  {
  }

  /** Behind the first parenthesis a plain name can stand in one place only. */
  lemma FrontIs(text: string, q: int, name: string)
    requires IsPlainName(name)
    ensures IsArgument(text, 0, q, name) <==> FrontArgument(text, name).Some? && q == 1 + FrontArgument(text, name).value
  {
    if IsArgument(text, 0, q, name) {
      FrontIsFound(text, q, name);
    }
    if FrontArgument(text, name).Some? {
      FoundIsFront(text, name);
    }
  }

  lemma FoundIsFront(text: string, name: string)
    requires IsPlainName(name) && FrontArgument(text, name).Some?
    ensures IsArgument(text, 0, 1 + FrontArgument(text, name).value, name)
  {
    ArgumentIsFront(text, FrontArgument(text, name).value, name);
  }

  lemma ArgumentIsFront(text: string, j: nat, name: string)
    requires |text| > 0 && text[0] == '(' && ArgumentAt(text[1..], j, name)
    ensures IsArgument(text, 0, 1 + j, name)
  {
    var s := text[1..];
    assert s[j..j + |name|] == text[1 + j..1 + j + |name|] && s[j + |name|..] == text[1 + j + |name|..];
    assert forall i :: 0 < i < 1 + j ==> text[i] == s[i - 1];
  }

  lemma FrontIsFound(text: string, q: int, name: string)
    requires IsPlainName(name) && IsArgument(text, 0, q, name)
    ensures FrontArgument(text, name) == Some(q - 1)
  {
    FrontSlices(text, q, name);
    assert text[q..q + |name|][0] == text[q];
    SpacesUpTo(text[1..], q - 1);
    FoundAt(text, q - 1, name);
  }

  lemma FrontSlices(text: string, q: int, name: string)
    requires 0 < q <= q + |name| <= |text|
    ensures text[1..][q - 1..q - 1 + |name|] == text[q..q + |name|] && text[1..][q - 1 + |name|..] == text[q + |name|..]
    ensures forall i :: 0 <= i < |text| - 1 ==> text[1..][i] == text[i + 1]
  {
  }

  lemma FoundAt(text: string, j: nat, name: string)
    requires text != "" && text[0] == '(' && Spaces(text[1..]) == j && ArgumentAt(text[1..], j, name)
    ensures FrontArgument(text, name) == Some(j)
  {
  }

  lemma ShiftArgument(text: string, n: int, p: int, q: int, name: string)
    requires 0 <= n <= |text| && n <= p
    ensures IsArgument(text, p, q, name) <==> IsArgument(text[n..], p - n, q - n, name)
  {
    var s := text[n..];
    if 0 <= p < q <= q + |name| <= |text| {
      assert s[q - n..q - n + |name|] == text[q..q + |name|] && s[q - n + |name|..] == text[q + |name|..];
      assert forall i :: n <= i < |text| ==> s[i - n] == text[i];
      assert forall i :: 0 <= i < |s| ==> s[i] == text[i + n];
    }
  }

  /** `name` at position `q` is the whole argument of some parenthesis. */
  ghost predicate IsWhole(text: string, q: int, name: string) {
    exists p :: IsArgument(text, p, q, name)
  }

  /** No parenthesis between a match and where the search goes on. */
  lemma OnwardSkipsNone(text: string, name: string)
    requires IsPlainName(name) && |text| > 0
    ensures forall p :: 0 < p < Onward(FrontMatch(name), text, |name|) ==> text[p] != '('
  {
    forall p | 0 < p < Onward(FrontMatch(name), text, |name|) ensures text[p] != '(' {
      var s, j := text[1..], FrontArgument(text, name).value;
      if p <= j {
        assert s[p - 1] == text[p] && IsSpace(s[p - 1]);
      } else {
        assert s[j..j + |name|][p - 1 - j] == text[p] == name[p - 1 - j];
      }
    }
  }

  lemma WholeGoesOn(text: string, next: nat, p: int, q: int, name: string)
    requires 0 < next <= |text| && (forall i :: 0 < i < next ==> text[i] != '(')
    requires IsArgument(text, p, q, name) && p != 0
    ensures IsWhole(text[next..], q - next, name)
  {
    ShiftArgument(text, next, p, q, name);
  }

  lemma WholeComesBack(text: string, next: nat, p: int, q: int, name: string)
    requires 0 < next <= |text| && IsArgument(text[next..], p, q - next, name)
    ensures IsWhole(text, q, name)
  {
    ShiftArgument(text, next, p + next, q, name);
  }

  lemma WholeNext(text: string, next: nat, q: int, name: string)
    requires 0 < next <= |text| && (forall i :: 0 < i < next ==> text[i] != '(')
    ensures IsWhole(text, q, name) <==> IsArgument(text, 0, q, name) || IsWhole(text[next..], q - next, name)
  {
    if IsWhole(text, q, name) && !IsArgument(text, 0, q, name) {
      var p :| IsArgument(text, p, q, name);
      WholeGoesOn(text, next, p, q, name);
    }
    if IsWhole(text[next..], q - next, name) {
      var at := q - next;
      var p :| IsArgument(text[next..], p, at, name);
      WholeComesBack(text, next, p, q, name);
    }
  }

  ghost predicate WholeAt(front: string -> Option<nat>, size: nat, whole: (string, int) -> bool, text: string, at: int) {
    if |text| == 0 then !whole(text, at)
    else
      var next := Onward(front, text, size);
      whole(text, at) <==> (front(text).Some? && at == front(text).value) || whole(text[next..], at - next)
  }

  lemma {:induction false} MatchesIff(front: string -> Option<nat>, size: nat, whole: (string, int) -> bool,
      text: string,
                                      offset: nat, q: nat, at: int)
    requires (forall t, i :: WholeAt(front, size, whole, t, i)) && at == q - offset
    ensures q in AllMatches(front, text, offset, size) <==> whole(text, at)
    decreases |text|
  {
    assert WholeAt(front, size, whole, text, at);
    if |text| > 0 {
      var next := Onward(front, text, size);
      MatchesIff(front, size, whole, text[next..], offset + next, q, at - next);
    }
  }

  ghost function WholeOf(name: string): (string, int) -> bool {
    (text: string, q: int) => IsWhole(text, q, name)
  }

  /** One round of the search, for any `front` that finds the name behind a parenthesis. */
  lemma WholeRound(front: string -> Option<nat>, name: string, text: string, at: int)
    requires IsArgument(text, 0, at, name) <==> front(text).Some? && at == front(text).value
    requires |text| > 0 && forall p :: 0 < p < Onward(front, text, |name|) ==> text[p] != '('
    ensures WholeAt(front, |name|, WholeOf(name), text, at)
  {
    WholeNext(text, Onward(front, text, |name|), at, name);
  }

  lemma FrontMatchIs(text: string, at: int, name: string)
    requires IsPlainName(name)
    ensures IsArgument(text, 0, at, name) <==> FrontMatch(name)(text).Some? && at == FrontMatch(name)(text).value
  {
    FrontIs(text, at, name);
  }

  lemma ArgumentsAt(name: string, text: string, at: int)
    requires IsPlainName(name)
    ensures WholeAt(FrontMatch(name), |name|, WholeOf(name), text, at)
  {
    if |text| > 0 {
      FrontMatchIs(text, at, name);
      OnwardSkipsNone(text, name);
      WholeRound(FrontMatch(name), name, text, at);
    }
  }

  lemma ArgumentsEverywhere(name: string)
    requires IsPlainName(name)
    ensures forall t, i :: WholeAt(FrontMatch(name), |name|, WholeOf(name), t, i)
  {
    forall t, i ensures WholeAt(FrontMatch(name), |name|, WholeOf(name), t, i) {
      ArgumentsAt(name, t, i);
    }
  }

  /** For a plain name the fallback finds exactly the whole arguments of that name. */
  lemma WholeArgumentsIff(text: string, offset: nat, name: string, q: nat)
    requires IsPlainName(name)
    ensures q in WholeArguments(text, offset, name) <==> IsWhole(text, q - offset, name)
  {
    ArgumentsEverywhere(name);
    MatchesAreWhole(FrontMatch(name), text, offset, name, q);
  }

  lemma MatchesAreWhole(front: string -> Option<nat>, text: string, offset: nat, name: string, q: nat)
    requires forall t, i :: WholeAt(front, |name|, WholeOf(name), t, i)
    ensures q in AllMatches(front, text, offset, |name|) <==> IsWhole(text, q - offset, name)
  {
    MatchesIff(front, |name|, WholeOf(name), text, offset, q, q - offset);
  }
}
