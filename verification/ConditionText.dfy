/** Renaming a job in the text of a condition, end to end: the spliced text is cut into
    the renamed tokens, parses to the renamed condition, and holds when the condition did
    (autosys/analysis/condition_refs.py, `rename_job_refs`, and
    autosys/parser/condition_parser.py). */
module ConditionText {
  import opened ConditionArguments
  import opened ConditionParser
  import opened ConditionRefs
  import opened ConditionRename
  import opened ConditionTokens
  import opened Options

  // ----- any reader that looks ahead only as far as `alike` can tell

  type Likeness = (string, string) -> bool

  ghost predicate AlikeSelf(alike: Likeness, s: string) {
    alike(s, s)
  }

  ghost predicate StableAt(next: Reader, alike: Likeness, gap: string, w: string, r: string, m: string) {
    var p := next(gap + (w + r));
    p.Piece? && p.gap == |gap| && p.length == |w| && (p.kind == LPAREN || alike(r, m)) ==>
      next(gap + (w + m)) == p && alike(gap + (w + r), gap + (w + m))
  }

  /** A token stays what it is when the text behind it changes to one that is alike; an
      opening parenthesis stays in any case. */
  ghost predicate Stable(next: Reader, alike: Likeness) {
    && (forall s :: AlikeSelf(alike, s))
    && (forall gap, w, r, m :: StableAt(next, alike, gap, w, r, m))
  }

  ghost predicate IsNamePiece(p: Piece, gap: string, name: string) {
    p.Piece? && p.gap == |gap| && IsName(p.kind) && p.value == name && p.length == |name|
  }

  ghost predicate RenamesAt(next: Reader, alike: Likeness, oldName: string, newName: string,
                            gap: string, r: string, m: string) {
    IsNamePiece(next(gap + (oldName + r)), gap, oldName) && alike(r, m) ==>
      IsNamePiece(next(gap + (newName + m)), gap, newName)
  }

  /** Where `oldName` is read as a name, `newName` would be. */
  ghost predicate Renames(next: Reader, alike: Likeness, oldName: string, newName: string) {
    newName != "" && forall gap, r, m :: RenamesAt(next, alike, oldName, newName, gap, r, m)
  }

  /** The marked tokens are names `oldName` behind an opening parenthesis. */
  ghost predicate MarksRefs(toks: seq<Token>, marks: seq<bool>, oldName: string) {
    && |marks| == |toks|
    && (forall i :: 0 <= i < |toks| && marks[i] ==> IsName(toks[i].kind) && toks[i].value == oldName)
    && (forall i :: 0 < i < |toks| && marks[i] ==> toks[i - 1].kind == LPAREN)
  }

  /** `y` is `x` with the marked tokens made names `newName`, and the same white space. */
  ghost predicate Recuts(x: Lexed, marks: seq<bool>, newName: string, y: Option<Lexed>) {
    && y.Some? && y.value.gaps == x.gaps && |y.value.toks| == |x.toks| == |marks|
    && forall i :: 0 <= i < |marks| ==> Recut(x.toks[i], marks[i], newName, y.value.toks[i])
  }

  predicate Recut(t: Token, mark: bool, newName: string, u: Token) {
    if mark then IsName(u.kind) && u.value == newName else u.kind == t.kind && u.value == t.value
  }

  lemma RecutsCons(gap: string, t: Token, mark: bool, u: Token, x: Lexed, y: Lexed, marks: seq<bool>, newName: string)
    requires Recuts(x, marks, newName, Some(y)) && Recut(t, mark, newName, u)
    ensures Recuts(Cons(gap, t, x), [mark] + marks, newName, Some(Cons(gap, u, y)))
  {
  }

  /** The text with the marked tokens replaced. */
  function Rewritten(x: Lexed, marks: seq<bool>, newName: string): string
    requires |x.gaps| == |x.toks| == |marks|
  {
    Layout(x.gaps, Retext(x.toks, marks, newName))
  }

  lemma RewrittenCons(gap: string, t: Token, x: Lexed, mark: bool, marks: seq<bool>, newName: string)
    requires |x.gaps| == |x.toks| == |marks|
    ensures Rewritten(Cons(gap, t, x), [mark] + marks, newName)
         == gap + ((if mark then newName else Written(t)) + Rewritten(x, marks, newName))
  {
    var y, more := Cons(gap, t, x), [mark] + marks;
    assert y.gaps[1..] == x.gaps && y.toks[1..] == x.toks && more[1..] == marks;
    RetextStep(y.gaps, y.toks, more, newName);
  }

  lemma RewrittenEnd(s: string, offset: nat, newName: string)
    ensures Rewritten(Lexed([s], [Token(EOF, "", offset)]), [false], newName) == s
  {
    var end := Lexed([], []);
    RewrittenCons(s, Token(EOF, "", offset), end, false, [], newName);
    assert Rewritten(end, [], newName) == "";
    assert Cons(s, Token(EOF, "", offset), end) == Lexed([s], [Token(EOF, "", offset)]);
    assert [false] + [] == [false];
    assert s + ("" + "") == s;
  }

  /** What has to be shown of a text and of the text with its references replaced. */
  ghost predicate Survives(next: Reader, alike: Likeness, s: string, x: Lexed, marks: seq<bool>, newName: string,
                           offset: nat)
    requires |x.gaps| == |x.toks| == |marks| > 0
  {
    && Recuts(x, marks, newName, TokenizeBy(next, Rewritten(x, marks, newName), offset))
    && (!marks[0] ==> alike(s, Rewritten(x, marks, newName)))
  }

  lemma EndSurvives(next: Reader, alike: Likeness, s: string, x: Lexed, marks: seq<bool>, newName: string,
                    offset: nat, offset2: nat)
    requires Stable(next, alike) && next(s) == End && |marks| == 1 && !marks[0]
    requires x == Lexed([s], [Token(EOF, "", offset)])
    ensures Survives(next, alike, s, x, marks, newName, offset2)
  {
    assert marks == [false] && AlikeSelf(alike, s);
    RewrittenEnd(s, offset, newName);
  }

  /** The token in front of a rest that survives. */
  lemma KeptInFront(next: Reader, alike: Likeness, gap: string, t: Token, tail: string, x: Lexed, marks: seq<bool>,
                    newName: string, offset: nat)
    requires Stable(next, alike) && |Written(t)| > 0 && |x.gaps| == |x.toks| == |marks| > 0
    requires next(gap + (Written(t) + tail)) == Piece(|gap|, t.kind, t.value, |Written(t)|)
    requires marks[0] ==> t.kind == LPAREN
    requires Survives(next, alike, tail, x, marks, newName, offset + |gap| + |Written(t)|)
    ensures Survives(next, alike, gap + (Written(t) + tail), Cons(gap, t, x), [false] + marks, newName, offset)
  {
    var rest := Rewritten(x, marks, newName);
    var y := TokenizeBy(next, rest, offset + |gap| + |Written(t)|).value;
    RewrittenCons(gap, t, x, false, marks, newName);
    assert StableAt(next, alike, gap, Written(t), tail, rest);
    TokenizeCons(next, gap, Written(t), t.kind, t.value, rest, offset);
    RecutsCons(gap, t, false, Token(t.kind, t.value, offset + |gap|), x, y, marks, newName);
  }

  lemma RenamedInFront(next: Reader, alike: Likeness, gap: string, t: Token, tail: string, x: Lexed, marks: seq<bool>,
                       oldName: string, newName: string, offset: nat)
    requires Renames(next, alike, oldName, newName) && |x.gaps| == |x.toks| == |marks| > 0
    requires IsName(t.kind) && t.value == oldName && !marks[0]
    requires next(gap + (Written(t) + tail)) == Piece(|gap|, t.kind, t.value, |Written(t)|)
    requires Survives(next, alike, tail, x, marks, newName, offset + |gap| + |newName|)
    ensures Survives(next, alike, gap + (Written(t) + tail), Cons(gap, t, x), [true] + marks, newName, offset)
  {
    var rest := Rewritten(x, marks, newName);
    var y := TokenizeBy(next, rest, offset + |gap| + |newName|).value;
    RewrittenCons(gap, t, x, true, marks, newName);
    assert RenamesAt(next, alike, oldName, newName, gap, tail, rest);
    var p := next(gap + (newName + rest));
    TokenizeCons(next, gap, newName, p.kind, p.value, rest, offset);
    RecutsCons(gap, t, true, Token(p.kind, p.value, offset + |gap|), x, y, marks, newName);
  }

  lemma MarksOfRest(gap: string, t: Token, rest: Lexed, marks: seq<bool>, oldName: string)
    requires MarksRefs(Cons(gap, t, rest).toks, marks, oldName) && |rest.toks| > 0
    ensures |marks| == 1 + |rest.toks| && marks == [marks[0]] + marks[1..]
    ensures MarksRefs(rest.toks, marks[1..], oldName) && (marks[0] ==> IsName(t.kind) && t.value == oldName)
    ensures marks[1..][0] ==> t.kind == LPAREN
  {
    var toks := rest.toks;
    var all := [t] + toks;
    assert all[1..] == toks && all[0] == t;
    forall i | 0 < i < |toks| && marks[1..][i] ensures toks[i - 1].kind == LPAREN {
      assert marks[i + 1] && all[i + 1 - 1].kind == LPAREN;
    }
    assert marks[1] ==> all[1 - 1].kind == LPAREN;
  }

  lemma InFront(next: Reader, alike: Likeness, gap: string, t: Token, tail: string, x: Lexed, mark: bool,
                marks: seq<bool>, oldName: string, newName: string, offset: nat)
    requires Stable(next, alike) && Renames(next, alike, oldName, newName)
    requires |Written(t)| > 0 && |x.gaps| == |x.toks| == |marks| > 0
    requires next(gap + (Written(t) + tail)) == Piece(|gap|, t.kind, t.value, |Written(t)|)
    requires (mark ==> IsName(t.kind) && t.value == oldName) && (marks[0] ==> t.kind == LPAREN)
    requires Survives(next, alike, tail, x, marks, newName, offset + |gap| + if mark then |newName| else |Written(t)|)
    ensures Survives(next, alike, gap + (Written(t) + tail), Cons(gap, t, x), [mark] + marks, newName, offset)
  {
    if mark {
      RenamedInFront(next, alike, gap, t, tail, x, marks, oldName, newName, offset);
    } else {
      KeptInFront(next, alike, gap, t, tail, x, marks, newName, offset);
    }
  }

  lemma EndMarks(s: string, offset: nat, marks: seq<bool>, oldName: string)
    requires MarksRefs([Token(EOF, "", offset)], marks, oldName)
    ensures |marks| == 1 && !marks[0]
  {
  }

  /** The first token and its mark. */
  lemma Peel(next: Reader, ok: (Kind, string) -> bool, s: string, offset: nat, x: Lexed, marks: seq<bool>,
      oldName: string)
    returns (gap: string, t: Token, tail: string, rest: Lexed, mark: bool, more: seq<bool>)
    requires IsReader(next, ok) && TokenizeBy(next, s, offset) == Some(x) && next(s) != End
    requires MarksRefs(x.toks, marks, oldName)
    ensures s == gap + (Written(t) + tail) && |tail| < |s| && |Written(t)| > 0
    ensures next(gap + (Written(t) + tail)) == Piece(|gap|, t.kind, t.value, |Written(t)|)
    ensures TokenizeBy(next, tail, t.pos + |Written(t)|) == Some(rest) && x == Cons(gap, t, rest)
    ensures |rest.gaps| == |rest.toks| == |more| > 0 && marks == [mark] + more && MarksRefs(rest.toks, more, oldName)
    ensures (mark ==> IsName(t.kind) && t.value == oldName) && (more[0] ==> t.kind == LPAREN)
  {
    gap, t, tail, rest := FirstOfCut(next, ok, s, offset, x);
    MarksOfRest(gap, t, rest, marks, oldName);
    mark, more := marks[0], marks[1..];
  }

  /** Cutting the rewritten text gives the tokens with the marked ones renamed. */
  lemma {:induction false} TextSurvives(next: Reader, ok: (Kind, string) -> bool, alike: Likeness,
                                        s: string, offset: nat, x: Lexed, marks: seq<bool>,
                                        oldName: string, newName: string, offset2: nat)
    requires IsReader(next, ok) && Stable(next, alike) && Renames(next, alike, oldName, newName)
    requires TokenizeBy(next, s, offset) == Some(x) && MarksRefs(x.toks, marks, oldName)
    ensures |x.gaps| == |x.toks| == |marks| > 0 && Survives(next, alike, s, x, marks, newName, offset2)
    decreases |s|
  {
    if next(s) == End {
      EndMarks(s, offset + |s|, marks, oldName);
      EndSurvives(next, alike, s, x, marks, newName, offset + |s|, offset2);
    } else {
      var gap, t, tail, rest, mark, more := Peel(next, ok, s, offset, x, marks, oldName);
      var offset3 := offset2 + |gap| + if mark then |newName| else |Written(t)|;
      TextSurvives(next, ok, alike, tail, t.pos + |Written(t)|, rest, more, oldName, newName, offset3);
      InFront(next, alike, gap, t, tail, rest, mark, more, oldName, newName, offset2);
    }
  }

  // ----- the tokenizer is such a reader

  lemma SpacesInFront(gap: string, rest: string)
    requires Spaces(gap + rest) == |gap|
    ensures forall i :: 0 <= i < |gap| ==> IsSpace(gap[i])
  {
    assert forall i :: 0 <= i < |gap| ==> (gap + rest)[i] == gap[i];
  }

  lemma AlikeInFront(gap: string, w: string, r: string, m: string)
    requires (forall i :: 0 <= i < |gap| ==> IsSpace(gap[i])) && w != "" && !IsSpace(w[0])
    ensures Alike(gap + (w + r), gap + (w + m))
  {
    assert (w + r)[0] == w[0] && (w + m)[0] == w[0];
    SpacesOf(gap, w + r);
    SpacesOf(gap, w + m);
    assert (gap + (w + r))[|gap|] == w[0] && (gap + (w + m))[|gap|] == w[0];
    assert gap != "" ==> (gap + (w + r))[0] == gap[0] && (gap + (w + m))[0] == gap[0];
  }

  /** What `NextPiece` says of a token behind `gap`. */
  lemma PieceInFront(gap: string, w: string, r: string)
    requires NextPiece(gap + (w + r)).Piece? && NextPiece(gap + (w + r)).gap == |gap|
    ensures forall i :: 0 <= i < |gap| ==> IsSpace(gap[i])
    ensures w + r != "" && First(w + r).Some?
    ensures var p, l := NextPiece(gap + (w + r)), First(w + r).value;
      p.kind == l.kind && p.value == l.value && p.length == l.length
  {
    SpacesInFront(gap, w + r);
    assert (gap + (w + r))[|gap|..] == w + r;
  }

  lemma PieceBehind(gap: string, s: string)
    requires (forall i :: 0 <= i < |gap| ==> IsSpace(gap[i])) && s != "" && !IsSpace(s[0]) && First(s).Some?
    ensures var l := First(s).value; NextPiece(gap + s) == Piece(|gap|, l.kind, l.value, l.length)
  {
    SpacesOf(gap, s);
    assert (gap + s)[|gap|..] == s;
  }

  lemma NextPieceStableAt(gap: string, w: string, r: string, m: string)
    ensures StableAt(NextPiece, Alike, gap, w, r, m)
  {
    var p := NextPiece(gap + (w + r));
    if p.Piece? && p.gap == |gap| && p.length == |w| && (p.kind == LPAREN || Alike(r, m)) {
      PieceInFront(gap, w, r);
      FirstFacts(w + r);
      assert (w + r)[0] == w[0];
      FirstIsLocal(w, r, m);
      assert (w + m)[0] == w[0];
      PieceBehind(gap, w + m);
      AlikeInFront(gap, w, r, m);
    }
  }

  lemma NextPieceIsStable()
    ensures Stable(NextPiece, Alike)
  {
    forall gap, w, r, m ensures StableAt(NextPiece, Alike, gap, w, r, m) {
      NextPieceStableAt(gap, w, r, m);
    }
  }

  /** The name of a job that is not written like an operator. */
  predicate NotAnOperator(name: string) {
    name != "&" && name != "|"
  }

  lemma NoNameCharBehind(name: string, r: string)
    requires NotAnOperator(name) && First(name + r).Some?
    requires var l := First(name + r).value; IsName(l.kind) && l.value == name && l.length == |name|
    ensures r == "" || !IsNameChar(r[0])
  {
    FirstFacts(name + r);
    assert IsWord(name) && (name + r)[0] == name[0] && IsNameChar(name[0]);
    assert NameChars(name + r) == |name|;
    assert r != "" ==> (name + r)[|name|] == r[0];
  }

  lemma NextPieceRenamesAt(oldName: string, newName: string, gap: string, r: string, m: string)
    requires NotAnOperator(oldName) && IsLexeme(newName)
    ensures RenamesAt(NextPiece, Alike, oldName, newName, gap, r, m)
  {
    if IsNamePiece(NextPiece(gap + (oldName + r)), gap, oldName) && Alike(r, m) {
      PieceInFront(gap, oldName, r);
      NoNameCharBehind(oldName, r);
      FirstOfName(newName, m);
      assert (newName + m)[0] == newName[0];
      PieceBehind(gap, newName + m);
    }
  }

  lemma NextPieceRenames(oldName: string, newName: string)
    requires NotAnOperator(oldName) && IsLexeme(newName)
    ensures Renames(NextPiece, Alike, oldName, newName)
  {
    forall gap, r, m ensures RenamesAt(NextPiece, Alike, oldName, newName, gap, r, m) {
      NextPieceRenamesAt(oldName, newName, gap, r, m);
    }
  }

  // ----- renaming in the text

  lemma RefMarksAreRefs(toks: seq<Token>, oldName: string)
    ensures MarksRefs(toks, RefMarks(toks, oldName), oldName)
  {
  }

  /** The condition with its references renamed. */
  function RenamedText(condition: string, oldName: string, newName: string): string
    requires Tokenize(condition).Some?
  {
    var Lexed(gaps, toks) := Tokenize(condition).value;
    Layout(gaps, RenamedTokens(toks, oldName, newName))
  }

  /** If the new name is one the tokenizer reads as one token, the renamed text is cut
      into the renamed tokens, with the same white space. */
  lemma RenamedTextIsRenamedTokens(condition: string, oldName: string, newName: string)
    requires Tokenize(condition).Some? && NotAnOperator(oldName) && IsLexeme(newName)
    ensures var x, y := Tokenize(condition).value, Tokenize(RenamedText(condition, oldName, newName));
      y.Some? && y.value.gaps == x.gaps && TokensRenamed(x.toks, y.value.toks, oldName, newName)
  {
    var x := Tokenize(condition).value;
    var marks := RefMarks(x.toks, oldName);
    NextPieceReads();
    NextPieceIsStable();
    NextPieceRenames(oldName, newName);
    RefMarksAreRefs(x.toks, oldName);
    TextSurvives(NextPiece, WellFormed, Alike, condition, 0, x, marks, oldName, newName, 0);
    RecutsAreRenamed(x, Tokenize(Rewritten(x, marks, newName)), oldName, newName);
  }

  lemma RecutsAreRenamed(x: Lexed, y: Option<Lexed>, oldName: string, newName: string)
    requires Recuts(x, RefMarks(x.toks, oldName), newName, y)
    ensures y.Some? && TokensRenamed(x.toks, y.value.toks, oldName, newName)
  {
    var marks := RefMarks(x.toks, oldName);
    forall i | 0 <= i < |x.toks|
      ensures if IsRefTo(x.toks, i, oldName) then IsName(y.value.toks[i].kind) && y.value.toks[i].value == newName
              else y.value.toks[i].kind == x.toks[i].kind && y.value.toks[i].value == x.toks[i].value
    {
      assert Recut(x.toks[i], marks[i], newName, y.value.toks[i]);
    }
  }

  ghost predicate HasRef(toks: seq<Token>, name: string) {
    exists i :: IsRefTo(toks, i, name)
  }

  /** The renamed text is cut into the renamed tokens if and only if there is nothing to
      rename or the tokenizer reads the new name as one token. */
  lemma RenamedTextIsRenamedTokensIff(condition: string, oldName: string, newName: string)
    requires Tokenize(condition).Some? && NotAnOperator(oldName)
    ensures var x, y := Tokenize(condition).value, Tokenize(RenamedText(condition, oldName, newName));
      (y.Some? && TokensRenamed(x.toks, y.value.toks, oldName, newName)) <==>
      !HasRef(x.toks, oldName) || IsLexeme(newName)
  {
    var x, result := Tokenize(condition).value, RenamedText(condition, oldName, newName);
    if IsLexeme(newName) {
      RenamedTextIsRenamedTokens(condition, oldName, newName);
    } else if i :| IsRefTo(x.toks, i, oldName) {
      NameTokensAreLexemes(result, i);
    } else {
      TokenizeIsCut(condition);
      NothingRenamed(x.toks, oldName, newName);
    }
  }

  lemma NameTokensAreLexemes(condition: string, i: int)
    ensures var x := Tokenize(condition);
      x.Some? && 0 <= i < |x.value.toks| && IsName(x.value.toks[i].kind) ==> IsLexeme(x.value.toks[i].value)
  {
    if Tokenize(condition).Some? {
      TokenizeIsCut(condition);
    }
  }

  lemma NothingRenamed(toks: seq<Token>, oldName: string, newName: string)
    requires !HasRef(toks, oldName)
    ensures RenamedTokens(toks, oldName, newName) == toks && TokensRenamed(toks, toks, oldName, newName)
  {
  }

  /** The condition with every reference to job `oldName` renamed: the tokens of a text
      the tokenizer can read, and the whole arguments of any other. */
  method RenameJobRefs(condition: string, oldName: string, newName: string) returns (result: string)
    ensures Tokenize(condition).Some? ==>
      && result == RenamedText(condition, oldName, newName)
      && |result| == |condition| + |RefSpans(condition, oldName)| * (|newName| - |oldName|)
    ensures Tokenize(condition).None? ==>
      var spans := WholeArguments(condition, 0, oldName);
      && Fits(spans, 0, |condition|, |oldName|)
      && result == Replace(condition, 0, spans, |oldName|, newName)
  {
    if condition == "" || !Contains(condition, oldName) {
      NothingFound(condition, oldName, newName);
      return condition;
    }
    var spans: seq<nat>;
    var x := Tokenize(condition);
    if x.Some? {
      spans := CollectSpans(x.value.toks, oldName);
      SpansOfText(condition, spans, oldName, newName);
    } else {
      spans := WholeArguments(condition, 0, oldName);
      WholeArgumentsFit(condition, 0, oldName);
    }
    result := Splice(condition, spans, |oldName|, newName);
  }

  /** The positions of the references. */
  function RefSpans(condition: string, oldName: string): seq<nat>
    requires Tokenize(condition).Some?
  {
    var toks := Tokenize(condition).value.toks;
    Marked(toks, RefMarks(toks, oldName))
  }

  lemma NamesAreNotEmpty(condition: string)
    requires Tokenize(condition).Some?
    ensures var x := Tokenize(condition).value;
      && condition == Layout(x.gaps, x.toks) && Placed(x.gaps, x.toks, 0)
      && forall i :: 0 <= i < |x.toks| && IsName(x.toks[i].kind) ==> x.toks[i].value != ""
  {
    TokenizeIsCut(condition);
  }

  lemma NothingFound(condition: string, oldName: string, newName: string)
    requires condition == "" || !Contains(condition, oldName)
    ensures Tokenize(condition).Some? ==>
      condition == RenamedText(condition, oldName, newName) && |RefSpans(condition, oldName)| == 0
    ensures WholeArguments(condition, 0, oldName) == []
  {
    if Tokenize(condition).Some? {
      var x := Tokenize(condition).value;
      NamesAreNotEmpty(condition);
      NothingToRename(x.gaps, x.toks, oldName, newName);
    }
    if WholeArguments(condition, 0, oldName) != [] {
      ArgumentsAreContained(condition, 0, oldName);
    }
  }

  lemma SpansOfText(condition: string, spans: seq<nat>, oldName: string, newName: string)
    requires Tokenize(condition).Some? && spans == RefSpans(condition, oldName)
    ensures Fits(spans, 0, |condition|, |oldName|)
    ensures Replace(condition, 0, spans, |oldName|, newName) == RenamedText(condition, oldName, newName)
    ensures |RenamedText(condition, oldName, newName)| == |condition| + |spans| * (|newName| - |oldName|)
  {
    NamesAreNotEmpty(condition);
    SpansOfLayout(Tokenize(condition).value, spans, oldName, newName);
  }

  lemma SpansOfLayout(x: Lexed, spans: seq<nat>, oldName: string, newName: string)
    requires |x.gaps| == |x.toks| && Placed(x.gaps, x.toks, 0) && spans == Marked(x.toks, RefMarks(x.toks, oldName))
    ensures var condition, renamed := Layout(x.gaps, x.toks), Layout(x.gaps, RenamedTokens(x.toks, oldName, newName));
      && Fits(spans, 0, |condition|, |oldName|)
      && Replace(condition, 0, spans, |oldName|, newName) == renamed
      && |renamed| == |condition| + |spans| * (|newName| - |oldName|)
  {
    RenameSpans(x.gaps, x.toks, oldName, newName);
    ReplaceLength(Layout(x.gaps, x.toks), 0, spans, |oldName|, newName);
  }

  /** `parse_condition`; the white space it strips first makes no difference to the
      tokens but their positions. */
  function ParseText(condition: string): Option<Node> {
    var x := Tokenize(condition);
    if x.None? then None else Parse(x.value.toks)
  }

  /** End to end: the renamed text parses to the renamed condition, which holds of the
      renamed job exactly when the condition held before; text that does not parse still
      does not. */
  lemma RenamedTextMeansTheSame(condition: string, oldName: string, newName: string, before: World, after: World)
    requires Tokenize(condition).Some? && NotAnOperator(oldName) && IsLexeme(newName)
    ensures var node, renamed := ParseText(condition), ParseText(RenamedText(condition, oldName, newName));
      && (node.None? ==> renamed.None?)
      && (node.Some? ==> renamed == Some(Rename(node.value, oldName, newName)))
      && (node.Some? && Renamed(before, after, oldName, newName) && !HasCaret(oldName) && !HasCaret(newName)
          && !LooksUp(node.value, newName) && !HasNamesake(node.value, oldName)
          ==> Holds(renamed.value, after) == Holds(node.value, before))
  {
    var node := ParseText(condition);
    RenamedTextIsRenamedTokens(condition, oldName, newName);
    ParseRenamed(Tokenize(condition).value.toks, Tokenize(RenamedText(condition, oldName, newName)).value.toks,
                 oldName, newName);
    if node.Some? && Renamed(before, after, oldName, newName) && !HasCaret(oldName) && !HasCaret(newName)
       && !LooksUp(node.value, newName) && !HasNamesake(node.value, oldName)
    {
      RenameKeepsMeaning(node.value, oldName, newName, before, after);
    }
  }
}
