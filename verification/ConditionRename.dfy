/** Renaming a job in the text of a condition: the references are found in the token list
    and spliced from right to left (autosys/analysis/condition_refs.py,
    `rename_job_refs`). */
module ConditionRename {
  import opened ConditionParser
  import opened ConditionRefs
  import opened ConditionTokens
  import opened Options
  import opened Permutations

  // ----- splicing

  /** The spans of length `k` starting at `spans` are in order, do not overlap and lie in
      a text that starts at `offset`. */
  predicate Fits(spans: seq<nat>, offset: nat, length: nat, k: nat) {
    |spans| == 0 || (offset <= spans[0] && spans[0] + k <= offset + length &&
        Fits(spans[1..], spans[0] + k, offset + length - (spans[0] + k), k))
  }

  /** All spans replaced at once. */
  function Replace(text: string, offset: nat, spans: seq<nat>, k: nat, fill: string): string
    requires Fits(spans, offset, |text|, k)
  {
    if |spans| == 0 then text
    else text[..spans[0] - offset] + (fill + Replace(text[spans[0] + k - offset..], spans[0] + k, spans[1..], k, fill))
  }

  /** The text before the first span stays. */
  lemma ReplacePrefix(text: string, offset: nat, cut: nat, spans: seq<nat>, k: nat, fill: string)
    requires Fits(spans, offset, |text|, k) && offset <= cut <= offset + |text| && (|spans| > 0 ==> cut <= spans[0])
    ensures Fits(spans, cut, offset + |text| - cut, k)
    ensures Replace(text, offset, spans, k, fill) ==
        text[..cut - offset] + Replace(text[cut - offset..], cut, spans, k, fill)
  {
    if |spans| > 0 {
      var rest := text[cut - offset..];
      assert rest[spans[0] + k - cut..] == text[spans[0] + k - offset..];
      assert text[..spans[0] - offset] == text[..cut - offset] + rest[..spans[0] - cut];
      var tail := fill + Replace(text[spans[0] + k - offset..], spans[0] + k, spans[1..], k, fill);
      ConcatAssociates(text[..cut - offset], rest[..spans[0] - cut], tail);
    }
  }

  /** The length changes by the same amount for every span. */
  lemma {:induction false} ReplaceLength(text: string, offset: nat, spans: seq<nat>, k: nat, fill: string)
    requires Fits(spans, offset, |text|, k)
    ensures |Replace(text, offset, spans, k, fill)| == |text| + |spans| * (|fill| - k)
  {
    if |spans| > 0 {
      ReplaceLength(text[spans[0] + k - offset..], spans[0] + k, spans[1..], k, fill);
    }
  }

  lemma {:induction false} FitsSuffix(spans: seq<nat>, offset: nat, length: nat, k: nat, j: nat)
    requires Fits(spans, offset, length, k) && j <= |spans|
    ensures Fits(spans[j..], offset, length, k)
    ensures j < |spans| ==> offset <= spans[j] && spans[j] + k <= offset + length
    ensures 0 < j < |spans| ==> spans[j - 1] + k <= spans[j]
    ensures 0 < j ==> spans[j - 1] + k <= offset + length && Fits(spans[j..], spans[j - 1] + k, offset + length - (spans[j - 1] + k), k)
  {
    if j == 0 {
      assert spans[0..] == spans;
    } else {
      FitsSuffix(spans[1..], spans[0] + k, offset + length - (spans[0] + k), k, j - 1);
      assert spans[1..][j - 1..] == spans[j..];
      FitsEarlier(spans[j..], spans[0] + k, offset + length - (spans[0] + k), k, offset);
    }
  }

  lemma FitsEarlier(spans: seq<nat>, offset: nat, length: nat, k: nat, earlier: nat)
    requires Fits(spans, offset, length, k) && earlier <= offset
    ensures Fits(spans, earlier, offset + length - earlier, k)
  {
  }

  /** Replacing one more span on the left of the ones already replaced. */
  lemma SpliceStep(text: string, spans: seq<nat>, k: nat, fill: string, j: nat)
    requires Fits(spans, 0, |text|, k) && 0 < j <= |spans|
    ensures Fits(spans[j..], 0, |text|, k) && Fits(spans[j - 1..], 0, |text|, k)
    ensures var done := Replace(text, 0, spans[j..], k, fill);
      && spans[j - 1] + k <= |done|
      && Replace(text, 0, spans[j - 1..], k, fill) == done[..spans[j - 1]] + fill + done[spans[j - 1] + k..]
  {
    FitsSuffix(spans, 0, |text|, k, j - 1);
    SuffixIs(spans, j);
    SpliceFront(text, spans[j - 1..], spans[j - 1], spans[j..], k, fill);
  }

  lemma SuffixIs(spans: seq<nat>, j: nat)
    requires 0 < j <= |spans|
    ensures spans[j - 1..] == [spans[j - 1]] + spans[j..]
  {
  }

  lemma SpliceFront(text: string, spans: seq<nat>, s: nat, rest: seq<nat>, k: nat, fill: string)
    requires spans == [s] + rest && Fits(spans, 0, |text|, k)
    ensures Fits(rest, 0, |text|, k)
    ensures var done := Replace(text, 0, rest, k, fill);
      s + k <= |done| && Replace(text, 0, spans, k, fill) == done[..s] + fill + done[s + k..]
  {
    FitsRest(spans, s, rest, |text|, k);
    ReplacePrefix(text, 0, s + k, rest, k, fill);
    ReplaceFront(text, spans, s, rest, k, fill);
    SpliceOne(text, s, k, fill, Replace(text[s + k..], s + k, rest, k, fill));
  }

  lemma FitsRest(spans: seq<nat>, s: nat, rest: seq<nat>, length: nat, k: nat)
    requires spans == [s] + rest && Fits(spans, 0, length, k)
    ensures s + k <= length && Fits(rest, s + k, length - (s + k), k) && Fits(rest, 0, length, k)
    ensures |rest| > 0 ==> s + k <= rest[0]
  {
    assert spans[1..] == rest;
    FitsEarlier(rest, s + k, length - (s + k), k, 0);
  }

  lemma ReplaceFront(text: string, spans: seq<nat>, s: nat, rest: seq<nat>, k: nat, fill: string)
    requires spans == [s] + rest && Fits(spans, 0, |text|, k) && s + k <= |text| &&
        Fits(rest, s + k, |text| - (s + k), k)
    ensures Replace(text, 0, spans, k, fill) == text[..s] + (fill + Replace(text[s + k..], s + k, rest, k, fill))
  {
    assert spans[1..] == rest;
  }

  lemma SpliceOne(text: string, s: nat, k: nat, fill: string, tail: string)
    requires s + k <= |text|
    ensures var done := text[..s + k] + tail;
      s + k <= |done| && done[..s] + fill + done[s + k..] == text[..s] + (fill + tail)
  {
    TakeDrop(text[..s + k], s, tail);
    assert text[..s + k][..s] == text[..s];
    ConcatAssociates(text[..s], fill, tail);
  }

  /** `for pos in reversed(spans): condition = condition[:pos] + new + condition[pos + len(old):]` */
  method Splice(text: string, spans: seq<nat>, k: nat, fill: string) returns (result: string)
    requires Fits(spans, 0, |text|, k)
    ensures result == Replace(text, 0, spans, k, fill)
  {
    result := text;
    assert spans[|spans|..] == [];
    for j := |spans| downto 0
      invariant Fits(spans[j..], 0, |text|, k) && result == Replace(text, 0, spans[j..], k, fill)
    {
      SpliceStep(text, spans, k, fill, j + 1);
      result := result[..spans[j]] + fill + result[spans[j] + k..];
    }
    assert spans[0..] == spans;
  }

  // ----- tokens laid out in the text

  /** The positions of the marked tokens. */
  function Marked(toks: seq<Token>, marks: seq<bool>): (spans: seq<nat>)
    requires |marks| == |toks|
  {
    if |toks| == 0 then [] else (if marks[0] then [toks[0].pos] else []) + Marked(toks[1..], marks[1..])
  }

  function Retext(toks: seq<Token>, marks: seq<bool>, newName: string): (renamed: seq<Token>)
    requires |marks| == |toks|
    ensures |renamed| == |toks|
    ensures forall i :: 0 <= i < |toks| ==>
        renamed[i] == if marks[i] then Token(IDENT, newName, toks[i].pos) else toks[i]
  {
    if |toks| == 0 then []
    else [if marks[0] then Token(IDENT, newName, toks[0].pos) else toks[0]] + Retext(toks[1..], marks[1..], newName)
  }

  /** Every marked token is written as `oldName`. */
  ghost predicate MarksName(toks: seq<Token>, marks: seq<bool>, oldName: string) {
    |marks| == |toks| && forall i :: 0 <= i < |toks| && marks[i] ==> Written(toks[i]) == oldName
  }

  /** The first token is replaced. */
  lemma ReplaceFirst(gap: string, written: string, restText: string, offset: nat, spans: seq<nat>, newName: string)
    requires |spans| > 0 && spans[0] == offset + |gap|
    requires Fits(spans[1..], offset + |gap| + |written|, |restText|, |written|)
    ensures var text := gap + (written + restText);
      && Fits(spans, offset, |text|, |written|)
      && Replace(text, offset, spans, |written|, newName)
           == gap + (newName + Replace(restText, offset + |gap| + |written|, spans[1..], |written|, newName))
  {
    Slices(gap, written, restText);
  }

  /** The first token stays. */
  lemma KeepFirst(gap: string, written: string, restText: string, offset: nat, next: nat, rest: seq<nat>, k: nat,
                  newName: string)
    requires next == offset + |gap| + |written| && Fits(rest, next, |restText|, k)
    ensures var text := gap + (written + restText);
      && Fits(rest, offset, |text|, k)
      && Replace(text, offset, rest, k, newName) == gap + (written + Replace(restText, next, rest, k, newName))
  {
    KeepFront(gap + written, restText, offset, next, rest, k, newName);
    Regroup(gap, written, restText);
    Regroup(gap, written, Replace(restText, next, rest, k, newName));
  }

  lemma Regroup(a: string, b: string, c: string)
    ensures (a + b) + c == a + (b + c) && |a + b| == |a| + |b|
  {
  }

  lemma KeepFront(front: string, restText: string, offset: nat, next: nat, rest: seq<nat>, k: nat, newName: string)
    requires next == offset + |front| && Fits(rest, next, |restText|, k)
    ensures Fits(rest, offset, |front + restText|, k)
    ensures Replace(front + restText, offset, rest, k, newName) == front + Replace(restText, next, rest, k, newName)
  {
    FitsEarlier(rest, next, |restText|, k, offset);
    ReplacePrefix(front + restText, offset, next, rest, k, newName);
    FrontAndRest(front, restText);
  }

  lemma FrontAndRest(front: string, rest: string)
    ensures (front + rest)[..|front|] == front && (front + rest)[|front|..] == rest
  {
  }

  lemma RetextStep(gaps: seq<string>, toks: seq<Token>, marks: seq<bool>, newName: string)
    requires |gaps| == |toks| == |marks| && |toks| > 0
    ensures Layout(gaps, Retext(toks, marks, newName))
              == gaps[0] + ((if marks[0] then newName else Written(toks[0])) +
                  Layout(gaps[1..], Retext(toks[1..], marks[1..], newName)))
  {
    assert Retext(toks, marks, newName)[1..] == Retext(toks[1..], marks[1..], newName);
  }

  lemma MarkedStep(toks: seq<Token>, marks: seq<bool>)
    requires |toks| == |marks| && |toks| > 0
    ensures var spans, rest := Marked(toks, marks), Marked(toks[1..], marks[1..]);
      if marks[0] then |spans| > 0 && spans[0] == toks[0].pos && spans[1..] == rest else spans == rest
  {
  }

  /** Replacing the spans of the marked tokens in the text is replacing the tokens: all
      other tokens, and all white space, stay as they are. */
  lemma {:induction false} ReplaceIsRetext(gaps: seq<string>, toks: seq<Token>, marks: seq<bool>, offset: nat,
                                           oldName: string, newName: string)
    requires |gaps| == |toks| && Placed(gaps, toks, offset) && MarksName(toks, marks, oldName)
    ensures Fits(Marked(toks, marks), offset, |Layout(gaps, toks)|, |oldName|)
    ensures Replace(Layout(gaps, toks), offset, Marked(toks, marks), |oldName|, newName) ==
        Layout(gaps, Retext(toks, marks, newName))
  {
    if |toks| > 0 {
      var next := toks[0].pos + |Written(toks[0])|;
      var restText := Layout(gaps[1..], toks[1..]);
      ReplaceIsRetext(gaps[1..], toks[1..], marks[1..], next, oldName, newName);
      RetextStep(gaps, toks, marks, newName);
      MarkedStep(toks, marks);
      if marks[0] {
        ReplaceFirst(gaps[0], Written(toks[0]), restText, offset, Marked(toks, marks), newName);
      } else {
        KeepFirst(gaps[0], Written(toks[0]), restText, offset, next, Marked(toks, marks), |oldName|, newName);
      }
    }
  }

  // ----- the whole operation

  /** Which tokens are references to `oldName`. */
  function RefMarks(toks: seq<Token>, oldName: string): (marks: seq<bool>)
    ensures |marks| == |toks| && forall i :: 0 <= i < |toks| ==> marks[i] == IsRefTo(toks, i, oldName)
  {
    seq(|toks|, i => IsRefTo(toks, i, oldName))
  }

  /** The tokens of the renamed condition. */
  function RenamedTokens(toks: seq<Token>, oldName: string, newName: string): seq<Token> {
    Retext(toks, RefMarks(toks, oldName), newName)
  }

  lemma {:induction false} MarkedAppend(toks: seq<Token>, marks: seq<bool>, n: nat)
    requires |marks| == |toks| && n < |toks|
    ensures Marked(toks[..n + 1], marks[..n + 1]) ==
        Marked(toks[..n], marks[..n]) + if marks[n] then [toks[n].pos] else []
  {
    if n > 0 {
      MarkedAppend(toks[1..], marks[1..], n - 1);
      assert toks[..n + 1][1..] == toks[1..][..n] && marks[..n + 1][1..] == marks[1..][..n];
      assert toks[..n][1..] == toks[1..][..n - 1] && marks[..n][1..] == marks[1..][..n - 1];
    }
  }

  lemma {:induction false} NothingMarked(toks: seq<Token>, marks: seq<bool>)
    requires |marks| == |toks| && forall i :: 0 <= i < |marks| ==> !marks[i]
    ensures Marked(toks, marks) == []
  {
    if |toks| > 0 {
      NothingMarked(toks[1..], marks[1..]);
    }
  }

  /** The loop that collects the positions of the references. */
  method CollectSpans(toks: seq<Token>, oldName: string) returns (spans: seq<nat>)
    ensures spans == Marked(toks, RefMarks(toks, oldName))
  {
    spans := [];
    ghost var marks := RefMarks(toks, oldName);
    if |toks| < 2 {
      NothingMarked(toks, marks);
      return;
    }
    NothingMarked(toks[..2], marks[..2]);
    for i := 0 to |toks| - 2
      invariant spans == Marked(toks[..i + 2], marks[..i + 2])
    {
      MarkedAppend(toks, marks, i + 2);
      if && (toks[i].kind == FUNC || toks[i].kind == EXITCODE) && toks[i + 1].kind == LPAREN
         && IsName(toks[i + 2].kind) && toks[i + 2].value == oldName
      {
        spans := spans + [toks[i + 2].pos];
      }
    }
    assert toks[..|toks|] == toks && marks[..|toks|] == marks;
  }

  /** `sub in text` */
  predicate Contains(text: string, sub: string) {
    sub <= text || (|text| > 0 && Contains(text[1..], sub))
  }

  lemma {:induction false} ContainsAfter(before: string, text: string, sub: string)
    requires Contains(text, sub)
    ensures Contains(before + text, sub)
  {
    if |before| == 0 {
      assert before + text == text;
    } else {
      ContainsAfter(before[1..], text, sub);
      assert (before + text)[1..] == before[1..] + text;
    }
  }

  lemma {:induction false} TokenIsInText(gaps: seq<string>, toks: seq<Token>, i: nat)
    requires |gaps| == |toks| && i < |toks|
    ensures Contains(Layout(gaps, toks), Written(toks[i]))
  {
    var written, rest := Written(toks[0]), Layout(gaps[1..], toks[1..]);
    if i == 0 {
      assert written <= written + rest;
    } else {
      TokenIsInText(gaps[1..], toks[1..], i - 1);
      ContainsAfter(written, rest, Written(toks[i]));
    }
    ContainsAfter(gaps[0], written + rest, Written(toks[i]));
  }

  /** A condition that does not contain the name has no reference to it. */
  lemma NothingToRename(gaps: seq<string>, toks: seq<Token>, oldName: string, newName: string)
    requires |gaps| == |toks| && (Layout(gaps, toks) == "" || !Contains(Layout(gaps, toks), oldName))
    requires forall i :: 0 <= i < |toks| && IsName(toks[i].kind) ==> toks[i].value != ""
    ensures RenamedTokens(toks, oldName, newName) == toks && Marked(toks, RefMarks(toks, oldName)) == []
  {
    var marks := RefMarks(toks, oldName);
    forall i | 0 <= i < |toks| ensures !marks[i] {
      if marks[i] {
        TokenIsInText(gaps, toks, i);
      }
    }
    NothingMarked(toks, marks);
  }

  lemma RefMarksName(toks: seq<Token>, oldName: string)
    ensures MarksName(toks, RefMarks(toks, oldName), oldName)
  {
  }

  /** Replacing the references in the text is replacing the tokens. */
  lemma RenameSpans(gaps: seq<string>, toks: seq<Token>, oldName: string, newName: string)
    requires |gaps| == |toks| && Placed(gaps, toks, 0)
    ensures var condition, spans := Layout(gaps, toks), Marked(toks, RefMarks(toks, oldName));
      && Fits(spans, 0, |condition|, |oldName|)
      && Replace(condition, 0, spans, |oldName|, newName) == Layout(gaps, RenamedTokens(toks, oldName, newName))
  {
    RefMarksName(toks, oldName);
    ReplaceIsRetext(gaps, toks, RefMarks(toks, oldName), 0, oldName, newName);
  }

  /** The renamed tokens parse to the renamed condition, which holds of the renamed job
      exactly when the condition held before. */
  lemma RenamedConditionMeansTheSame(toks: seq<Token>, oldName: string, newName: string, before: World, after: World)
    requires Parse(toks).Some? && Renamed(before, after, oldName, newName) && !HasCaret(oldName) && !HasCaret(newName)
    requires !LooksUp(Parse(toks).value, newName) && !HasNamesake(Parse(toks).value, oldName)
    ensures var renamed := Parse(RenamedTokens(toks, oldName, newName));
      && renamed == Some(Rename(Parse(toks).value, oldName, newName))
      && Holds(renamed.value, after) == Holds(Parse(toks).value, before)
  {
    ParseRenamed(toks, RenamedTokens(toks, oldName, newName), oldName, newName);
    RenameKeepsMeaning(Parse(toks).value, oldName, newName, before, after);
  }
}
