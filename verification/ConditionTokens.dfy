/** The tokenizer of conditions (autosys/parser/condition_parser.py,
    `_tokenize_condition`).  Digits and letters are those of ASCII. */
module ConditionTokens {
  import opened ConditionRefs
  import opened Options
  import opened Permutations

  datatype Kind =
    | FUNC | VALUE | EXITCODE | LPAREN | RPAREN | AND | OR | NOT
    | EQ | NEQ | LT | GT | LE | GE | QSTRING | NUMBER | IDENT | COMMA | EOF

  /** `pos` is the character offset in the text. */
  datatype Token = Token(kind: Kind, value: string, pos: nat)

  /** `_NAME_KINDS` */
  predicate IsName(k: Kind) {
    k == IDENT || k == FUNC || k == VALUE || k == EXITCODE || k == AND || k == OR || k == NUMBER
  }

  // ----- characters

  /** `\s` */
  predicate IsSpace(c: char) {
    var n := c as int;
    || 9 <= n <= 13 || 28 <= n <= 32 || n == 0x85 || n == 0xA0 || n == 0x1680 || 0x2000 <= n <= 0x200A
    || n == 0x2028 || n == 0x2029 || n == 0x202F || n == 0x205F || n == 0x3000
  }

  predicate IsDigit(c: char) {
    '0' <= c <= '9'
  }

  predicate IsNameStart(c: char) {
    'A' <= c <= 'Z' || 'a' <= c <= 'z' || IsDigit(c) || c == '_' || c == '#'
  }

  predicate IsNameChar(c: char) {
    IsNameStart(c) || c == '.' || c == ':' || c == '%' || c == '^' || c == '-'
  }

  function UpperChar(c: char): char {
    if 'a' <= c <= 'z' then (c as int - 32) as char else c
  }

  function Upper(s: string): string {
    seq(|s|, i requires 0 <= i < |s| => UpperChar(s[i]))
  }

  /** Upper case changes the letters of ASCII that are not, and nothing else. */
  lemma UpperMeans(s: string, i: nat)
    requires i < |s|
    ensures |Upper(s)| == |s| && !('a' <= Upper(s)[i] <= 'z')
    ensures if 'a' <= s[i] <= 'z' then Upper(s)[i] as int - 'A' as int ==
        s[i] as int - 'a' as int else Upper(s)[i] == s[i]
  {
  }

  // ----- runs of characters

  /** How many characters at the front are white space. */
  function Spaces(s: string): (n: nat)
    ensures n <= |s| && (n < |s| ==> !IsSpace(s[n])) && forall i :: 0 <= i < n ==> IsSpace(s[i])
  {
    if s == "" || !IsSpace(s[0]) then 0
    else
      var n := Spaces(s[1..]);
      assert forall i :: 0 < i < 1 + n ==> s[i] == s[1..][i - 1];
      1 + n
  }

  function NameChars(s: string): (n: nat)
    ensures n <= |s| && (n < |s| ==> !IsNameChar(s[n])) && forall i :: 0 <= i < n ==> IsNameChar(s[i])
  {
    if s == "" || !IsNameChar(s[0]) then 0
    else
      var n := NameChars(s[1..]);
      assert forall i :: 0 < i < 1 + n ==> s[i] == s[1..][i - 1];
      1 + n
  }

  function Digits(s: string): (n: nat)
    ensures n <= |s| && (n < |s| ==> !IsDigit(s[n])) && forall i :: 0 <= i < n ==> IsDigit(s[i])
  {
    if s == "" || !IsDigit(s[0]) then 0
    else
      var n := Digits(s[1..]);
      assert forall i :: 0 < i < 1 + n ==> s[i] == s[1..][i - 1];
      1 + n
  }

  lemma SpacesOf(gap: string, rest: string)
    requires (forall i :: 0 <= i < |gap| ==> IsSpace(gap[i])) && (rest == "" || !IsSpace(rest[0]))
    ensures Spaces(gap + rest) == |gap|
  {
    assert forall i :: 0 <= i < |gap| ==> (gap + rest)[i] == gap[i];
    assert rest != "" ==> (gap + rest)[|gap|] == rest[0];
  }

  lemma NameCharsOf(word: string, rest: string)
    requires (forall i :: 0 <= i < |word| ==> IsNameChar(word[i])) && (rest == "" || !IsNameChar(rest[0]))
    ensures NameChars(word + rest) == |word|
  {
    assert forall i :: 0 <= i < |word| ==> (word + rest)[i] == word[i];
    assert rest != "" ==> (word + rest)[|word|] == rest[0];
  }

  /** `-?\d+(\.\d+)?` */
  predicate IsNumber(w: string) {
    var u := if w != "" && w[0] == '-' then w[1..] else w;
    var n := Digits(u);
    n > 0 && (n == |u| || (u[n] == '.' && n + 1 < |u| && Digits(u[n + 1..]) == |u| - n - 1))
  }

  /** A run of name characters that is one token: a number, or a name. */
  predicate IsWord(w: string) {
    w != "" && (forall i :: 0 <= i < |w| ==> IsNameChar(w[i])) && (IsNumber(w) || IsNameStart(w[0]))
  }

  /** The keywords of the job predicates. */
  function FuncOf(w: string): Option<Func> {
    if w == "success" || w == "s" then Some(IsSuccess)
    else if w == "failure" || w == "f" then Some(IsFailure)
    else if w == "done" || w == "d" then Some(IsDone)
    else if w == "notrunning" || w == "n" then Some(IsNotRunning)
    else if w == "terminated" || w == "t" then Some(IsTerminated)
    else if w == "activated" then Some(IsActivated)
    else None
  }

  /** A keyword is a predicate only if "(" follows. */
  function WordKind(w: string, called: bool): (k: Kind)
    ensures IsName(k) && (k == FUNC ==> FuncOf(w).Some?)
  {
    if IsNumber(w) then NUMBER
    else if Upper(w) == "AND" then AND
    else if Upper(w) == "OR" then OR
    else if called && FuncOf(w).Some? then FUNC
    else if called && (w == "value" || w == "v") then VALUE
    else if called && (w == "exitcode" || w == "e") then EXITCODE
    else IDENT
  }

  predicate Called(rest: string) {
    Spaces(rest) < |rest| && rest[Spaces(rest)] == '('
  }

  /** The length of a string literal up to its closing quote, from behind the opening one;
      a backslash takes the next character with it, within a line. */
  function Literal(s: string): (n: Option<nat>)
    ensures n.Some? ==> 0 < n.value <= |s| && s[n.value - 1] == '"'
  {
    if s == "" then None
    else if s[0] == '"' then Some(1)
    else if s[0] == '\\' then
      if |s| < 2 || s[1] == '\n' then None
      else
        var n := Literal(s[2..]);
        if n.None? then None else Some(2 + n.value)
    else
      var n := Literal(s[1..]);
      if n.None? then None else Some(1 + n.value)
  }

  lemma {:induction false} LiteralOf(s: string, more: string)
    requires Literal(s) == Some(|s|)
    ensures Literal(s + more) == Some(|s|)
  {
    var t := s + more;
    if s[0] == '"' {
    } else if s[0] == '\\' {
      assert t[2..] == s[2..] + more;
      LiteralOf(s[2..], more);
    } else {
      assert t[1..] == s[1..] + more;
      LiteralOf(s[1..], more);
    }
  }

  lemma {:induction false} LiteralIsLocal(s: string)
    requires Literal(s).Some?
    ensures Literal(s[..Literal(s).value]) == Literal(s)
  {
    var n := Literal(s).value;
    if s[0] == '"' {
    } else if s[0] == '\\' {
      LiteralIsLocal(s[2..]);
      assert s[..n][2..] == s[2..][..n - 2];
    } else {
      LiteralIsLocal(s[1..]);
      assert s[..n][1..] == s[1..][..n - 1];
    }
  }

  // ----- tokens

  /** The token at the front of a text: its kind, its value, and its length in the text. */
  datatype Lexeme = Lexeme(kind: Kind, value: string, length: nat)

  function Symbol(kind: Kind, s: string, length: nat): Lexeme
    requires length <= |s|
  {
    Lexeme(kind, s[..length], length)
  }

  function Word(s: string): Option<Lexeme>
    requires s != "" && IsNameChar(s[0])
  {
    var w := s[..NameChars(s)];
    if IsNumber(w) || IsNameStart(w[0]) then Some(Lexeme(WordKind(w, Called(s[|w|..])), w, |w|)) else None
  }

  function Operator(s: string): Option<Lexeme>
    requires s != ""
  {
    var next := if |s| > 1 then s[1] else ' ';
    if s[0] == '!' then Some(if next == '=' then Symbol(NEQ, s, 2) else Symbol(NOT, s, 1))
    else if s[0] == '<' then
      Some(if next == '>' then Symbol(NEQ, s, 2) else if next == '=' then Symbol(LE, s, 2) else Symbol(LT, s, 1))
    else if s[0] == '>' then Some(if next == '=' then Symbol(GE, s, 2) else Symbol(GT, s, 1))
    else if s[0] == '=' then Some(Symbol(EQ, s, 1))
    else if s[0] == '&' then Some(Symbol(AND, s, 1))
    else if s[0] == '|' then Some(Symbol(OR, s, 1))
    else if s[0] == '(' then Some(Symbol(LPAREN, s, 1))
    else if s[0] == ')' then Some(Symbol(RPAREN, s, 1))
    else if s[0] == ',' then Some(Symbol(COMMA, s, 1))
    else None
  }

  function Quoted(s: string): Option<Lexeme>
    requires s != "" && s[0] == '"'
  {
    var n := Literal(s[1..]);
    if n.None? then None else Some(Lexeme(QSTRING, s[1..n.value], 1 + n.value))
  }

  /** How a token is written; string literals lose their quotes in the token. */
  function WrittenAs(kind: Kind, value: string): string {
    if kind == QSTRING then "\"" + value + "\"" else value
  }

  /** What can stand for a name: a word, or one of the operators that are taken for one. */
  predicate IsLexeme(w: string) {
    IsWord(w) || w == "&" || w == "|"
  }

  /** `_COND_RE.match`, behind the white space. */
  function First(s: string): (l: Option<Lexeme>)
    ensures l.Some? ==> 0 < l.value.length <= |s| && l.value.kind != EOF
  {
    if s == "" then None else if s[0] == '"' then Quoted(s) else if IsNameChar(s[0]) then Word(s) else Operator(s)
  }

  /** What is known of a token at the front of `s`. */
  ghost predicate LexemeOk(s: string, l: Lexeme) {
    && 0 < l.length <= |s| && l.kind != EOF && s[..l.length] == WrittenAs(l.kind, l.value) && !IsSpace(s[0])
    && (IsName(l.kind) ==> IsLexeme(l.value)) && (l.kind == FUNC ==> FuncOf(l.value).Some?)
  }

  lemma FirstFacts(s: string)
    requires First(s).Some?
    ensures LexemeOk(s, First(s).value)
  {
    if s[0] == '"' {
      QuotedFacts(s);
    } else if !IsNameChar(s[0]) {
      OperatorFacts(s);
    }
  }

  lemma QuotedFacts(s: string)
    requires s != "" && s[0] == '"' && Quoted(s).Some?
    ensures var l := Quoted(s).value; l.kind == QSTRING && s[..l.length] == "\"" + l.value + "\""
  {
    var n := Literal(s[1..]).value;
    assert s[n] == s[1..][n - 1];
  }

  lemma OperatorFacts(s: string)
    requires s != "" && Operator(s).Some?
    ensures var l := Operator(s).value;
      && s[..l.length] == l.value && l.kind != QSTRING && l.kind != FUNC
      && (IsName(l.kind) ==> l.value == "&" || l.value == "|")
  {
  }

  // ----- which token it is

  /** `s` starts with an operator of this kind, `length` characters long. */
  predicate StartsWith(s: string, kind: Kind, length: nat) {
    length <= |s| && First(s) == Some(Lexeme(kind, s[..length], length))
  }

  /** The operators of one character. */
  lemma SymbolKinds(s: string)
    requires s != ""
    ensures s[0] == '&' ==> StartsWith(s, AND, 1)
    ensures s[0] == '|' ==> StartsWith(s, OR, 1)
    ensures s[0] == '(' ==> StartsWith(s, LPAREN, 1)
    ensures s[0] == ')' ==> StartsWith(s, RPAREN, 1)
    ensures s[0] == ',' ==> StartsWith(s, COMMA, 1)
    ensures s[0] == '=' ==> StartsWith(s, EQ, 1)
  {
  }

  /** The other comparisons and the negation: the longer operator comes first. */
  lemma ComparisonKinds(s: string, next: char)
    requires s != "" && next == if |s| > 1 then s[1] else ' '
    ensures s[0] == '!' && next == '=' ==> StartsWith(s, NEQ, 2)
    ensures s[0] == '!' && next != '=' ==> StartsWith(s, NOT, 1)
    ensures s[0] == '<' && next == '>' ==> StartsWith(s, NEQ, 2)
    ensures s[0] == '<' && next == '=' ==> StartsWith(s, LE, 2)
    ensures s[0] == '<' && next != '=' && next != '>' ==> StartsWith(s, LT, 1)
    ensures s[0] == '>' && next == '=' ==> StartsWith(s, GE, 2)
    ensures s[0] == '>' && next != '=' ==> StartsWith(s, GT, 1)
  {
  }

  /** A word up to the next character that is none of a name: a number; "and" or "or", in
      whatever case; a keyword only where "(" follows; and a name otherwise. */
  lemma WordKinds(w: string, rest: string)
    requires IsWord(w) && (rest == "" || !IsNameChar(rest[0]))
    ensures First(w + rest).Some?
    ensures var l := First(w + rest).value;
      && l.value == w && l.length == |w|
      && (l.kind == NUMBER <==> IsNumber(w))
      && (l.kind == AND <==> !IsNumber(w) && Upper(w) == "AND")
      && (l.kind == OR <==> !IsNumber(w) && Upper(w) == "OR")
      && (l.kind.FUNC? || l.kind.VALUE? || l.kind.EXITCODE? ==> Called(rest))
      && (l.kind == IDENT ==> !IsNumber(w) && (Called(rest) ==> FuncOf(w) == None && w != "value" && w != "exitcode"))
  {
    NameCharsOf(w, rest);
    assert (w + rest)[..|w|] == w && (w + rest)[|w|..] == rest && (w + rest)[0] == w[0];
  }

  /** The keywords of each predicate. */
  lemma KeywordsOf(w: string)
    ensures FuncOf(w) == Some(IsSuccess) <==> w == "success" || w == "s"
    ensures FuncOf(w) == Some(IsFailure) <==> w == "failure" || w == "f"
    ensures FuncOf(w) == Some(IsDone) <==> w == "done" || w == "d"
    ensures FuncOf(w) == Some(IsNotRunning) <==> w == "notrunning" || w == "n"
    ensures FuncOf(w) == Some(IsTerminated) <==> w == "terminated" || w == "t"
    ensures FuncOf(w) == Some(IsActivated) <==> w == "activated"
  {
  }

  // ----- what a token depends on

  function Head(s: string): Option<char> {
    if s == "" then None else Some(s[0])
  }

  /** Two texts that a token in front of them cannot tell apart. */
  predicate Alike(s: string, t: string) {
    Head(s) == Head(t) && Called(s) == Called(t)
  }

  /** A token depends on its own characters and on what `Alike` says of the rest; an
      opening parenthesis on nothing but itself. */
  lemma FirstIsLocal(lex: string, rest: string, more: string)
    requires lex != "" && First(lex + rest).Some? && First(lex + rest).value.length == |lex|
    requires First(lex + rest).value.kind == LPAREN || Alike(rest, more)
    ensures First(lex + more) == First(lex + rest)
  {
    var s, t := lex + rest, lex + more;
    assert s[0] == lex[0] == t[0];
    if lex[0] == '"' {
      QuotedIsLocal(lex, rest, more);
    } else if IsNameChar(lex[0]) {
      WordIsLocal(lex, rest, more);
    } else {
      OperatorIsLocal(lex, rest, more);
    }
  }

  lemma QuotedIsLocal(lex: string, rest: string, more: string)
    requires lex != "" && lex[0] == '"' && Quoted(lex + rest).Some? && Quoted(lex + rest).value.length == |lex|
    ensures Quoted(lex + more) == Quoted(lex + rest)
  {
    var s, t := lex + rest, lex + more;
    assert s[1..] == lex[1..] + rest && t[1..] == lex[1..] + more;
    LiteralIsLocal(s[1..]);
    assert s[1..][..|lex| - 1] == lex[1..];
    LiteralOf(lex[1..], more);
    assert s[1..|lex| - 1] == t[1..|lex| - 1];
  }

  lemma WordIsLocal(lex: string, rest: string, more: string)
    requires lex != "" && IsNameChar(lex[0]) && Word(lex + rest).Some? && Word(lex + rest).value.length == |lex|
    requires Alike(rest, more)
    ensures Word(lex + more) == Word(lex + rest)
  {
    var s, t := lex + rest, lex + more;
    assert forall i :: 0 <= i < |lex| ==> s[i] == lex[i];
    assert rest != "" ==> s[|lex|] == rest[0];
    NameCharsOf(lex, more);
    assert s[..|lex|] == lex == t[..|lex|] && s[|lex|..] == rest && t[|lex|..] == more;
  }

  lemma OperatorIsLocal(lex: string, rest: string, more: string)
    requires lex != "" && Operator(lex + rest).Some? && Operator(lex + rest).value.length == |lex|
    requires Operator(lex + rest).value.kind == LPAREN || Head(rest) == Head(more)
    ensures Operator(lex + more) == Operator(lex + rest)
  {
    var s, t := lex + rest, lex + more;
    assert s[0] == t[0] && s[..|lex|] == lex == t[..|lex|];
    assert |lex| > 1 ==> s[1] == t[1] == lex[1];
    assert |lex| == 1 && rest != "" ==> s[1] == rest[0];
    assert |lex| == 1 && more != "" ==> t[1] == more[0];
  }

  /** A name read as one token is read as one token wherever no name character follows. */
  lemma FirstOfName(name: string, rest: string)
    requires IsLexeme(name) && (rest == "" || !IsNameChar(rest[0]))
    ensures First(name + rest).Some?
    ensures var l := First(name + rest).value; IsName(l.kind) && l.value == name && l.length == |name|
    ensures name != "" && !IsSpace(name[0]) && name[0] != '('
  {
    var s := name + rest;
    assert s[0] == name[0] && s[..|name|] == name;
    if IsWord(name) {
      NameCharsOf(name, rest);
    }
  }

  // ----- pieces: white space and a token

  /** What the tokenizer finds at the front of a text: the end, something it cannot read,
      or `gap` characters of white space and a token. */
  datatype Piece = End | Unreadable | Piece(gap: nat, kind: Kind, value: string, length: nat)

  function NextPiece(s: string): Piece {
    var n := Spaces(s);
    if n == |s| then End
    else
      var l := First(s[n..]);
      if l.None? then Unreadable else Piece(n, l.value.kind, l.value.value, l.value.length)
  }

  type Reader = string -> Piece

  /** The white space in front of each token, and the tokens. */
  datatype Lexed = Lexed(gaps: seq<string>, toks: seq<Token>)

  function Cons(gap: string, t: Token, rest: Lexed): Lexed {
    Lexed([gap] + rest.gaps, [t] + rest.toks)
  }

  /** The loop of `_tokenize_condition` around the pattern. */
  function TokenizeBy(next: Reader, s: string, offset: nat): (x: Option<Lexed>)
    ensures x.Some? ==> |x.value.gaps| == |x.value.toks| > 0
    decreases |s|
  {
    match next(s)
    case End => Some(Lexed([s], [Token(EOF, "", offset + |s|)]))
    case Unreadable => None
    case Piece(n, kind, value, k) =>
      if k == 0 || n + k > |s| then None
      else
        var rest := TokenizeBy(next, s[n + k..], offset + n + k);
        if rest.None? then None else Some(Cons(s[..n], Token(kind, value, offset + n), rest.value))
  }

  /** `_tokenize_condition`: None where the program raises a syntax error. */
  function Tokenize(s: string): (x: Option<Lexed>)
    ensures x.Some? ==> |x.value.gaps| == |x.value.toks| > 0
  {
    TokenizeBy(NextPiece, s, 0)
  }

  function Written(t: Token): string {
    WrittenAs(t.kind, t.value)
  }

  /** The text: white space, token, white space, token, and so on. */
  function Layout(gaps: seq<string>, toks: seq<Token>): string
    requires |gaps| == |toks|
  {
    if |toks| == 0 then "" else gaps[0] + (Written(toks[0]) + Layout(gaps[1..], toks[1..]))
  }

  /** The tokens carry their positions in the text. */
  predicate Placed(gaps: seq<string>, toks: seq<Token>, offset: nat)
    requires |gaps| == |toks|
  {
    |toks| == 0 ||
    (toks[0].pos == offset + |gaps[0]| && Placed(gaps[1..], toks[1..], toks[0].pos + |Written(toks[0])|))
  }

  /** The text is cut into tokens, each of which is `ok`, and white space. */
  ghost predicate IsCut(s: string, offset: nat, x: Lexed, ok: (Kind, string) -> bool) {
    && |x.gaps| == |x.toks| && s == Layout(x.gaps, x.toks) && Placed(x.gaps, x.toks, offset)
    && forall i :: 0 <= i < |x.toks| ==> x.toks[i].kind == EOF || ok(x.toks[i].kind, x.toks[i].value)
  }

  lemma ConsIsCut(gap: string, t: Token, tail: string, rest: Lexed, offset: nat, ok: (Kind, string) -> bool)
    requires t.pos == offset + |gap| && ok(t.kind, t.value) && IsCut(tail, t.pos + |Written(t)|, rest, ok)
    ensures IsCut(gap + (Written(t) + tail), offset, Cons(gap, t, rest), ok)
  {
    var x := Cons(gap, t, rest);
    assert x.gaps[1..] == rest.gaps && x.toks[1..] == rest.toks;
    forall i | 0 <= i < |x.toks| ensures x.toks[i].kind == EOF || ok(x.toks[i].kind, x.toks[i].value) {
      assert i > 0 ==> x.toks[i] == rest.toks[i - 1];
    }
  }

  lemma EndIsCut(s: string, offset: nat, ok: (Kind, string) -> bool)
    ensures IsCut(s, offset, Lexed([s], [Token(EOF, "", offset + |s|)]), ok)
  {
    var t := Token(EOF, "", offset + |s|);
    var gaps, toks := [s], [t];
    assert |gaps[1..]| == 0 && |toks[1..]| == 0;
    assert Written(t) == "" && Layout(gaps[1..], toks[1..]) == "";
    assert s + ("" + "") == s;
    assert Placed(gaps[1..], toks[1..], t.pos + |Written(t)|);
  }

  ghost predicate ReadsAt(next: Reader, ok: (Kind, string) -> bool, s: string) {
    var p := next(s);
    p.Piece? ==>
      && p.length > 0 && p.gap + p.length <= |s| && p.kind != EOF && ok(p.kind, p.value)
      && s[p.gap..p.gap + p.length] == WrittenAs(p.kind, p.value)
  }

  ghost predicate IsReader(next: Reader, ok: (Kind, string) -> bool) {
    forall s :: ReadsAt(next, ok, s)
  }

  /** The token at the front of a text that was cut. */
  lemma FirstOfCut(next: Reader, ok: (Kind, string) -> bool, s: string, offset: nat, x: Lexed)
    returns (gap: string, t: Token, tail: string, rest: Lexed)
    requires IsReader(next, ok) && TokenizeBy(next, s, offset) == Some(x) && next(s) != End
    ensures t.pos == offset + |gap| && ok(t.kind, t.value) && t.kind != EOF && |Written(t)| > 0
    ensures s == gap + (Written(t) + tail) && next(s) == Piece(|gap|, t.kind, t.value, |Written(t)|)
    ensures TokenizeBy(next, tail, t.pos + |Written(t)|) == Some(rest) && x == Cons(gap, t, rest)
  {
    var p := next(s);
    rest := Unfolded(next, s, offset, x);
    assert ReadsAt(next, ok, s);
    gap, t, tail := s[..p.gap], Token(p.kind, p.value, offset + p.gap), s[p.gap + p.length..];
    CutInThree(s, p.gap, p.length);
    assert t.pos + |Written(t)| == offset + p.gap + p.length;
  }

  /** One round of the loop. */
  lemma Unfolded(next: Reader, s: string, offset: nat, x: Lexed) returns (rest: Lexed)
    requires TokenizeBy(next, s, offset) == Some(x) && next(s) != End
    ensures next(s).Piece?
    ensures var n, k := next(s).gap, next(s).length;
      && 0 < k && n + k <= |s| && TokenizeBy(next, s[n + k..], offset + n + k) == Some(rest)
      && x == Cons(s[..n], Token(next(s).kind, next(s).value, offset + n), rest)
  {
    rest := TokenizeBy(next, s[next(s).gap + next(s).length..], offset + next(s).gap + next(s).length).value;
  }

  lemma CutInThree(s: string, n: nat, k: nat)
    requires n + k <= |s|
    ensures s == s[..n] + (s[n..n + k] + s[n + k..])
  {
  }

  lemma {:induction false} TokenizeByIsCut(next: Reader, ok: (Kind, string) -> bool, s: string, offset: nat, x: Lexed)
    requires IsReader(next, ok) && TokenizeBy(next, s, offset) == Some(x)
    ensures IsCut(s, offset, x, ok)
    decreases |s|
  {
    if next(s) == End {
      EndIsCut(s, offset, ok);
    } else {
      var gap, t, tail, rest := FirstOfCut(next, ok, s, offset, x);
      TokenizeByIsCut(next, ok, tail, t.pos + |Written(t)|, rest);
      ConsIsCut(gap, t, tail, rest, offset, ok);
    }
  }

  /** Putting white space and a token in front of a text. */
  lemma TokenizeCons(next: Reader, gap: string, name: string, kind: Kind, value: string, tail: string, offset: nat)
    requires name != "" && next(gap + (name + tail)) == Piece(|gap|, kind, value, |name|)
    requires TokenizeBy(next, tail, offset + |gap| + |name|).Some?
    ensures TokenizeBy(next, gap + (name + tail), offset)
         == Some(Cons(gap, Token(kind, value, offset + |gap|), TokenizeBy(next, tail, offset + |gap| + |name|).value))
  {
    var s := gap + (name + tail);
    Slices(gap, name, tail);
  }

  // ----- what the pieces of a condition are

  /** Every token that can stand for a name is one, and keywords are keywords. */
  predicate WellFormed(kind: Kind, value: string) {
    (IsName(kind) ==> IsLexeme(value)) && (kind == FUNC ==> FuncOf(value).Some?)
  }

  lemma NextPieceReads()
    ensures IsReader(NextPiece, WellFormed)
  {
    forall s ensures ReadsAt(NextPiece, WellFormed, s) {
      PieceFacts(s);
    }
  }

  lemma PieceFacts(s: string)
    ensures ReadsAt(NextPiece, WellFormed, s)
  {
    var p := NextPiece(s);
    if p.Piece? {
      FirstFacts(s[p.gap..]);
      assert s[p.gap..][..p.length] == s[p.gap..p.gap + p.length];
    }
  }

  /** The tokens with their white space are the text. */
  lemma TokenizeIsCut(s: string)
    requires Tokenize(s).Some?
    ensures IsCut(s, 0, Tokenize(s).value, WellFormed)
  {
    NextPieceReads();
    TokenizeByIsCut(NextPiece, WellFormed, s, 0, Tokenize(s).value);
  }
}
