/** The recursive-descent condition parser over tokens
    (autosys/parser/condition_parser.py, `_CondParser`), and what renaming a job in the
    token list does to its result. */
module ConditionParser {
  import opened ConditionRefs
  import opened ConditionTokens
  import opened Options

  predicate IsComparison(k: Kind) {
    k == EQ || k == NEQ || k == LT || k == GT || k == LE || k == GE
  }

  function CmpOf(k: Kind): Cmp
    requires IsComparison(k)
  {
    match k
    case EQ => Equal
    case NEQ => Differs
    case LT => Less
    case GT => Greater
    case LE => AtMost
    case GE => AtLeast
  }

  // ----- numbers

  function DigitValue(c: char): nat {
    if IsDigit(c) then c as int - '0' as int else 0
  }

  function Natural(digits: string): nat {
    if digits == "" then 0 else 10 * Natural(digits[..|digits| - 1]) + DigitValue(digits[|digits| - 1])
  }

  function Power10(k: nat): (p: nat)
    ensures p > 0
  {
    if k == 0 then 1 else 10 * Power10(k - 1)
  }

  function Unsigned(text: string): real {
    var n := Digits(text);
    if n + 1 >= |text| then Natural(text[..n]) as real
    else Natural(text[..n]) as real + Fraction(text[n + 1..])
  }

  /** The value of the digits behind a point. */
  function Fraction(places: string): real {
    Natural(places) as real / Power10(|places|) as real
  }

  /** `float(text)` for the text of a NUMBER, without rounding. */
  function Decimal(text: string): real {
    if text != "" && text[0] == '-' then -Unsigned(text[1..]) else Unsigned(text)
  }

  /** `int(x)` */
  function Truncate(x: real): int {
    if x >= 0.0 then x.Floor else -((-x).Floor)
  }

  /** A number in decimal notation. */
  function Shown(n: nat): string {
    (if n < 10 then "" else Shown(n / 10)) + [(n % 10 + '0' as int) as char]
  }

  lemma {:induction false} ShownIsDigits(n: nat)
    ensures Shown(n) != "" && Digits(Shown(n)) == |Shown(n)| && Natural(Shown(n)) == n
  {
    var rest, last := if n < 10 then "" else Shown(n / 10), (n % 10 + '0' as int) as char;
    if n >= 10 {
      ShownIsDigits(n / 10);
    }
    AllDigits(rest, last);
    assert Shown(n)[..|rest|] == rest;
  }

  lemma AllDigits(rest: string, last: char)
    requires Digits(rest) == |rest| && IsDigit(last)
    ensures Digits(rest + [last]) == |rest| + 1
  {
    var s := rest + [last];
    assert forall i :: 0 <= i < |rest| ==> s[i] == rest[i];
  }

  /** The decimal notation of a number is read as that number, with its sign, and digits
      behind a point as that many tenths, hundredths and so on. */
  lemma DecimalOf(n: nat, places: string)
    requires places != "" && Digits(places) == |places|
    ensures Decimal(Shown(n)) == n as real && Decimal("-" + Shown(n)) == -(n as real)
    ensures Decimal(Shown(n) + ("." + places)) == n as real + Fraction(places)
  {
    var digits := Shown(n);
    ShownIsDigits(n);
    WholeNumber(digits);
    Negative(digits);
    PointBehind(digits, places);
    NotNegative(digits);
    NotNegative(digits + ("." + places));
  }

  lemma WholeNumber(digits: string)
    requires digits != "" && Digits(digits) == |digits|
    ensures Unsigned(digits) == Natural(digits) as real
  {
    assert digits[..|digits|] == digits;
  }

  lemma Negative(digits: string)
    ensures Decimal("-" + digits) == -Unsigned(digits)
  {
    assert ("-" + digits)[1..] == digits;
  }

  lemma NotNegative(text: string)
    requires text != "" && Digits(text) > 0
    ensures Decimal(text) == Unsigned(text)
  {
    assert IsDigit(text[0]);
  }

  lemma PointBehind(digits: string, places: string)
    requires digits != "" && Digits(digits) == |digits|
    ensures Digits(digits + ("." + places)) == |digits|
    ensures places != "" ==> Unsigned(digits + ("." + places)) == Natural(digits) as real + Fraction(places)
  {
    var t := digits + ("." + places);
    assert forall i :: 0 <= i < |digits| ==> t[i] == digits[i];
    assert t[|digits|] == '.';
    if places != "" {
      Pointed(t, digits, places);
    }
  }

  lemma Pointed(t: string, digits: string, places: string)
    requires t == digits + ("." + places) && places != "" && Digits(t) == |digits|
    ensures Unsigned(t) == Natural(digits) as real + Fraction(places)
  {
    assert t[..|digits|] == digits && t[|digits| + 1..] == places;
  }

  lemma {:induction false} NaturalFront(c: char, places: string)
    requires IsDigit(c)
    ensures Natural([c] + places) == (c as int - '0' as int) * Power10(|places|) + Natural(places)
  {
    var s := [c] + places;
    if places == "" {
      assert s[..0] == "" && s[0] == c;
    } else {
      var init, last := places[..|places| - 1], places[|places| - 1];
      NaturalFront(c, init);
      assert s[..|s| - 1] == [c] + init && s[|s| - 1] == last;
      Tenfold(c as int - '0' as int, Power10(|init|), Natural(init));
    }
  }

  lemma Tenfold(d: int, p: int, n: int)
    ensures 10 * (d * p + n) == d * (10 * p) + 10 * n
  {
  }

  /** Behind the point each digit counts a tenth of the one before it. */
  lemma TenthsOf(c: char, places: string)
    requires IsDigit(c)
    ensures Fraction("") == 0.0
    ensures 10.0 * Fraction([c] + places) == (c as int - '0' as int) as real + Fraction(places)
  {
    NaturalFront(c, places);
    PowerNext([c] + places, |places|);
    ShiftDigits(c as int - '0' as int, Power10(|places|), Natural(places), Natural([c] + places), Power10(|[c] +
        places|));
  }

  lemma PowerNext(text: string, k: nat)
    requires |text| == k + 1
    ensures Power10(|text|) == 10 * Power10(k)
  {
  }

  lemma ShiftDigits(d: nat, p: nat, n: nat, x: nat, q: nat)
    requires p > 0 && q == 10 * p && x == d * p + n
    ensures 10.0 * (x as real / q as real) == d as real + n as real / p as real
  {
    RealProduct(d, p);
    Shift(d as real, p as real, n as real);
  }

  lemma {:induction false} RealProduct(d: nat, p: nat)
    ensures (d * p) as real == d as real * p as real
  {
    if d > 0 {
      RealProduct(d - 1, p);
      assert d * p == (d - 1) * p + p;
      Distributes(d as real, p as real);
    }
  }

  lemma Distributes(d: real, p: real)
    ensures d * p == (d - 1.0) * p + p
  {
  }

  lemma Shift(d: real, p: real, n: real)
    requires p > 0.0
    ensures 10.0 * ((d * p + n) / (10.0 * p)) == d + n / p
  {
    var q := n / p;
    assert n == q * p;
    assert d * p + n == (d + q) * p;
    assert 10.0 * p != 0.0;
    var r := (d * p + n) / (10.0 * p);
    assert r * (10.0 * p) == (d + q) * p;
    assert (10.0 * r - (d + q)) * p == 0.0;
  }

  /** `int(x)` drops the fraction, towards zero. */
  lemma TruncateMeans(x: real)
    ensures x >= 0.0 ==> 0.0 <= Truncate(x) as real <= x < Truncate(x) as real + 1.0
    ensures x <= 0.0 ==> Truncate(x) as real - 1.0 < x <= Truncate(x) as real <= 0.0
  {
  }

  /** A node and the position after it, or a syntax error. */
  datatype Parsed = Parsed(node: Node, next: nat) | SyntaxError

  /** `_peek().kind`; the list ends with an EOF that is never consumed. */
  function KindAt(toks: seq<Token>, p: nat): Kind {
    if p < |toks| then toks[p].kind else EOF
  }

  function ParseOr(toks: seq<Token>, p: nat): (r: Parsed)
    ensures r.Parsed? ==> p < r.next <= |toks| && Ended(toks, r.next)
    decreases |toks| - p, 5
  {
    var left := ParseAnd(toks, p);
    if left.SyntaxError? then SyntaxError else OrTail(toks, left.node, left.next)
  }

  /** The last token of a complete condition is not an opening parenthesis. */
  predicate Ended(toks: seq<Token>, p: nat) {
    0 < p <= |toks| && toks[p - 1].kind != LPAREN
  }

  function OrTail(toks: seq<Token>, left: Node, p: nat): (r: Parsed)
    requires Ended(toks, p)
    ensures r.Parsed? ==> p <= r.next <= |toks| && Ended(toks, r.next)
    decreases |toks| - p, 4
  {
    if KindAt(toks, p) == OR then
      var right := ParseAnd(toks, p + 1);
      if right.SyntaxError? then SyntaxError else OrTail(toks, OrNode(left, right.node), right.next)
    else Parsed(left, p)
  }

  function ParseAnd(toks: seq<Token>, p: nat): (r: Parsed)
    ensures r.Parsed? ==> p < r.next <= |toks| && Ended(toks, r.next)
    decreases |toks| - p, 3
  {
    var left := ParsePrimary(toks, p);
    if left.SyntaxError? then SyntaxError else AndTail(toks, left.node, left.next)
  }

  function AndTail(toks: seq<Token>, left: Node, p: nat): (r: Parsed)
    requires Ended(toks, p)
    ensures r.Parsed? ==> p <= r.next <= |toks| && Ended(toks, r.next)
    decreases |toks| - p, 2
  {
    if KindAt(toks, p) == AND then
      var right := ParsePrimary(toks, p + 1);
      if right.SyntaxError? then SyntaxError else AndTail(toks, AndNode(left, right.node), right.next)
    else Parsed(left, p)
  }

  function ParsePrimary(toks: seq<Token>, p: nat): (r: Parsed)
    ensures r.Parsed? ==> p < r.next <= |toks| && Ended(toks, r.next)
    decreases |toks| - p, 1
  {
    match KindAt(toks, p)
    case LPAREN => ParseGrouped(toks, p)
    case FUNC => ParseJobFunc(toks, p)
    case VALUE => ParseValueCond(toks, p)
    case EXITCODE => ParseExitCode(toks, p)
    case NOT => ParseNot(toks, p)
    case _ => SyntaxError
  }

  /** `'(' condition ')'` */
  function ParseGrouped(toks: seq<Token>, p: nat): (r: Parsed)
    requires KindAt(toks, p) == LPAREN
    ensures r.Parsed? ==> p < r.next <= |toks| && Ended(toks, r.next)
    decreases |toks| - p, 0
  {
    var inner := ParseOr(toks, p + 1);
    Grouped(inner, if inner.Parsed? then KindAt(toks, inner.next) else EOF)
  }

  function Grouped(inner: Parsed, after: Kind): Parsed {
    if inner.SyntaxError? || after != RPAREN then SyntaxError else Parsed(inner.node, inner.next + 1)
  }

  function ParseNot(toks: seq<Token>, p: nat): (r: Parsed)
    requires KindAt(toks, p) == NOT
    ensures r.Parsed? ==> p < r.next <= |toks| && Ended(toks, r.next)
    decreases |toks| - p, 0
  {
    Negated(ParsePrimary(toks, p + 1))
  }

  function Negated(operand: Parsed): Parsed {
    if operand.SyntaxError? then SyntaxError else Parsed(NotNode(operand.node), operand.next)
  }

  /** `func_name '(' job_ref [',' NUMBER] ')'`; the tokenizer makes FUNC tokens of the
      function names only. */
  function ParseJobFunc(toks: seq<Token>, p: nat): (r: Parsed)
    requires KindAt(toks, p) == FUNC
    ensures r.Parsed? ==> p < r.next <= |toks| && Ended(toks, r.next)
  {
    if KindAt(toks, p + 1) != LPAREN || !IsName(KindAt(toks, p + 2)) || FuncOf(toks[p].value) == None then SyntaxError
    else
      var func, ref := FuncOf(toks[p].value).value, toks[p + 2].value;
      if KindAt(toks, p + 3) == RPAREN then Parsed(JobCond(func, ref, None), p + 4)
      else if KindAt(toks, p + 3) == COMMA && KindAt(toks, p + 4) == NUMBER && KindAt(toks, p + 5) == RPAREN then
        Parsed(JobCond(func, ref, Some(Decimal(toks[p + 4].value))), p + 6)
      else SyntaxError
  }

  /** `'value' '(' global_name ')' comparison literal` */
  function ParseValueCond(toks: seq<Token>, p: nat): (r: Parsed)
    requires KindAt(toks, p) == VALUE
    ensures r.Parsed? ==> p < r.next <= |toks| && Ended(toks, r.next)
  {
    if || KindAt(toks, p + 1) != LPAREN || !IsName(KindAt(toks, p + 2)) || KindAt(toks, p + 3) != RPAREN
       || !IsComparison(KindAt(toks, p + 4))
       || (KindAt(toks, p + 5) != QSTRING && !IsName(KindAt(toks, p + 5)))
    then SyntaxError
    else Parsed(ValueCond(Upper(toks[p + 2].value), CmpOf(KindAt(toks, p + 4)), toks[p + 5].value), p + 6)
  }

  /** `'exitcode' '(' job_name ')' comparison NUMBER` */
  function ParseExitCode(toks: seq<Token>, p: nat): (r: Parsed)
    requires KindAt(toks, p) == EXITCODE
    ensures r.Parsed? ==> p < r.next <= |toks| && Ended(toks, r.next)
  {
    if || KindAt(toks, p + 1) != LPAREN || !IsName(KindAt(toks, p + 2)) || KindAt(toks, p + 3) != RPAREN
       || !IsComparison(KindAt(toks, p + 4)) || KindAt(toks, p + 5) != NUMBER
    then SyntaxError
    else Parsed(ExitCodeCond(toks[p + 2].value, CmpOf(KindAt(toks, p + 4)), Truncate(Decimal(toks[p + 5].value))), p + 6)
  }

  /** `parse`: the whole list up to EOF. */
  function Parse(toks: seq<Token>): Option<Node> {
    var r := ParseOr(toks, 0);
    if r.SyntaxError? || KindAt(toks, r.next) != EOF then None else Some(r.node)
  }

  // ----- renaming in the token list

  /** Token `i` is the name in a job predicate (`rename_job_refs` looks at these). */
  predicate IsRefAt(toks: seq<Token>, i: int) {
    && 2 <= i < |toks| && (toks[i - 2].kind == FUNC || toks[i - 2].kind == EXITCODE)
    && toks[i - 1].kind == LPAREN && IsName(toks[i].kind)
  }

  predicate IsRefTo(toks: seq<Token>, i: int, name: string) {
    IsRefAt(toks, i) && toks[i].value == name
  }

  /** `renamed` is `toks` with every reference to `oldName` made a name token
      `newName`, of whatever kind the tokenizer gives it. */
  ghost predicate TokensRenamed(toks: seq<Token>, renamed: seq<Token>, oldName: string, newName: string) {
    && |renamed| == |toks|
    && forall i :: 0 <= i < |toks| ==>
         if IsRefTo(toks, i, oldName) then IsName(renamed[i].kind) && renamed[i].value == newName
         else renamed[i].kind == toks[i].kind && renamed[i].value == toks[i].value
  }

  function RenameParsed(r: Parsed, oldName: string, newName: string): Parsed {
    match r
    case SyntaxError => SyntaxError
    case Parsed(n, next) => Parsed(Rename(n, oldName, newName), next)
  }

  /** A place where a condition term can start: not the name inside a predicate, nor the
      parenthesis that opens it. */
  predicate TermStart(toks: seq<Token>, p: nat) {
    p == 0 || p > |toks|
    || toks[p - 1].kind == AND || toks[p - 1].kind == OR || toks[p - 1].kind == NOT
    || (toks[p - 1].kind == LPAREN && (p < 2 || (toks[p - 2].kind != FUNC && toks[p - 2].kind != EXITCODE)))
  }

  /** Token `p` of the renamed list, in terms of token `p` of the list. */
  predicate SameAt(toks: seq<Token>, renamed: seq<Token>, oldName: string, newName: string, p: nat) {
    && (p < |toks| <==> p < |renamed|)
    && (!IsRefAt(toks, p) ==> KindAt(renamed, p) == KindAt(toks, p) && (p < |toks| ==>
        renamed[p].value == toks[p].value))
    && (IsRefAt(toks, p) ==> IsName(KindAt(renamed, p)) && renamed[p].value == RenameRef(toks[p].value, oldName, newName))
  }

  lemma SameKindAt(toks: seq<Token>, renamed: seq<Token>, oldName: string, newName: string, p: nat)
    requires TokensRenamed(toks, renamed, oldName, newName)
    ensures SameAt(toks, renamed, oldName, newName, p)
  {
  }

  /** The six tokens a predicate can take. */
  predicate SameSix(toks: seq<Token>, renamed: seq<Token>, oldName: string, newName: string, p: nat) {
    && SameAt(toks, renamed, oldName, newName, p) && SameAt(toks, renamed, oldName, newName, p + 1)
    && SameAt(toks, renamed, oldName, newName, p + 2) && SameAt(toks, renamed, oldName, newName, p + 3)
    && SameAt(toks, renamed, oldName, newName, p + 4) && SameAt(toks, renamed, oldName, newName, p + 5)
  }

  lemma SameSixAt(toks: seq<Token>, renamed: seq<Token>, oldName: string, newName: string, p: nat)
    requires TokensRenamed(toks, renamed, oldName, newName)
    ensures SameSix(toks, renamed, oldName, newName, p)
  {
    SameKindAt(toks, renamed, oldName, newName, p);
    SameKindAt(toks, renamed, oldName, newName, p + 1);
    SameKindAt(toks, renamed, oldName, newName, p + 2);
    SameKindAt(toks, renamed, oldName, newName, p + 3);
    SameKindAt(toks, renamed, oldName, newName, p + 4);
    SameKindAt(toks, renamed, oldName, newName, p + 5);
  }

  /** Which tokens of a job predicate are references. */
  lemma RefsOfPredicate(toks: seq<Token>, p: nat)
    requires (KindAt(toks, p) == FUNC || KindAt(toks, p) == EXITCODE) && TermStart(toks, p)
    ensures !IsRefAt(toks, p) && !IsRefAt(toks, p + 1)
    ensures IsRefAt(toks, p + 2) <==> KindAt(toks, p + 1) == LPAREN && IsName(KindAt(toks, p + 2))
    ensures KindAt(toks, p + 1) == LPAREN ==> !IsRefAt(toks, p + 3)
    ensures KindAt(toks, p + 1) == LPAREN && KindAt(toks, p + 3) != LPAREN ==> !IsRefAt(toks, p + 4)
    ensures KindAt(toks, p + 1) == LPAREN && KindAt(toks, p + 3) != LPAREN && KindAt(toks, p + 4) != LPAREN
      ==> !IsRefAt(toks, p + 5)
  {
  }

  /** What the parser reads of a job predicate, in the renamed list. */
  predicate PredicateAgrees(toks: seq<Token>, renamed: seq<Token>, oldName: string, newName: string, p: nat) {
    && KindAt(renamed, p) == KindAt(toks, p) && (p < |toks| ==> p < |renamed| && renamed[p].value == toks[p].value)
    && KindAt(renamed, p + 1) == KindAt(toks, p + 1)
    && (KindAt(toks, p + 1) == LPAREN ==>
          && IsName(KindAt(renamed, p + 2)) == IsName(KindAt(toks, p + 2))
          && (IsName(KindAt(toks, p + 2)) ==> renamed[p + 2].value == RenameRef(toks[p + 2].value, oldName, newName))
          && KindAt(renamed, p + 3) == KindAt(toks, p + 3)
          && (KindAt(toks, p + 3) != LPAREN ==>
                && SameToken(toks, renamed, p + 4)
                && (KindAt(toks, p + 4) != LPAREN ==> SameToken(toks, renamed, p + 5))))
  }

  predicate SameToken(toks: seq<Token>, renamed: seq<Token>, p: nat) {
    && (p < |toks| <==> p < |renamed|) && KindAt(renamed, p) == KindAt(toks, p)
    && (p < |toks| ==> renamed[p].value == toks[p].value)
  }

  lemma PredicateAgreesAt(toks: seq<Token>, renamed: seq<Token>, oldName: string, newName: string, p: nat)
    requires SameSix(toks, renamed, oldName, newName, p) && TermStart(toks, p)
    requires KindAt(toks, p) == FUNC || KindAt(toks, p) == EXITCODE
    ensures PredicateAgrees(toks, renamed, oldName, newName, p)
  {
    RefsOfPredicate(toks, p);
  }

  lemma JobFuncAgrees(toks: seq<Token>, renamed: seq<Token>, oldName: string, newName: string, p: nat)
    requires PredicateAgrees(toks, renamed, oldName, newName, p) && KindAt(toks, p) == FUNC
    ensures KindAt(renamed, p) == FUNC
    ensures ParseJobFunc(renamed, p) == RenameParsed(ParseJobFunc(toks, p), oldName, newName)
  {
  }

  lemma ExitCodeAgrees(toks: seq<Token>, renamed: seq<Token>, oldName: string, newName: string, p: nat)
    requires PredicateAgrees(toks, renamed, oldName, newName, p) && KindAt(toks, p) == EXITCODE
    ensures KindAt(renamed, p) == EXITCODE
    ensures ParseExitCode(renamed, p) == RenameParsed(ParseExitCode(toks, p), oldName, newName)
  {
  }

  lemma ValueCondAgrees(toks: seq<Token>, renamed: seq<Token>, oldName: string, newName: string, p: nat)
    requires SameSix(toks, renamed, oldName, newName, p) && KindAt(toks, p) == VALUE && TermStart(toks, p)
    ensures KindAt(renamed, p) == VALUE
    ensures ParseValueCond(renamed, p) == RenameParsed(ParseValueCond(toks, p), oldName, newName)
  {
  }

  lemma FuncRenamed(toks: seq<Token>, renamed: seq<Token>, oldName: string, newName: string, p: nat)
    requires TokensRenamed(toks, renamed, oldName, newName) && KindAt(toks, p) == FUNC && TermStart(toks, p)
    ensures KindAt(renamed, p) == FUNC
    ensures ParseJobFunc(renamed, p) == RenameParsed(ParseJobFunc(toks, p), oldName, newName)
  {
    SameSixAt(toks, renamed, oldName, newName, p);
    PredicateAgreesAt(toks, renamed, oldName, newName, p);
    JobFuncAgrees(toks, renamed, oldName, newName, p);
  }

  lemma CodeRenamed(toks: seq<Token>, renamed: seq<Token>, oldName: string, newName: string, p: nat)
    requires TokensRenamed(toks, renamed, oldName, newName) && KindAt(toks, p) == EXITCODE && TermStart(toks, p)
    ensures KindAt(renamed, p) == EXITCODE
    ensures ParseExitCode(renamed, p) == RenameParsed(ParseExitCode(toks, p), oldName, newName)
  {
    SameSixAt(toks, renamed, oldName, newName, p);
    PredicateAgreesAt(toks, renamed, oldName, newName, p);
    ExitCodeAgrees(toks, renamed, oldName, newName, p);
  }

  lemma {:induction false} PrimaryRenamed(toks: seq<Token>, renamed: seq<Token>, oldName: string, newName: string,
                                          p: nat)
    requires TokensRenamed(toks, renamed, oldName, newName) && TermStart(toks, p)
    ensures ParsePrimary(renamed, p) == RenameParsed(ParsePrimary(toks, p), oldName, newName)
    decreases |toks| - p, 1
  {
    SameKindAt(toks, renamed, oldName, newName, p);
    assert !IsRefAt(toks, p);
    match KindAt(toks, p)
    case LPAREN => GroupedRenamed(toks, renamed, oldName, newName, p);
    case FUNC => FuncRenamed(toks, renamed, oldName, newName, p);
    case VALUE => SameSixAt(toks, renamed, oldName, newName, p); ValueCondAgrees(toks, renamed, oldName, newName, p);
    case EXITCODE => CodeRenamed(toks, renamed, oldName, newName, p);
    case NOT => NotRenamed(toks, renamed, oldName, newName, p);
    case _ =>
  }

  lemma {:induction false} GroupedRenamed(toks: seq<Token>, renamed: seq<Token>, oldName: string, newName: string,
                                          p: nat)
    requires TokensRenamed(toks, renamed, oldName, newName) && TermStart(toks, p)
    requires KindAt(toks, p) == LPAREN && KindAt(renamed, p) == LPAREN
    ensures ParseGrouped(renamed, p) == RenameParsed(ParseGrouped(toks, p), oldName, newName)
    decreases |toks| - p, 0
  {
    OrRenamed(toks, renamed, oldName, newName, p + 1);
    var inner := ParseOr(toks, p + 1);
    if inner.Parsed? {
      SameKindAt(toks, renamed, oldName, newName, inner.next);
    }
    ParseGroupedAgrees(toks, renamed, oldName, newName, p, inner);
  }

  lemma ParseGroupedAgrees(toks: seq<Token>, renamed: seq<Token>, oldName: string, newName: string, p: nat,
                           inner: Parsed)
    requires KindAt(toks, p) == LPAREN && KindAt(renamed, p) == LPAREN
    requires ParseOr(toks, p + 1) == inner && ParseOr(renamed, p + 1) == RenameParsed(inner, oldName, newName)
    requires inner.Parsed? ==> KindAt(renamed, inner.next) == KindAt(toks, inner.next)
    ensures ParseGrouped(renamed, p) == RenameParsed(ParseGrouped(toks, p), oldName, newName)
  {
    GroupedAgrees(inner, if inner.Parsed? then KindAt(toks, inner.next) else EOF, oldName, newName);
  }

  lemma GroupedAgrees(inner: Parsed, after: Kind, oldName: string, newName: string)
    ensures Grouped(RenameParsed(inner, oldName, newName), after) ==
        RenameParsed(Grouped(inner, after), oldName, newName)
  {
  }

  lemma {:induction false} NotRenamed(toks: seq<Token>, renamed: seq<Token>, oldName: string, newName: string, p: nat)
    requires TokensRenamed(toks, renamed, oldName, newName)
    requires KindAt(toks, p) == NOT && KindAt(renamed, p) == NOT
    ensures ParseNot(renamed, p) == RenameParsed(ParseNot(toks, p), oldName, newName)
    decreases |toks| - p, 0
  {
    PrimaryRenamed(toks, renamed, oldName, newName, p + 1);
    NotAgrees(ParsePrimary(toks, p + 1), oldName, newName);
    assert ParseNot(renamed, p) == Negated(ParsePrimary(renamed, p + 1));
  }

  lemma NotAgrees(operand: Parsed, oldName: string, newName: string)
    ensures Negated(RenameParsed(operand, oldName, newName)) == RenameParsed(Negated(operand), oldName, newName)
  {
  }

  lemma {:induction false} AndRenamed(toks: seq<Token>, renamed: seq<Token>, oldName: string, newName: string, p: nat)
    requires TokensRenamed(toks, renamed, oldName, newName) && TermStart(toks, p)
    ensures ParseAnd(renamed, p) == RenameParsed(ParseAnd(toks, p), oldName, newName)
    decreases |toks| - p, 3
  {
    PrimaryRenamed(toks, renamed, oldName, newName, p);
    var left := ParsePrimary(toks, p);
    if left.Parsed? {
      AndTailRenamed(toks, renamed, oldName, newName, left.node, left.next);
    }
  }

  lemma AndTailAgrees(toks: seq<Token>, renamed: seq<Token>, oldName: string, newName: string, left: Node, p: nat)
    requires Ended(toks, p) && Ended(renamed, p) && KindAt(toks, p) == KindAt(renamed, p) == AND
    requires ParsePrimary(renamed, p + 1) == RenameParsed(ParsePrimary(toks, p + 1), oldName, newName)
    requires var right := ParsePrimary(toks, p + 1);
      right.Parsed? ==> AndTail(renamed, Rename(AndNode(left, right.node), oldName, newName), right.next)
                          == RenameParsed(AndTail(toks, AndNode(left, right.node), right.next), oldName, newName)
    ensures AndTail(renamed, Rename(left, oldName, newName), p) == RenameParsed(AndTail(toks, left, p), oldName, newName)
  {
  }

  lemma {:induction false} AndTailRenamed(toks: seq<Token>, renamed: seq<Token>, oldName: string, newName: string,
                                          left: Node, p: nat)
    requires TokensRenamed(toks, renamed, oldName, newName) && Ended(toks, p) && Ended(renamed, p)
    ensures AndTail(renamed, Rename(left, oldName, newName), p) == RenameParsed(AndTail(toks, left, p), oldName, newName)
    decreases |toks| - p, 2
  {
    SameKindAt(toks, renamed, oldName, newName, p);
    if KindAt(toks, p) == AND {
      PrimaryRenamed(toks, renamed, oldName, newName, p + 1);
      var right := ParsePrimary(toks, p + 1);
      if right.Parsed? {
        AndTailRenamed(toks, renamed, oldName, newName, AndNode(left, right.node), right.next);
      }
      AndTailAgrees(toks, renamed, oldName, newName, left, p);
    }
  }

  lemma {:induction false} OrRenamed(toks: seq<Token>, renamed: seq<Token>, oldName: string, newName: string, p: nat)
    requires TokensRenamed(toks, renamed, oldName, newName) && TermStart(toks, p)
    ensures ParseOr(renamed, p) == RenameParsed(ParseOr(toks, p), oldName, newName)
    decreases |toks| - p, 5
  {
    AndRenamed(toks, renamed, oldName, newName, p);
    var left := ParseAnd(toks, p);
    if left.Parsed? {
      OrTailRenamed(toks, renamed, oldName, newName, left.node, left.next);
    }
  }

  lemma OrTailAgrees(toks: seq<Token>, renamed: seq<Token>, oldName: string, newName: string, left: Node, p: nat)
    requires Ended(toks, p) && Ended(renamed, p) && KindAt(toks, p) == KindAt(renamed, p) == OR
    requires ParseAnd(renamed, p + 1) == RenameParsed(ParseAnd(toks, p + 1), oldName, newName)
    requires var right := ParseAnd(toks, p + 1);
      right.Parsed? ==> OrTail(renamed, Rename(OrNode(left, right.node), oldName, newName), right.next)
                          == RenameParsed(OrTail(toks, OrNode(left, right.node), right.next), oldName, newName)
    ensures OrTail(renamed, Rename(left, oldName, newName), p) == RenameParsed(OrTail(toks, left, p), oldName, newName)
  {
  }

  lemma {:induction false} OrTailRenamed(toks: seq<Token>, renamed: seq<Token>, oldName: string, newName: string,
                                         left: Node, p: nat)
    requires TokensRenamed(toks, renamed, oldName, newName) && Ended(toks, p) && Ended(renamed, p)
    ensures OrTail(renamed, Rename(left, oldName, newName), p) == RenameParsed(OrTail(toks, left, p), oldName, newName)
    decreases |toks| - p, 4
  {
    SameKindAt(toks, renamed, oldName, newName, p);
    if KindAt(toks, p) == OR {
      AndRenamed(toks, renamed, oldName, newName, p + 1);
      var right := ParseAnd(toks, p + 1);
      if right.Parsed? {
        OrTailRenamed(toks, renamed, oldName, newName, OrNode(left, right.node), right.next);
      }
      OrTailAgrees(toks, renamed, oldName, newName, left, p);
    }
  }

  /** Renaming the references in the token list renames them in the parsed condition, and
      nothing else; a list that does not parse still does not. */
  lemma ParseRenamed(toks: seq<Token>, renamed: seq<Token>, oldName: string, newName: string)
    requires TokensRenamed(toks, renamed, oldName, newName)
    ensures Parse(toks).None? ==> Parse(renamed).None?
    ensures Parse(toks).Some? ==> Parse(renamed) == Some(Rename(Parse(toks).value, oldName, newName))
  {
    OrRenamed(toks, renamed, oldName, newName, 0);
    var r := ParseOr(toks, 0);
    if r.Parsed? {
      SameKindAt(toks, renamed, oldName, newName, r.next);
    }
  }
}
