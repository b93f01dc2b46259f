/** The grammar of conditions, as the grammar rules state it, and the parser against it
    (autosys/parser/condition_parser.py, `_CondParser`). */
module ConditionGrammar {
  import opened ConditionParser
  import opened ConditionRefs
  import opened ConditionTokens
  import opened Options

  /** Behind token `p` comes `'(' name`. */
  predicate Named(toks: seq<Token>, p: nat, name: string) {
    KindAt(toks, p + 1) == LPAREN && IsName(KindAt(toks, p + 2)) && toks[p + 2].value == name
  }

  /** Tokens `p` to `q - 1` spell the predicate `n`. */
  predicate SpellsPredicate(toks: seq<Token>, p: nat, q: nat, n: Node)
    requires p <= q <= |toks|
  {
    match n
    case JobCond(func, ref, lookBack) =>
      && KindAt(toks, p) == FUNC && FuncOf(toks[p].value) == Some(func) && Named(toks, p, ref)
      && (if lookBack == None then q == p + 4 && KindAt(toks, p + 3) == RPAREN
          else
            && q == p + 6 && KindAt(toks, p + 3) == COMMA && KindAt(toks, p + 5) == RPAREN
            && KindAt(toks, p + 4) == NUMBER && Decimal(toks[p + 4].value) == lookBack.value)
    case ExitCodeCond(ref, op, expected) =>
      && KindAt(toks, p) == EXITCODE && Named(toks, p, ref) && KindAt(toks, p + 3) == RPAREN && q == p + 6
      && Compares(KindAt(toks, p + 4), op)
      && KindAt(toks, p + 5) == NUMBER && Truncate(Decimal(toks[p + 5].value)) == expected
    case ValueCond(globalName, op, text) =>
      && KindAt(toks, p) == VALUE && KindAt(toks, p + 3) == RPAREN && q == p + 6
      && p + 2 < |toks| && Named(toks, p, toks[p + 2].value) && Upper(toks[p + 2].value) == globalName
      && Compares(KindAt(toks, p + 4), op)
      && (KindAt(toks, p + 5) == QSTRING || IsName(KindAt(toks, p + 5))) && toks[p + 5].value == text
    case _ => false
  }

  /** The comparison a token stands for. */
  predicate Compares(k: Kind, op: Cmp) {
    match op
    case Equal => k == EQ
    case Differs => k == NEQ
    case Less => k == LT
    case Greater => k == GT
    case AtMost => k == LE
    case AtLeast => k == GE
  }

  /** `or_expr := and_expr ('|' and_expr)*`, grouped from the left. */
  ghost predicate SpellsOr(toks: seq<Token>, p: nat, q: nat, n: Node)
    requires p <= q <= |toks|
    decreases q - p, 2
  {
    || SpellsAnd(toks, p, q, n)
    || (n.OrNode? && exists m :: p < m < q && toks[m].kind == OR && SpellsOr(toks, p, m, n.left)
                                 && SpellsAnd(toks, m + 1, q, n.right))
  }

  /** `and_expr := primary ('&' primary)*`, grouped from the left. */
  ghost predicate SpellsAnd(toks: seq<Token>, p: nat, q: nat, n: Node)
    requires p <= q <= |toks|
    decreases q - p, 1
  {
    || SpellsPrimary(toks, p, q, n)
    || (n.AndNode? && exists m :: p < m < q && toks[m].kind == AND && SpellsAnd(toks, p, m, n.left)
                                  && SpellsPrimary(toks, m + 1, q, n.right))
  }

  /** `primary := '(' or_expr ')' | '!' primary | predicate` */
  ghost predicate SpellsPrimary(toks: seq<Token>, p: nat, q: nat, n: Node)
    requires p <= q <= |toks|
    decreases q - p, 0
  {
    || (p + 2 <= q && toks[p].kind == LPAREN && toks[q - 1].kind == RPAREN && SpellsOr(toks, p + 1, q - 1, n))
    || (n.NotNode? && p < q && toks[p].kind == NOT && SpellsPrimary(toks, p + 1, q, n.operand))
    || SpellsPredicate(toks, p, q, n)
  }

  // ----- what the parser reads is spelled so

  lemma {:induction false} PrimaryIsSpelled(toks: seq<Token>, p: nat)
    ensures var r := ParsePrimary(toks, p); r.Parsed? ==> SpellsPrimary(toks, p, r.next, r.node)
    decreases |toks| - p, 1
  {
    match KindAt(toks, p)
    case LPAREN => OrIsSpelled(toks, p + 1);
    case NOT => PrimaryIsSpelled(toks, p + 1);
    case FUNC => JobFuncIsSpelled(toks, p);
    case VALUE => ValueIsSpelled(toks, p);
    case EXITCODE => ExitCodeIsSpelled(toks, p);
    case _ =>
  }

  lemma JobFuncIsSpelled(toks: seq<Token>, p: nat)
    requires KindAt(toks, p) == FUNC
    ensures var r := ParseJobFunc(toks, p); r.Parsed? ==> SpellsPredicate(toks, p, r.next, r.node)
  {
  }

  lemma ValueIsSpelled(toks: seq<Token>, p: nat)
    requires KindAt(toks, p) == VALUE
    ensures var r := ParseValueCond(toks, p); r.Parsed? ==> SpellsPredicate(toks, p, r.next, r.node)
  {
  }

  lemma ExitCodeIsSpelled(toks: seq<Token>, p: nat)
    requires KindAt(toks, p) == EXITCODE
    ensures var r := ParseExitCode(toks, p); r.Parsed? ==> SpellsPredicate(toks, p, r.next, r.node)
  {
  }

  lemma {:induction false} AndIsSpelled(toks: seq<Token>, p: nat)
    ensures var r := ParseAnd(toks, p); r.Parsed? ==> SpellsAnd(toks, p, r.next, r.node)
    decreases |toks| - p, 3
  {
    PrimaryIsSpelled(toks, p);
    var left := ParsePrimary(toks, p);
    if left.Parsed? {
      AndTailIsSpelled(toks, p, left.node, left.next);
    }
  }

  lemma {:induction false} AndTailIsSpelled(toks: seq<Token>, p: nat, left: Node, m: nat)
    requires p < m && Ended(toks, m) && SpellsAnd(toks, p, m, left)
    ensures var r := AndTail(toks, left, m); r.Parsed? ==> SpellsAnd(toks, p, r.next, r.node)
    decreases |toks| - m, 2
  {
    if KindAt(toks, m) == AND {
      PrimaryIsSpelled(toks, m + 1);
      var right := ParsePrimary(toks, m + 1);
      if right.Parsed? {
        assert SpellsAnd(toks, p, right.next, AndNode(left, right.node));
        AndTailIsSpelled(toks, p, AndNode(left, right.node), right.next);
      }
    }
  }

  lemma {:induction false} OrIsSpelled(toks: seq<Token>, p: nat)
    ensures var r := ParseOr(toks, p); r.Parsed? ==> SpellsOr(toks, p, r.next, r.node)
    decreases |toks| - p, 5
  {
    AndIsSpelled(toks, p);
    var left := ParseAnd(toks, p);
    if left.Parsed? {
      OrTailIsSpelled(toks, p, left.node, left.next);
    }
  }

  lemma {:induction false} OrTailIsSpelled(toks: seq<Token>, p: nat, left: Node, m: nat)
    requires p < m && Ended(toks, m) && SpellsOr(toks, p, m, left)
    ensures var r := OrTail(toks, left, m); r.Parsed? ==> SpellsOr(toks, p, r.next, r.node)
    decreases |toks| - m, 4
  {
    if KindAt(toks, m) == OR {
      AndIsSpelled(toks, m + 1);
      var right := ParseAnd(toks, m + 1);
      if right.Parsed? {
        assert SpellsOr(toks, p, right.next, OrNode(left, right.node));
        OrTailIsSpelled(toks, p, OrNode(left, right.node), right.next);
      }
    }
  }

  // ----- what is spelled so is read so

  lemma {:induction false} PrimaryIsRead(toks: seq<Token>, p: nat, q: nat, n: Node)
    requires p <= q <= |toks| && SpellsPrimary(toks, p, q, n)
    ensures ParsePrimary(toks, p) == Parsed(n, q)
    decreases q - p, 0
  {
    if SpellsPredicate(toks, p, q, n) {
      PredicateIsRead(toks, p, q, n);
    } else if toks[p].kind == NOT {
      PrimaryIsRead(toks, p + 1, q, n.operand);
    } else {
      OrIsRead(toks, p + 1, q - 1, n);
      GroupIsRead(toks, p, q, n);
    }
  }

  lemma GroupIsRead(toks: seq<Token>, p: nat, q: nat, n: Node)
    requires p + 2 <= q <= |toks| && toks[p].kind == LPAREN && toks[q - 1].kind == RPAREN && Ended(toks, q - 1)
    requires ParseOr(toks, p + 1) == OrTail(toks, n, q - 1)
    ensures ParsePrimary(toks, p) == Parsed(n, q)
  {
    assert OrTail(toks, n, q - 1) == Parsed(n, q - 1);
    assert ParseGrouped(toks, p) == Parsed(n, q);
  }

  lemma PredicateIsRead(toks: seq<Token>, p: nat, q: nat, n: Node)
    requires p <= q <= |toks| && SpellsPredicate(toks, p, q, n)
    ensures ParsePrimary(toks, p) == Parsed(n, q)
  {
  }

  lemma {:induction false} AndIsRead(toks: seq<Token>, p: nat, q: nat, n: Node)
    requires p <= q <= |toks| && SpellsAnd(toks, p, q, n)
    ensures Ended(toks, q) && ParseAnd(toks, p) == AndTail(toks, n, q)
    decreases q - p, 1
  {
    if SpellsPrimary(toks, p, q, n) {
      PrimaryIsRead(toks, p, q, n);
    } else {
      var m :| p < m < q && toks[m].kind == AND && SpellsAnd(toks, p, m, n.left) &&
               SpellsPrimary(toks, m + 1, q, n.right);
      AndIsRead(toks, p, m, n.left);
      PrimaryIsRead(toks, m + 1, q, n.right);
    }
  }

  lemma {:induction false} OrIsRead(toks: seq<Token>, p: nat, q: nat, n: Node)
    requires p <= q <= |toks| && SpellsOr(toks, p, q, n) && KindAt(toks, q) != AND
    ensures Ended(toks, q) && ParseOr(toks, p) == OrTail(toks, n, q)
    decreases q - p, 2
  {
    if SpellsAnd(toks, p, q, n) {
      AndIsRead(toks, p, q, n);
    } else {
      var m :| p < m < q && toks[m].kind == OR && SpellsOr(toks, p, m, n.left) &&
               SpellsAnd(toks, m + 1, q, n.right);
      OrIsRead(toks, p, m, n.left);
      AndIsRead(toks, m + 1, q, n.right);
    }
  }

  /** The parser reads exactly the conditions of the grammar: a token list parses to `n`
      if and only if the tokens before its end spell `n`, "&" binding tighter than "|". */
  lemma ParseIffSpelled(toks: seq<Token>, n: Node)
    ensures Parse(toks) == Some(n) <==> exists q :: 0 <= q <= |toks| && KindAt(toks, q) == EOF && SpellsOr(toks, 0, q, n)
  {
    OrIsSpelled(toks, 0);
    if q :| 0 <= q <= |toks| && KindAt(toks, q) == EOF && SpellsOr(toks, 0, q, n) {
      OrIsRead(toks, 0, q, n);
    }
  }

  /** No token list spells two conditions. */
  lemma GrammarIsUnambiguous(toks: seq<Token>, n: Node, m: Node)
    requires SpellsOr(toks, 0, |toks|, n) && SpellsOr(toks, 0, |toks|, m)
    ensures n == m
  {
    ParseIffSpelled(toks, n);
    ParseIffSpelled(toks, m);
  }
}
