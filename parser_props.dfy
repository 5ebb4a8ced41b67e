/** What the shape of the parse tree says about the grammar: the
    precedence levels, their associativity, the operators that build the
    same node, the prefix operators that leave none, and the tokens that
    end an expression. Each lemma assumes the parses of the operands and
    derives the parse of the whole. */
module ParserProperties {
  import opened Wrappers
  import opened Tokens
  import opened Ast
  import opened ParserSpec

  /** An operator token of kind `k` at `q` that the parser can step over
      (the token after it is not ERR). */
  predicate StepsOver(ts: seq<Token>, q: nat, k: Kind)
    requires ValidStream(ts) && At(ts, q)
  {
    Check(ts, q, k) && Advance(ts, q).Ok?
  }

  // ---------------------------------------------------------------
  // An operand followed by a token no level continues with is a whole
  // expression: each level hands it up unchanged.
  // ---------------------------------------------------------------

  lemma UnaryIsProduct(ts: seq<Token>, p: nat, e: Exp, q: nat)
    requires ValidStream(ts) && At(ts, p)
    requires ParseUnary(ts, p) == Ok(Parsed(e, q)) && !MulStop(ts[q].kind)
    ensures ParseMul(ts, p) == Ok(Parsed(e, q))
  {
    assert MulRest(ts, q, e) == Ok(Parsed(e, q));
  }

  lemma ProductIsSum(ts: seq<Token>, p: nat, e: Exp, q: nat)
    requires ValidStream(ts) && At(ts, p)
    requires ParseMul(ts, p) == Ok(Parsed(e, q)) && !AddStop(ts[q].kind)
    ensures ParseAdd(ts, p) == Ok(Parsed(e, q))
  {
    assert AddRest(ts, q, e) == Ok(Parsed(e, q));
  }

  lemma SumIsRelation(ts: seq<Token>, p: nat, e: Exp, q: nat)
    requires ValidStream(ts) && At(ts, p)
    requires ParseAdd(ts, p) == Ok(Parsed(e, q)) && !RelStop(ts[q].kind)
    ensures ParseRel(ts, p) == Ok(Parsed(e, q))
  {
    assert RelRest(ts, q, e) == Ok(Parsed(e, q));
  }

  lemma RelationIsConjunction(ts: seq<Token>, p: nat, e: Exp, q: nat)
    requires ValidStream(ts) && At(ts, p)
    requires ParseRel(ts, p) == Ok(Parsed(e, q)) && !AndStop(ts[q].kind)
    ensures ParseAnd(ts, p) == Ok(Parsed(e, q))
  {
    assert AndRest(ts, q, e) == Ok(Parsed(e, q));
  }

  lemma ConjunctionIsDisjunction(ts: seq<Token>, p: nat, e: Exp, q: nat)
    requires ValidStream(ts) && At(ts, p)
    requires ParseAnd(ts, p) == Ok(Parsed(e, q)) && !OrStop(ts[q].kind)
    ensures ParseOr(ts, p) == Ok(Parsed(e, q))
  {
    assert OrRest(ts, q, e) == Ok(Parsed(e, q));
  }

  lemma DisjunctionIsExpression(ts: seq<Token>, p: nat, e: Exp, q: nat)
    requires ValidStream(ts) && At(ts, p)
    requires ParseOr(ts, p) == Ok(Parsed(e, q)) && !AssignStop(ts[q].kind)
    ensures ParseExpression(ts, p) == Ok(Parsed(e, q))
  {
    assert AssignTail(ts, q, e) == Ok(Parsed(e, q));
  }

  /** A relation followed by a token that neither `&&`, `||` nor an
      assignment continues with is the whole expression. */
  lemma RelationIsExpression(ts: seq<Token>, p: nat, e: Exp, q: nat)
    requires ValidStream(ts) && At(ts, p)
    requires ParseRel(ts, p) == Ok(Parsed(e, q)) && !AssignStop(ts[q].kind)
    ensures ParseExpression(ts, p) == Ok(Parsed(e, q))
  {
    RelationIsConjunction(ts, p, e, q);
    ConjunctionIsDisjunction(ts, p, e, q);
    DisjunctionIsExpression(ts, p, e, q);
  }

  lemma SumIsExpression(ts: seq<Token>, p: nat, e: Exp, q: nat)
    requires ValidStream(ts) && At(ts, p)
    requires ParseAdd(ts, p) == Ok(Parsed(e, q)) && !AssignStop(ts[q].kind)
    ensures ParseExpression(ts, p) == Ok(Parsed(e, q))
  {
    SumIsRelation(ts, p, e, q);
    RelationIsExpression(ts, p, e, q);
  }

  /** An operand followed by a token no level continues with (a `;`, a
      `)`, a `**`, ...) is the whole expression. */
  lemma OperandIsExpression(ts: seq<Token>, p: nat, e: Exp, q: nat)
    requires ValidStream(ts) && At(ts, p)
    requires ParseUnary(ts, p) == Ok(Parsed(e, q)) && !AssignStop(ts[q].kind)
    ensures ParseExpression(ts, p) == Ok(Parsed(e, q))
  {
    UnaryIsProduct(ts, p, e, q);
    ProductIsSum(ts, p, e, q);
    SumIsExpression(ts, p, e, q);
  }

  /** No level consumes `**`: the expression ends in front of it. */
  lemma PowerEndsExpression(ts: seq<Token>, p: nat, e: Exp, q: nat)
    requires ValidStream(ts) && At(ts, p)
    requires ParseUnary(ts, p) == Ok(Parsed(e, q)) && ts[q].kind == POW
    ensures ParseExpression(ts, p) == Ok(Parsed(e, q))
  {
    assert !AssignStop(POW);
    OperandIsExpression(ts, p, e, q);
  }

  /** Nor can an expression start with `**`. */
  lemma PowerStartsNothing(ts: seq<Token>, p: nat)
    requires ValidStream(ts) && At(ts, p) && ts[p].kind == POW
    ensures ParseExpression(ts, p).Err?
  {
    assert ParsePrimary(ts, p).Err?;
    assert ParseUnary(ts, p).Err?;
    assert ParseMul(ts, p).Err?;
    assert ParseAdd(ts, p).Err?;
    assert ParseRel(ts, p).Err?;
    assert ParseAnd(ts, p).Err?;
    assert ParseOr(ts, p).Err?;
  }

  // ---------------------------------------------------------------
  // Associativity and precedence
  // ---------------------------------------------------------------

  /** `a - b - c` is `(a - b) - c`. */
  lemma SubtractionAssociatesLeft(ts: seq<Token>, p: nat, a: Exp, q1: nat, b: Exp, q2: nat, c: Exp, q3: nat)
    requires ValidStream(ts) && At(ts, p)
    requires ParseMul(ts, p) == Ok(Parsed(a, q1)) && StepsOver(ts, q1, MINUS)
    requires ParseMul(ts, q1 + 1) == Ok(Parsed(b, q2)) && StepsOver(ts, q2, MINUS)
    requires ParseMul(ts, q2 + 1) == Ok(Parsed(c, q3)) && !AddStop(ts[q3].kind)
    ensures ParseAdd(ts, p) == Ok(Parsed(BinaryExp(BinaryExp(a, b, MINUS_OP), c, MINUS_OP), q3))
  {
    var ab := BinaryExp(a, b, MINUS_OP);
    var abc := BinaryExp(ab, c, MINUS_OP);
    AddFrom(ts, p, a, q1);
    AddRestStep(ts, q1, a, b, q2);
    AddRestStep(ts, q2, ab, c, q3);
    AddRestDone(ts, q3, abc);
  }

  /** The additive level is its first operand followed by the loop. */
  lemma AddFrom(ts: seq<Token>, p: nat, a: Exp, q1: nat)
    requires ValidStream(ts) && At(ts, p) && ParseMul(ts, p) == Ok(Parsed(a, q1))
    ensures At(ts, q1) && !MulStop(ts[q1].kind)
    ensures ParseAdd(ts, p) == AddRest(ts, q1, a)
  {
  }

  /** The additive loop stops in front of anything but `+` and `-`. */
  lemma AddRestDone(ts: seq<Token>, q: nat, e: Exp)
    requires ValidStream(ts) && At(ts, q) && !AddStop(ts[q].kind)
    ensures AddRest(ts, q, e) == Ok(Parsed(e, q))
  {
  }

  /** One `+` or `-` step of the additive loop. */
  lemma AddRestStep(ts: seq<Token>, q: nat, left: Exp, b: Exp, q2: nat)
    requires ValidStream(ts) && At(ts, q) && !MulStop(ts[q].kind)
    requires StepsOver(ts, q, PLUS) || StepsOver(ts, q, MINUS)
    requires ParseMul(ts, q + 1) == Ok(Parsed(b, q2))
    ensures At(ts, q2) && !MulStop(ts[q2].kind)
    ensures AddRest(ts, q, left) == AddRest(ts, q2, BinaryExp(left, b, if ts[q].kind == PLUS then PLUS_OP else MINUS_OP))
  {
    var op := if ts[q].kind == PLUS then PLUS_OP else MINUS_OP;
    assert Advance(ts, q) == Ok(q + 1);
    assert AddStep(ts, q, left) == Ok(Parsed(BinaryExp(left, b, op), q2));
    assert Check(ts, q, PLUS) || Check(ts, q, MINUS);
  }

  /** `a * b` or `a / b` at the multiplicative level. */
  lemma ProductOfTwo(ts: seq<Token>, p: nat, a: Exp, q1: nat, k: Kind, b: Exp, q2: nat)
    requires ValidStream(ts) && At(ts, p) && (k == MUL || k == DIV)
    requires ParseUnary(ts, p) == Ok(Parsed(a, q1)) && StepsOver(ts, q1, k)
    requires ParseUnary(ts, q1 + 1) == Ok(Parsed(b, q2)) && !MulStop(ts[q2].kind)
    ensures ParseMul(ts, p) == Ok(Parsed(BinaryExp(a, b, if k == MUL then MUL_OP else DIV_OP), q2))
  {
    var ab := BinaryExp(a, b, if k == MUL then MUL_OP else DIV_OP);
    assert MulStep(ts, q1, a) == Ok(Parsed(ab, q2));
    assert MulRest(ts, q2, ab) == Ok(Parsed(ab, q2));
    assert MulRest(ts, q1, a) == Ok(Parsed(ab, q2));
  }

  /** `a + b` or `a - b` at the additive level. */
  lemma SumOfTwo(ts: seq<Token>, p: nat, a: Exp, q1: nat, k: Kind, b: Exp, q2: nat)
    requires ValidStream(ts) && At(ts, p) && (k == PLUS || k == MINUS)
    requires ParseMul(ts, p) == Ok(Parsed(a, q1)) && StepsOver(ts, q1, k)
    requires ParseMul(ts, q1 + 1) == Ok(Parsed(b, q2)) && !AddStop(ts[q2].kind)
    ensures ParseAdd(ts, p) == Ok(Parsed(BinaryExp(a, b, if k == PLUS then PLUS_OP else MINUS_OP), q2))
  {
    var ab := BinaryExp(a, b, if k == PLUS then PLUS_OP else MINUS_OP);
    assert AddStep(ts, q1, a) == Ok(Parsed(ab, q2));
    assert AddRest(ts, q2, ab) == Ok(Parsed(ab, q2));
    assert AddRest(ts, q1, a) == Ok(Parsed(ab, q2));
  }

  /** `a && b` at the conjunctive level. */
  lemma ConjunctionOfTwo(ts: seq<Token>, p: nat, a: Exp, q1: nat, b: Exp, q2: nat)
    requires ValidStream(ts) && At(ts, p)
    requires ParseRel(ts, p) == Ok(Parsed(a, q1)) && StepsOver(ts, q1, AND)
    requires ParseRel(ts, q1 + 1) == Ok(Parsed(b, q2)) && !AndStop(ts[q2].kind)
    ensures ParseAnd(ts, p) == Ok(Parsed(BinaryExp(a, b, AND_OP), q2))
  {
    var ab := BinaryExp(a, b, AND_OP);
    assert AndStep(ts, q1, a) == Ok(Parsed(ab, q2));
    assert AndRest(ts, q2, ab) == Ok(Parsed(ab, q2));
    assert AndRest(ts, q1, a) == Ok(Parsed(ab, q2));
  }

  /** `a || b` at the disjunctive level: an AND_OP node. */
  lemma DisjunctionOfTwo(ts: seq<Token>, p: nat, a: Exp, q1: nat, b: Exp, q2: nat)
    requires ValidStream(ts) && At(ts, p)
    requires ParseAnd(ts, p) == Ok(Parsed(a, q1)) && StepsOver(ts, q1, OR)
    requires ParseAnd(ts, q1 + 1) == Ok(Parsed(b, q2)) && !OrStop(ts[q2].kind)
    ensures ParseOr(ts, p) == Ok(Parsed(BinaryExp(a, b, AND_OP), q2))
  {
    var ab := BinaryExp(a, b, AND_OP);
    assert OrStep(ts, q1, a) == Ok(Parsed(ab, q2));
    assert OrRest(ts, q2, ab) == Ok(Parsed(ab, q2));
    assert OrRest(ts, q1, a) == Ok(Parsed(ab, q2));
  }

  /** `x = e`: the left side is a disjunction and the right side a whole
      assignment, so `x = y = e` is `x = (y = e)`. */
  lemma AssignmentAssociatesRight(ts: seq<Token>, p: nat, x: Exp, q1: nat, e: Exp, q2: nat)
    requires ValidStream(ts) && At(ts, p)
    requires ParseOr(ts, p) == Ok(Parsed(x, q1)) && StepsOver(ts, q1, ASSIGN)
    requires ParseAssignment(ts, q1 + 1) == Ok(Parsed(e, q2))
    ensures ParseAssignment(ts, p) == Ok(Parsed(BinaryExp(x, e, ASSIGN_OP), q2))
  {
    assert Advance(ts, q1) == Ok(q1 + 1);
    assert AssignNode(ASSIGN, x, e) == Ok(BinaryExp(x, e, ASSIGN_OP));
    assert AssignTail(ts, q1, x) == Ok(Parsed(BinaryExp(x, e, ASSIGN_OP), q2));
  }

  /** `x += e` is `x = x + e`, and `x -= e` is `x = x - e`; with anything
      but an identifier on the left they are errors. */
  lemma CompoundAssignmentDesugars(k: Kind, left: Exp, right: Exp)
    requires k == PLUS_ASSIGN || k == MINUS_ASSIGN
    ensures left.IdExp? ==>
              AssignNode(k, left, right)
              == Ok(BinaryExp(left, BinaryExp(left, right, if k == PLUS_ASSIGN then PLUS_OP else MINUS_OP), ASSIGN_OP))
    ensures !left.IdExp? ==> AssignNode(k, left, right).Err?
  {
  }

  // ---------------------------------------------------------------
  // Prefix and postfix operators
  // ---------------------------------------------------------------

  predicate IsPrefixKind(k: Kind) { k == NOT || k == MINUS || k == PLUS }

  /** One prefix operator is skipped. */
  lemma PrefixOperatorDropped(ts: seq<Token>, p: nat)
    requires ValidStream(ts) && At(ts, p) && IsPrefixKind(ts[p].kind) && Advance(ts, p).Ok?
    ensures ParseUnary(ts, p) == ParseUnary(ts, p + 1)
  {
    assert Check(ts, p, ts[p].kind);
    assert Advance(ts, p) == Ok(p + 1);
  }

  /** `n` prefix operators from `p` on, each followed by a token the
      parser can stand on. */
  predicate PrefixRun(ts: seq<Token>, p: nat, n: nat)
    decreases n
  {
    p < |ts| && ts[p].kind != ERR && (n > 0 ==> IsPrefixKind(ts[p].kind) && PrefixRun(ts, p + 1, n - 1))
  }

  /** Any run of prefix `!`, `-` and `+` leaves no node: the operand after
      it is parsed as if the run were not there. */
  lemma {:induction false} PrefixOperatorsDropped(ts: seq<Token>, p: nat, n: nat)
    requires ValidStream(ts) && PrefixRun(ts, p, n)
    ensures At(ts, p) && At(ts, p + n)
    ensures ParseUnary(ts, p) == ParseUnary(ts, p + n)
    decreases n
  {
    if n > 0 {
      PrefixOperatorsDropped(ts, p + 1, n - 1);
      assert Advance(ts, p) == Ok(p + 1);
      PrefixOperatorDropped(ts, p);
    }
  }

  /** After anything but an identifier, `{` is not a struct literal: the
      operand ends in front of it. */
  lemma BraceAfterNonIdentifier(ts: seq<Token>, p: nat, e: Exp, q: nat)
    requires ValidStream(ts) && At(ts, p)
    requires ParsePrimary(ts, p) == Ok(Parsed(e, q)) && !e.IdExp? && ts[q].kind == LBRACE
    ensures ParsePostfix(ts, p) == Ok(Parsed(e, q))
  {
    assert PostfixRest(ts, q, e) == Ok(Parsed(e, q));
  }

  /** After an identifier, `{` starts a struct literal named by it, and
      the postfix loop goes on after the literal. */
  lemma BraceAfterIdentifier(ts: seq<Token>, p: nat, name: string, q: nat)
    requires ValidStream(ts) && At(ts, p)
    requires ParsePrimary(ts, p) == Ok(Parsed(IdExp(name), q)) && ts[q].kind == LBRACE
    ensures var lit := StructInitSuffix(ts, q, name);
            ParsePostfix(ts, p).Ok? ==>
              lit.Ok? && lit.value.value.StructInitExp? && lit.value.value.sname == name
              && ParsePostfix(ts, p) == PostfixRest(ts, lit.value.next, lit.value.value)
  {
    var lit := StructInitSuffix(ts, q, name);
    assert PostfixStep(ts, q, IdExp(name)) == lit;
    assert ParsePostfix(ts, p) == PostfixRest(ts, q, IdExp(name));
    if lit.Ok? {
      assert PostfixRest(ts, q, IdExp(name)) == PostfixRest(ts, lit.value.next, lit.value.value);
    }
  }

  // ---------------------------------------------------------------
  // Programs
  // ---------------------------------------------------------------

  /** A program parses only if its items reach the end of the input. */
  lemma ProgramUsesAllTokens(ts: seq<Token>)
    requires ValidStream(ts) && At(ts, 0)
    ensures ParseProgram(ts).Ok? <==>
              ParseItems(ts, 0, EmptyProgram).Ok? && IsAtEnd(ts, ParseItems(ts, 0, EmptyProgram).value.next)
  {
  }
}
