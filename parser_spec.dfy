/** The recursive-descent parser as functions over the token stream the
    scanner produces. A position `p` is the index of the parser's current
    token; `previous` is the token at `p - 1`. An exception is an `Err`
    carrying its message. */
module ParserSpec {
  import opened Wrappers
  import opened Text
  import opened Tokens
  import opened Ast
  import Scanning

  /** What the parser needs of the scanner's output: it is not empty and
      it stops at END or ERR (the scanner keeps returning END after the
      end, and the parser throws on the first ERR). */
  predicate ValidStream(ts: seq<Token>) {
    |ts| >= 1 && (ts[|ts| - 1].kind == END || ts[|ts| - 1].kind == ERR)
  }

  /** A position the parser can stand on: advancing onto ERR throws. */
  predicate At(ts: seq<Token>, p: nat) {
    p < |ts| && ts[p].kind != ERR
  }

  datatype Parsed<T> = Parsed(value: T, next: nat)

  /** A successful parse consumed at least one token. */
  predicate Advances<T>(ts: seq<Token>, p: nat, r: Result<Parsed<T>>) {
    r.Ok? ==> p < r.value.next && At(ts, r.value.next)
  }

  /** A successful parse consumed zero or more tokens. */
  predicate Keeps<T>(ts: seq<Token>, p: nat, r: Result<Parsed<T>>) {
    r.Ok? ==> p <= r.value.next && At(ts, r.value.next)
  }

  const LexicalPrefix := "Error l\U{E9}xico: token inv\U{E1}lido '"
  const SyntaxPrefix := "Error sint\U{E1}ctico: se esperaba "

  function LexicalError(text: string): string {
    LexicalPrefix + text + "'"
  }

  function SyntaxError(what: string): string {
    SyntaxPrefix + what
  }

  // ---------------------------------------------------------------
  // Cursor primitives
  // ---------------------------------------------------------------

  predicate IsAtEnd(ts: seq<Token>, p: nat)
    requires p < |ts|
  {
    ts[p].kind == END
  }

  /** `check`: false at the end of the input whatever is asked for. */
  predicate Check(ts: seq<Token>, p: nat, k: Kind)
    requires p < |ts|
  {
    !IsAtEnd(ts, p) && ts[p].kind == k
  }

  /** `advance`: moves to the next token, throwing if it is ERR. */
  function Advance(ts: seq<Token>, p: nat): (r: Result<nat>)
    requires ValidStream(ts) && At(ts, p) && !IsAtEnd(ts, p)
    ensures r.Ok? <==> ts[p + 1].kind != ERR
    ensures r.Ok? ==> r.value == p + 1 && At(ts, p + 1)
  {
    if ts[p + 1].kind == ERR then Err(LexicalError(ts[p + 1].text)) else Ok(p + 1)
  }

  /** `match`: advances over a token of kind `k`, or stays. */
  function Match(ts: seq<Token>, p: nat, k: Kind): (r: Result<nat>)
    requires ValidStream(ts) && At(ts, p)
    ensures r.Ok? ==> At(ts, r.value)
    ensures r.Ok? ==> (r.value == p + 1 <==> Check(ts, p, k))
    ensures r.Ok? ==> (r.value == p <==> !Check(ts, p, k))
  {
    if Check(ts, p, k) then Advance(ts, p) else Ok(p)
  }

  /** `consume`: a `match` that must succeed. */
  function Consume(ts: seq<Token>, p: nat, k: Kind, what: string): (r: Result<nat>)
    requires ValidStream(ts) && At(ts, p)
    ensures r.Ok? ==> r.value == p + 1 && At(ts, p + 1) && ts[p].kind == k
    ensures !Check(ts, p, k) ==> r == Err(SyntaxError(what))
  {
    if Check(ts, p, k) then Advance(ts, p) else Err(SyntaxError(what))
  }

  /** The token kinds accepted where a type is expected. */
  predicate IsTypeKind(k: Kind) {
    k == IDENTIFIER || k == I32 || k == I64 || k == U32 || k == U64
    || k == F32 || k == F64 || k == BOOL
  }

  /** A type token, kept as its text. */
  function ParseBaseType(ts: seq<Token>, p: nat, err: string): (r: Result<Parsed<string>>)
    requires ValidStream(ts) && At(ts, p)
    ensures Advances(ts, p, r)
    ensures r.Ok? ==> IsTypeKind(ts[p].kind) && r.value == Parsed(ts[p].text, p + 1)
  {
    if !IsAtEnd(ts, p) && IsTypeKind(ts[p].kind) then
      var q :- Advance(ts, p);
      Ok(Parsed(ts[p].text, q))
    else Err(err)
  }

  /** A type token optionally followed by `[N]`, kept as `T` or `T[N]`. */
  function ParseTypeName(ts: seq<Token>, p: nat, err: string, sizeWhat: string): (r: Result<Parsed<string>>)
    requires ValidStream(ts) && At(ts, p)
    ensures Advances(ts, p, r)
    ensures r.Ok? ==> IsTypeKind(ts[p].kind)
  {
    var base :- ParseBaseType(ts, p, err);
    ArraySize(ts, base.next, base.value, sizeWhat)
  }

  /** The optional `[N]` after a type, appended to its text. */
  function ArraySize(ts: seq<Token>, p: nat, base: string, sizeWhat: string): (r: Result<Parsed<string>>)
    requires ValidStream(ts) && At(ts, p)
    ensures Keeps(ts, p, r)
    ensures r.Ok? && ts[p].kind != LBRACKET ==> r.value.next == p && r.value.value == base
    ensures r.Ok? && ts[p].kind == LBRACKET ==>
              r.value.next == p + 3 && r.value.value == base + "[" + ts[p + 1].text + "]"
  {
    if Check(ts, p, LBRACKET) then
      var q :- Advance(ts, p);
      var q1 :- Consume(ts, q, NUMBER, sizeWhat);
      var q2 :- Consume(ts, q1, RBRACKET, "]");
      Ok(Parsed(base + "[" + ts[q].text + "]", q2))
    else Ok(Parsed(base, p))
  }

  // ---------------------------------------------------------------
  // Expressions. Each level's result is followed by a token that level
  // and the ones above it cannot continue with. Every loop of the parser
  // is a `...Rest` function repeating a `...Step` function.
  // ---------------------------------------------------------------

  predicate PostfixStop(k: Kind) { k == DOT || k == LBRACKET || k == LPAREN }
  predicate MulStop(k: Kind) { k == MUL || k == DIV || PostfixStop(k) }
  predicate AddStop(k: Kind) { k == PLUS || k == MINUS || MulStop(k) }
  predicate RelStop(k: Kind) { k == EQ || k == NEQ || k == LT || k == GT || k == LE || k == GE || AddStop(k) }
  predicate AndStop(k: Kind) { k == AND || RelStop(k) }
  predicate OrStop(k: Kind) { k == OR || AndStop(k) }
  predicate AssignStop(k: Kind) { k == ASSIGN || k == PLUS_ASSIGN || k == MINUS_ASSIGN || OrStop(k) }

  function ParseExpression(ts: seq<Token>, p: nat): (r: Result<Parsed<Exp>>)
    requires ValidStream(ts) && At(ts, p)
    ensures Advances(ts, p, r)
    ensures r.Ok? ==> !AssignStop(ts[r.value.next].kind)
    decreases |ts| - p, 20
  {
    ParseAssignment(ts, p)
  }

  /** Assignment is right-associative. */
  function ParseAssignment(ts: seq<Token>, p: nat): (r: Result<Parsed<Exp>>)
    requires ValidStream(ts) && At(ts, p)
    ensures Advances(ts, p, r)
    ensures r.Ok? ==> !AssignStop(ts[r.value.next].kind)
    decreases |ts| - p, 19
  {
    var l :- ParseOr(ts, p);
    AssignTail(ts, l.next, l.value)
  }

  predicate IsAssignKind(k: Kind) {
    k == ASSIGN || k == PLUS_ASSIGN || k == MINUS_ASSIGN
  }

  /** What follows the left operand of an assignment. */
  function AssignTail(ts: seq<Token>, p: nat, left: Exp): (r: Result<Parsed<Exp>>)
    requires ValidStream(ts) && At(ts, p) && !OrStop(ts[p].kind)
    ensures Keeps(ts, p, r)
    ensures r.Ok? ==> !AssignStop(ts[r.value.next].kind)
    decreases |ts| - p, 17
  {
    if !IsAtEnd(ts, p) && IsAssignKind(ts[p].kind) then
      var q :- Advance(ts, p);
      var rhs :- ParseAssignment(ts, q);
      var e :- AssignNode(ts[p].kind, left, rhs.value);
      Ok(Parsed(e, rhs.next))
    else Ok(Parsed(left, p))
  }

  /** The node an assignment operator builds: `x += e` and `x -= e`
      become `x = x + e` and `x = x - e`, and need an identifier on the
      left. */
  function AssignNode(k: Kind, left: Exp, right: Exp): (r: Result<Exp>)
    requires IsAssignKind(k)
    ensures k == ASSIGN ==> r == Ok(BinaryExp(left, right, ASSIGN_OP))
    ensures k != ASSIGN ==> (r.Ok? <==> left.IdExp?)
    ensures r.Ok? ==> r.value.BinaryExp? && r.value.op == ASSIGN_OP && r.value.left == left
  {
    if k == ASSIGN then Ok(BinaryExp(left, right, ASSIGN_OP))
    else
      var op := if k == PLUS_ASSIGN then PLUS_OP else MINUS_OP;
      if left.IdExp? then Ok(BinaryExp(left, BinaryExp(IdExp(left.name), right, op), ASSIGN_OP))
      else Err(CompoundError(op))
  }

  /** The message thrown when `+=` or `-=` has no identifier on its left. */
  function CompoundError(op: BinaryOp): string {
    if op == PLUS_OP then "Compound assignment += requires identifier on left side"
    else "Compound assignment -= requires identifier on left side"
  }

  function ParseOr(ts: seq<Token>, p: nat): (r: Result<Parsed<Exp>>)
    requires ValidStream(ts) && At(ts, p)
    ensures Advances(ts, p, r)
    ensures r.Ok? ==> !OrStop(ts[r.value.next].kind)
    decreases |ts| - p, 18
  {
    var l :- ParseAnd(ts, p);
    OrRest(ts, l.next, l.value)
  }

  function OrRest(ts: seq<Token>, p: nat, left: Exp): (r: Result<Parsed<Exp>>)
    requires ValidStream(ts) && At(ts, p) && !AndStop(ts[p].kind)
    ensures Keeps(ts, p, r)
    ensures r.Ok? ==> !OrStop(ts[r.value.next].kind)
    decreases |ts| - p, 17
  {
    if Check(ts, p, OR) then
      var s :- OrStep(ts, p, left);
      OrRest(ts, s.next, s.value)
    else Ok(Parsed(left, p))
  }

  /** `|| rhs`: it builds the same node as `&&`. */
  function OrStep(ts: seq<Token>, p: nat, left: Exp): (r: Result<Parsed<Exp>>)
    requires ValidStream(ts) && At(ts, p) && Check(ts, p, OR)
    ensures Advances(ts, p, r)
    ensures r.Ok? ==> !AndStop(ts[r.value.next].kind)
    decreases |ts| - p, 16
  {
    var q :- Advance(ts, p);
    var rhs :- ParseAnd(ts, q);
    Ok(Parsed(BinaryExp(left, rhs.value, AND_OP), rhs.next))
  }

  function ParseAnd(ts: seq<Token>, p: nat): (r: Result<Parsed<Exp>>)
    requires ValidStream(ts) && At(ts, p)
    ensures Advances(ts, p, r)
    ensures r.Ok? ==> !AndStop(ts[r.value.next].kind)
    decreases |ts| - p, 16
  {
    var l :- ParseRel(ts, p);
    AndRest(ts, l.next, l.value)
  }

  function AndRest(ts: seq<Token>, p: nat, left: Exp): (r: Result<Parsed<Exp>>)
    requires ValidStream(ts) && At(ts, p) && !RelStop(ts[p].kind)
    ensures Keeps(ts, p, r)
    ensures r.Ok? ==> !AndStop(ts[r.value.next].kind)
    decreases |ts| - p, 15
  {
    if Check(ts, p, AND) then
      var s :- AndStep(ts, p, left);
      AndRest(ts, s.next, s.value)
    else Ok(Parsed(left, p))
  }

  function AndStep(ts: seq<Token>, p: nat, left: Exp): (r: Result<Parsed<Exp>>)
    requires ValidStream(ts) && At(ts, p) && Check(ts, p, AND)
    ensures Advances(ts, p, r)
    ensures r.Ok? ==> !RelStop(ts[r.value.next].kind)
    decreases |ts| - p, 14
  {
    var q :- Advance(ts, p);
    var rhs :- ParseRel(ts, q);
    Ok(Parsed(BinaryExp(left, rhs.value, AND_OP), rhs.next))
  }

  function ParseRel(ts: seq<Token>, p: nat): (r: Result<Parsed<Exp>>)
    requires ValidStream(ts) && At(ts, p)
    ensures Advances(ts, p, r)
    ensures r.Ok? ==> !RelStop(ts[r.value.next].kind)
    decreases |ts| - p, 14
  {
    var l :- ParseAdd(ts, p);
    RelRest(ts, l.next, l.value)
  }

  /** The relational operator a token stands for. */
  function RelOp(k: Kind): Option<BinaryOp> {
    match k
    case EQ => Some(EQ_OP)
    case NEQ => Some(NEQ_OP)
    case LT => Some(LT_OP)
    case GT => Some(GT_OP)
    case LE => Some(LE_OP)
    case GE => Some(GE_OP)
    case _ => None
  }

  function RelRest(ts: seq<Token>, p: nat, left: Exp): (r: Result<Parsed<Exp>>)
    requires ValidStream(ts) && At(ts, p) && !AddStop(ts[p].kind)
    ensures Keeps(ts, p, r)
    ensures r.Ok? ==> !RelStop(ts[r.value.next].kind)
    decreases |ts| - p, 13
  {
    if !IsAtEnd(ts, p) && RelOp(ts[p].kind).Some? then
      var s :- RelStep(ts, p, left);
      RelRest(ts, s.next, s.value)
    else Ok(Parsed(left, p))
  }

  function RelStep(ts: seq<Token>, p: nat, left: Exp): (r: Result<Parsed<Exp>>)
    requires ValidStream(ts) && At(ts, p) && !IsAtEnd(ts, p) && RelOp(ts[p].kind).Some?
    ensures Advances(ts, p, r)
    ensures r.Ok? ==> !AddStop(ts[r.value.next].kind)
    decreases |ts| - p, 12
  {
    var q :- Advance(ts, p);
    var rhs :- ParseAdd(ts, q);
    Ok(Parsed(BinaryExp(left, rhs.value, RelOp(ts[p].kind).value), rhs.next))
  }

  function ParseAdd(ts: seq<Token>, p: nat): (r: Result<Parsed<Exp>>)
    requires ValidStream(ts) && At(ts, p)
    ensures Advances(ts, p, r)
    ensures r.Ok? ==> !AddStop(ts[r.value.next].kind)
    decreases |ts| - p, 12
  {
    var l :- ParseMul(ts, p);
    AddRest(ts, l.next, l.value)
  }

  function AddRest(ts: seq<Token>, p: nat, left: Exp): (r: Result<Parsed<Exp>>)
    requires ValidStream(ts) && At(ts, p) && !MulStop(ts[p].kind)
    ensures Keeps(ts, p, r)
    ensures r.Ok? ==> !AddStop(ts[r.value.next].kind)
    decreases |ts| - p, 11
  {
    if Check(ts, p, PLUS) || Check(ts, p, MINUS) then
      var s :- AddStep(ts, p, left);
      AddRest(ts, s.next, s.value)
    else Ok(Parsed(left, p))
  }

  function AddStep(ts: seq<Token>, p: nat, left: Exp): (r: Result<Parsed<Exp>>)
    requires ValidStream(ts) && At(ts, p) && (Check(ts, p, PLUS) || Check(ts, p, MINUS))
    ensures Advances(ts, p, r)
    ensures r.Ok? ==> !MulStop(ts[r.value.next].kind)
    decreases |ts| - p, 10
  {
    var q :- Advance(ts, p);
    var rhs :- ParseMul(ts, q);
    var op := if ts[p].kind == PLUS then PLUS_OP else MINUS_OP;
    Ok(Parsed(BinaryExp(left, rhs.value, op), rhs.next))
  }

  function ParseMul(ts: seq<Token>, p: nat): (r: Result<Parsed<Exp>>)
    requires ValidStream(ts) && At(ts, p)
    ensures Advances(ts, p, r)
    ensures r.Ok? ==> !MulStop(ts[r.value.next].kind)
    decreases |ts| - p, 10
  {
    var l :- ParseUnary(ts, p);
    MulRest(ts, l.next, l.value)
  }

  function MulRest(ts: seq<Token>, p: nat, left: Exp): (r: Result<Parsed<Exp>>)
    requires ValidStream(ts) && At(ts, p) && !PostfixStop(ts[p].kind)
    ensures Keeps(ts, p, r)
    ensures r.Ok? ==> !MulStop(ts[r.value.next].kind)
    decreases |ts| - p, 9
  {
    if Check(ts, p, MUL) || Check(ts, p, DIV) then
      var s :- MulStep(ts, p, left);
      MulRest(ts, s.next, s.value)
    else Ok(Parsed(left, p))
  }

  function MulStep(ts: seq<Token>, p: nat, left: Exp): (r: Result<Parsed<Exp>>)
    requires ValidStream(ts) && At(ts, p) && (Check(ts, p, MUL) || Check(ts, p, DIV))
    ensures Advances(ts, p, r)
    ensures r.Ok? ==> !PostfixStop(ts[r.value.next].kind)
    decreases |ts| - p, 8
  {
    var q :- Advance(ts, p);
    var rhs :- ParseUnary(ts, q);
    var op := if ts[p].kind == MUL then MUL_OP else DIV_OP;
    Ok(Parsed(BinaryExp(left, rhs.value, op), rhs.next))
  }

  /** Prefix `!`, `-` and `+` are consumed and dropped. */
  function ParseUnary(ts: seq<Token>, p: nat): (r: Result<Parsed<Exp>>)
    requires ValidStream(ts) && At(ts, p)
    ensures Advances(ts, p, r)
    ensures r.Ok? ==> !PostfixStop(ts[r.value.next].kind)
    decreases |ts| - p, 8
  {
    if Check(ts, p, NOT) || Check(ts, p, MINUS) || Check(ts, p, PLUS) then
      var q :- Advance(ts, p);
      ParseUnary(ts, q)
    else ParsePostfix(ts, p)
  }

  function ParsePostfix(ts: seq<Token>, p: nat): (r: Result<Parsed<Exp>>)
    requires ValidStream(ts) && At(ts, p)
    ensures Advances(ts, p, r)
    ensures r.Ok? ==> !PostfixStop(ts[r.value.next].kind)
    decreases |ts| - p, 7
  {
    var prim :- ParsePrimary(ts, p);
    PostfixRest(ts, prim.next, prim.value)
  }

  /** The postfix loop goes on at `.`, `[` and `(`, and at `{` after an
      identifier; a `{` after anything else is left alone. */
  predicate PostfixContinues(ts: seq<Token>, p: nat, primary: Exp)
    requires p < |ts|
  {
    Check(ts, p, DOT) || Check(ts, p, LBRACKET) || Check(ts, p, LPAREN)
    || (Check(ts, p, LBRACE) && primary.IdExp?)
  }

  function PostfixRest(ts: seq<Token>, p: nat, primary: Exp): (r: Result<Parsed<Exp>>)
    requires ValidStream(ts) && At(ts, p)
    ensures Keeps(ts, p, r)
    ensures r.Ok? ==> !PostfixStop(ts[r.value.next].kind)
    decreases |ts| - p, 6
  {
    if PostfixContinues(ts, p, primary) then
      var s :- PostfixStep(ts, p, primary);
      PostfixRest(ts, s.next, s.value)
    else Ok(Parsed(primary, p))
  }

  /** One turn of the postfix loop. */
  function PostfixStep(ts: seq<Token>, p: nat, primary: Exp): (r: Result<Parsed<Exp>>)
    requires ValidStream(ts) && At(ts, p) && PostfixContinues(ts, p, primary)
    ensures Advances(ts, p, r)
    decreases |ts| - p, 5
  {
    if Check(ts, p, DOT) then FieldSuffix(ts, p, primary)
    else if Check(ts, p, LBRACKET) then IndexSuffix(ts, p, primary)
    else if Check(ts, p, LPAREN) then CallSuffix(ts, p, primary)
    else StructInitSuffix(ts, p, primary.name)
  }

  /** `.field`. */
  function FieldSuffix(ts: seq<Token>, p: nat, primary: Exp): (r: Result<Parsed<Exp>>)
    requires ValidStream(ts) && At(ts, p) && Check(ts, p, DOT)
    ensures Advances(ts, p, r)
    ensures r.Ok? ==> r.value.next == p + 2 && r.value.value == FieldAccessExp(primary, ts[p + 1].text)
  {
    var q :- Advance(ts, p);
    var q1 :- Consume(ts, q, IDENTIFIER, "identificador tras '.'");
    Ok(Parsed(FieldAccessExp(primary, ts[q].text), q1))
  }

  /** `[index]`. */
  function IndexSuffix(ts: seq<Token>, p: nat, primary: Exp): (r: Result<Parsed<Exp>>)
    requires ValidStream(ts) && At(ts, p) && Check(ts, p, LBRACKET)
    ensures Advances(ts, p, r)
    ensures r.Ok? ==> r.value.value.ArrayAccessExp? && r.value.value.base == primary
    decreases |ts| - p, 4
  {
    var q :- Advance(ts, p);
    var index :- ParseExpression(ts, q);
    var q1 :- Consume(ts, index.next, RBRACKET, "] en indexaci\U{F3}n");
    Ok(Parsed(ArrayAccessExp(primary, index.value), q1))
  }

  /** `callee(args)`: the callee must be an identifier. */
  function CallSuffix(ts: seq<Token>, p: nat, primary: Exp): (r: Result<Parsed<Exp>>)
    requires ValidStream(ts) && At(ts, p) && Check(ts, p, LPAREN)
    ensures Advances(ts, p, r)
    ensures r.Ok? ==> primary.IdExp? && r.value.value.FcallExp? && r.value.value.nombre == primary.name
    decreases |ts| - p, 4
  {
    var q :- Advance(ts, p);
    if !primary.IdExp? then Err("Llamada a funci\U{F3}n requiere identificador")
    else
      var args :- CallArgs(ts, q);
      var q1 :- Consume(ts, args.next, RPAREN, ") cierre llamada");
      Ok(Parsed(FcallExp(primary.name, args.value), q1))
  }

  /** The arguments of a call: none when `)` follows at once. */
  function CallArgs(ts: seq<Token>, p: nat): (r: Result<Parsed<seq<Exp>>>)
    requires ValidStream(ts) && At(ts, p)
    ensures Keeps(ts, p, r)
    ensures r.Ok? && ts[p].kind == RPAREN ==> r.value == Parsed([], p)
    ensures r.Ok? && ts[p].kind != RPAREN ==> |r.value.value| >= 1
    decreases |ts| - p, 23
  {
    if Check(ts, p, RPAREN) then Ok(Parsed([], p)) else ParseArgs(ts, p)
  }

  /** `Name { field: expr, ... }`. */
  function StructInitSuffix(ts: seq<Token>, p: nat, name: string): (r: Result<Parsed<Exp>>)
    requires ValidStream(ts) && At(ts, p) && Check(ts, p, LBRACE)
    ensures Advances(ts, p, r)
    ensures r.Ok? ==> r.value.value.StructInitExp? && r.value.value.sname == name
    decreases |ts| - p, 4
  {
    var q :- Advance(ts, p);
    var inits :- InitList(ts, q);
    var q1 :- Consume(ts, inits.next, RBRACE, "} cierre struct init");
    Ok(Parsed(StructInitExp(name, inits.value), q1))
  }

  /** The field initialisers of a struct literal: none when `}` follows
      at once. */
  function InitList(ts: seq<Token>, p: nat): (r: Result<Parsed<seq<FieldInit>>>)
    requires ValidStream(ts) && At(ts, p)
    ensures Keeps(ts, p, r)
    ensures r.Ok? && ts[p].kind == RBRACE ==> r.value == Parsed([], p)
    ensures r.Ok? && ts[p].kind != RBRACE ==> |r.value.value| >= 1
    decreases |ts| - p, 23
  {
    if Check(ts, p, RBRACE) then Ok(Parsed([], p)) else InitItem(ts, p, [])
  }

  /** A non-empty, comma-separated argument list. */
  function ParseArgs(ts: seq<Token>, p: nat): (r: Result<Parsed<seq<Exp>>>)
    requires ValidStream(ts) && At(ts, p)
    ensures Advances(ts, p, r)
    ensures r.Ok? ==> |r.value.value| >= 1
    decreases |ts| - p, 22
  {
    var first :- ParseExpression(ts, p);
    ArgsRest(ts, first.next, [first.value])
  }

  function ArgsRest(ts: seq<Token>, p: nat, acc: seq<Exp>): (r: Result<Parsed<seq<Exp>>>)
    requires ValidStream(ts) && At(ts, p)
    ensures Keeps(ts, p, r)
    ensures r.Ok? ==> |r.value.value| >= |acc|
    decreases |ts| - p, 21
  {
    if Check(ts, p, COMMA) then
      var e :- CommaExpression(ts, p);
      ArgsRest(ts, e.next, acc + [e.value])
    else Ok(Parsed(acc, p))
  }

  /** `, expr`. */
  function CommaExpression(ts: seq<Token>, p: nat): (r: Result<Parsed<Exp>>)
    requires ValidStream(ts) && At(ts, p) && Check(ts, p, COMMA)
    ensures Advances(ts, p, r)
    decreases |ts| - p, 20
  {
    var q :- Advance(ts, p);
    ParseExpression(ts, q)
  }

  /** `name: expr`, then the initialisers after it; the `do ... while
      (match(COMMA))` loop over initialisers. */
  function InitItem(ts: seq<Token>, p: nat, acc: seq<FieldInit>): (r: Result<Parsed<seq<FieldInit>>>)
    requires ValidStream(ts) && At(ts, p)
    ensures Advances(ts, p, r)
    ensures r.Ok? ==> |r.value.value| > |acc|
    decreases |ts| - p, 22
  {
    var q :- Consume(ts, p, IDENTIFIER, "nombre campo struct");
    var q1 :- Consume(ts, q, COLON, ": en campo struct");
    var v :- ParseExpression(ts, q1);
    InitsRest(ts, v.next, acc + [FieldInit(ts[p].text, v.value)])
  }

  /** `, name: expr ...` or nothing. */
  function InitsRest(ts: seq<Token>, p: nat, acc: seq<FieldInit>): (r: Result<Parsed<seq<FieldInit>>>)
    requires ValidStream(ts) && At(ts, p)
    ensures Keeps(ts, p, r)
    ensures r.Ok? ==> |r.value.value| >= |acc|
    ensures r.Ok? && ts[p].kind != COMMA ==> r.value == Parsed(acc, p)
    decreases |ts| - p, 21
  {
    if Check(ts, p, COMMA) then
      var q :- Advance(ts, p);
      InitItem(ts, q, acc)
    else Ok(Parsed(acc, p))
  }

  predicate IsLiteralKind(k: Kind) {
    k == NUMBER || k == TRUE || k == FALSE || k == IDENTIFIER
  }

  /** The leaf a single-token primary becomes. A NUMBER with a dot is a
      double literal; any other NUMBER is read with `stoll`, which fails on
      a numeral out of range. */
  function Literal(t: Token): (r: Result<Exp>)
    requires IsLiteralKind(t.kind)
    ensures t.kind == NUMBER && '.' in t.text ==> r == Ok(FloatExp(t.text, true))
    ensures t.kind == NUMBER && '.' !in t.text ==>
              r == (if Stoll(t.text).Some? then Ok(NumberExp(Stoll(t.text).value)) else Err("stoll"))
    ensures t.kind == TRUE ==> r == Ok(BoolExp(1))
    ensures t.kind == FALSE ==> r == Ok(BoolExp(0))
    ensures t.kind == IDENTIFIER ==> r == Ok(IdExp(t.text))
  {
    match t.kind
    case NUMBER =>
      if '.' in t.text then Ok(FloatExp(t.text, true))
      else (match Stoll(t.text)
            case Some(v) => Ok(NumberExp(v))
            case None => Err("stoll"))
    case TRUE => Ok(BoolExp(1))
    case FALSE => Ok(BoolExp(0))
    case IDENTIFIER => Ok(IdExp(t.text))
  }

  function ParsePrimary(ts: seq<Token>, p: nat): (r: Result<Parsed<Exp>>)
    requires ValidStream(ts) && At(ts, p)
    ensures Advances(ts, p, r)
    decreases |ts| - p, 5
  {
    if !IsAtEnd(ts, p) && IsLiteralKind(ts[p].kind) then LiteralPrimary(ts, p)
    else if Check(ts, p, LPAREN) then ParenExpression(ts, p)
    else Err("Expresi\U{F3}n primaria inesperada")
  }

  /** A number, `true`, `false` or an identifier. */
  function LiteralPrimary(ts: seq<Token>, p: nat): (r: Result<Parsed<Exp>>)
    requires ValidStream(ts) && At(ts, p) && IsLiteralKind(ts[p].kind)
    ensures r.Ok? ==> r.value.next == p + 1 && At(ts, p + 1)
    ensures r.Ok? ==> Literal(ts[p]) == Ok(r.value.value)
  {
    var q :- Advance(ts, p);
    var e :- Literal(ts[p]);
    Ok(Parsed(e, q))
  }

  /** `( expr )`: the parentheses leave no node behind. */
  function ParenExpression(ts: seq<Token>, p: nat): (r: Result<Parsed<Exp>>)
    requires ValidStream(ts) && At(ts, p) && Check(ts, p, LPAREN)
    ensures Advances(ts, p, r)
    ensures r.Ok? ==> ts[r.value.next - 1].kind == RPAREN
    decreases |ts| - p, 4
  {
    var q :- Advance(ts, p);
    var e :- ParseExpression(ts, q);
    var q1 :- Consume(ts, e.next, RPAREN, ") cierre");
    Ok(Parsed(e.value, q1))
  }

  // ---------------------------------------------------------------
  // Statements and blocks
  // ---------------------------------------------------------------

  /** `{ statements }`. */
  function ParseBlock(ts: seq<Token>, p: nat): (r: Result<Parsed<seq<Stm>>>)
    requires ValidStream(ts) && At(ts, p)
    ensures Advances(ts, p, r)
    ensures r.Ok? ==> ts[p].kind == LBRACE && ts[r.value.next - 1].kind == RBRACE
    decreases |ts| - p, 29
  {
    var q :- Consume(ts, p, LBRACE, "'{' bloque");
    BlockBody(ts, q)
  }

  /** The statements of a block and its closing `}`. */
  function BlockBody(ts: seq<Token>, p: nat): (r: Result<Parsed<seq<Stm>>>)
    requires ValidStream(ts) && At(ts, p)
    ensures Advances(ts, p, r)
    ensures r.Ok? ==> ts[r.value.next - 1].kind == RBRACE
    decreases |ts| - p, 32
  {
    var items :- BlockItems(ts, p, []);
    var q :- Consume(ts, items.next, RBRACE, "'}' bloque");
    Ok(Parsed(items.value, q))
  }

  function BlockItems(ts: seq<Token>, p: nat, acc: seq<Stm>): (r: Result<Parsed<seq<Stm>>>)
    requires ValidStream(ts) && At(ts, p)
    ensures Keeps(ts, p, r)
    decreases |ts| - p, 31
  {
    if !Check(ts, p, RBRACE) && !IsAtEnd(ts, p) then
      var s :- ParseStatement(ts, p);
      BlockItems(ts, s.next, acc + [s.value])
    else Ok(Parsed(acc, p))
  }

  /** A statement, chosen by its first token. */
  function ParseStatement(ts: seq<Token>, p: nat): (r: Result<Parsed<Stm>>)
    requires ValidStream(ts) && At(ts, p)
    ensures Advances(ts, p, r)
    decreases |ts| - p, 30
  {
    if Check(ts, p, LET) then ParseVarDecl(ts, p)
    else if Check(ts, p, IF) then ParseIf(ts, p)
    else if Check(ts, p, WHILE) then ParseWhile(ts, p)
    else if Check(ts, p, FOR) then ParseFor(ts, p)
    else if Check(ts, p, RETURN) then ParseReturn(ts, p)
    else if Check(ts, p, PRINTLN) then ParsePrint(ts, p)
    else if Check(ts, p, LBRACE) then
      var b :- ParseBlock(ts, p);
      Ok(Parsed(BlockStm(b.value), b.next))
    else ExpressionStatement(ts, p)
  }

  /** An expression statement ends with `;` (and becomes an assignment to
      `_`) or is the last thing before `}` (and becomes a return). */
  function ExpressionStatement(ts: seq<Token>, p: nat): (r: Result<Parsed<Stm>>)
    requires ValidStream(ts) && At(ts, p)
    ensures Advances(ts, p, r)
    decreases |ts| - p, 29
  {
    var e :- ParseExpression(ts, p);
    StatementEnd(ts, e.next, e.value)
  }

  const ExprEndError := "Error sint\U{E1}ctico: se esperaba ';' o fin de bloque tras expresi\U{F3}n"

  /** What an expression statement becomes, by the token after it. */
  function StatementEnd(ts: seq<Token>, p: nat, e: Exp): (r: Result<Parsed<Stm>>)
    requires ValidStream(ts) && At(ts, p)
    ensures Keeps(ts, p, r)
    ensures r.Ok? <==> (Check(ts, p, SEMICOL) && ts[p + 1].kind != ERR) || Check(ts, p, RBRACE)
    ensures r.Ok? && ts[p].kind == SEMICOL ==> r.value == Parsed(AssignStm("_", e), p + 1)
    ensures r.Ok? && ts[p].kind == RBRACE ==> r.value == Parsed(ReturnStm(Some(e)), p)
  {
    if Check(ts, p, SEMICOL) then
      var q :- Advance(ts, p);
      Ok(Parsed(AssignStm("_", e), q))
    else if Check(ts, p, RBRACE) then
      Ok(Parsed(ReturnStm(Some(e)), p))
    else Err(ExprEndError)
  }

  function ParseVarDecl(ts: seq<Token>, p: nat): (r: Result<Parsed<Stm>>)
    requires ValidStream(ts) && At(ts, p)
    ensures Advances(ts, p, r)
    ensures r.Ok? ==> r.value.value.LetStm?
    decreases |ts| - p, 29
  {
    var q :- Consume(ts, p, LET, "'let'");
    var q1 :- Match(ts, q, MUT);
    LetName(ts, q1, q1 != q)
  }

  /** `name :`, after `let` and the optional `mut`. */
  function LetName(ts: seq<Token>, p: nat, mutable: bool): (r: Result<Parsed<Stm>>)
    requires ValidStream(ts) && At(ts, p)
    ensures Advances(ts, p, r)
    ensures r.Ok? ==> r.value.value.LetStm? && r.value.value.mutable_flag == mutable && r.value.value.lname == ts[p].text
  {
    var q :- Consume(ts, p, IDENTIFIER, "nombre variable");
    var q1 :- Consume(ts, q, COLON, ": en declaraci\U{F3}n");
    LetTail(ts, q1, mutable, ts[p].text)
  }

  /** The part of a `let` after the colon: type, optional initialiser, `;`. */
  function LetTail(ts: seq<Token>, p: nat, mutable: bool, name: string): (r: Result<Parsed<Stm>>)
    requires ValidStream(ts) && At(ts, p)
    ensures Advances(ts, p, r)
    ensures r.Ok? ==> r.value.value.LetStm? && r.value.value.mutable_flag == mutable && r.value.value.lname == name
  {
    var ty :- ParseTypeName(ts, p, "Tipo esperado en declaraci\U{F3}n", "tama\U{F1}o array");
    LetEnd(ts, ty.next, mutable, name, ty.value)
  }

  /** The optional initialiser and the `;` of a `let`. */
  function LetEnd(ts: seq<Token>, p: nat, mutable: bool, name: string, typeName: string): (r: Result<Parsed<Stm>>)
    requires ValidStream(ts) && At(ts, p)
    ensures Advances(ts, p, r)
    ensures r.Ok? ==> r.value.value.LetStm? && r.value.value.mutable_flag == mutable && r.value.value.lname == name
    ensures r.Ok? ==> r.value.value.type_name == typeName
  {
    var init :- ParseInit(ts, p);
    var q :- Consume(ts, init.next, SEMICOL, "; final declaraci\U{F3}n");
    Ok(Parsed(LetStm(mutable, name, typeName, init.value), q))
  }

  /** The optional `= expr` of a `let`. */
  function ParseInit(ts: seq<Token>, p: nat): (r: Result<Parsed<Option<Exp>>>)
    requires ValidStream(ts) && At(ts, p)
    ensures Keeps(ts, p, r)
    ensures r.Ok? ==> (r.value.value.Some? <==> ts[p].kind == ASSIGN)
    decreases |ts| - p, 21
  {
    if Check(ts, p, ASSIGN) then
      var q :- Advance(ts, p);
      var e :- ParseExpression(ts, q);
      Ok(Parsed(Some(e.value), e.next))
    else Ok(Parsed(None, p))
  }

  /** A condition, with or without parentheses around it. */
  function ParseCondition(ts: seq<Token>, p: nat, closeWhat: string): (r: Result<Parsed<Exp>>)
    requires ValidStream(ts) && At(ts, p)
    ensures Advances(ts, p, r)
    decreases |ts| - p, 21
  {
    if Check(ts, p, LPAREN) then
      var q :- Advance(ts, p);
      var e :- ParseExpression(ts, q);
      var q1 :- Consume(ts, e.next, RPAREN, closeWhat);
      Ok(Parsed(e.value, q1))
    else ParseExpression(ts, p)
  }

  function ParseIf(ts: seq<Token>, p: nat): (r: Result<Parsed<Stm>>)
    requires ValidStream(ts) && At(ts, p)
    ensures Advances(ts, p, r)
    ensures r.Ok? ==> r.value.value.IfStm?
    decreases |ts| - p, 29
  {
    var q :- Consume(ts, p, IF, "'if'");
    var cond :- ParseCondition(ts, q, ") en if");
    IfBranches(ts, cond.next, cond.value)
  }

  /** The blocks of an `if`, after its condition. */
  function IfBranches(ts: seq<Token>, p: nat, cond: Exp): (r: Result<Parsed<Stm>>)
    requires ValidStream(ts) && At(ts, p)
    ensures Advances(ts, p, r)
    ensures r.Ok? ==> r.value.value.IfStm? && r.value.value.condition == cond
    decreases |ts| - p, 30
  {
    var thenB :- ParseBlock(ts, p);
    var elseB :- ElseBranch(ts, thenB.next);
    Ok(Parsed(IfStm(cond, thenB.value, elseB.value), elseB.next))
  }

  /** The optional `else { ... }` of an `if`. */
  function ElseBranch(ts: seq<Token>, p: nat): (r: Result<Parsed<ElseBlock>>)
    requires ValidStream(ts) && At(ts, p)
    ensures Keeps(ts, p, r)
    ensures r.Ok? ==> (r.value.value.Else? <==> ts[p].kind == ELSE)
    decreases |ts| - p, 29
  {
    if Check(ts, p, ELSE) then
      var q :- Advance(ts, p);
      var b :- ParseBlock(ts, q);
      Ok(Parsed(Else(b.value), b.next))
    else Ok(Parsed(NoElse, p))
  }

  function ParseWhile(ts: seq<Token>, p: nat): (r: Result<Parsed<Stm>>)
    requires ValidStream(ts) && At(ts, p)
    ensures Advances(ts, p, r)
    ensures r.Ok? ==> r.value.value.WhileStm?
    decreases |ts| - p, 29
  {
    var q :- Consume(ts, p, WHILE, "'while'");
    var cond :- ParseCondition(ts, q, ") en while");
    var body :- ParseBlock(ts, cond.next);
    Ok(Parsed(WhileStm(cond.value, body.value), body.next))
  }

  function ParseFor(ts: seq<Token>, p: nat): (r: Result<Parsed<Stm>>)
    requires ValidStream(ts) && At(ts, p)
    ensures Advances(ts, p, r)
    ensures r.Ok? ==> r.value.value.ForStm?
    decreases |ts| - p, 29
  {
    var q :- Consume(ts, p, FOR, "'for'");
    var q1 :- Consume(ts, q, IDENTIFIER, "iterador for");
    ForRange(ts, q1, ts[q].text)
  }

  /** `in start ..`, after `for it`. */
  function ForRange(ts: seq<Token>, p: nat, it: string): (r: Result<Parsed<Stm>>)
    requires ValidStream(ts) && At(ts, p)
    ensures Advances(ts, p, r)
    ensures r.Ok? ==> r.value.value.ForStm? && r.value.value.iteratorName == it
    decreases |ts| - p, 29
  {
    var q :- Consume(ts, p, IN, "'in' en for");
    var start :- ParseExpression(ts, q);
    var q1 :- Consume(ts, start.next, DOTDOT, "'..' rango for");
    ForBody(ts, q1, it, start.value)
  }

  /** `end { body }`, after `for it in start ..`. */
  function ForBody(ts: seq<Token>, p: nat, it: string, start: Exp): (r: Result<Parsed<Stm>>)
    requires ValidStream(ts) && At(ts, p)
    ensures Advances(ts, p, r)
    ensures r.Ok? ==> r.value.value.ForStm? && r.value.value.iteratorName == it && r.value.value.start == start
    decreases |ts| - p, 29
  {
    var end :- ParseExpression(ts, p);
    var body :- ParseBlock(ts, end.next);
    Ok(Parsed(ForStm(it, start, end.value, body.value), body.next))
  }

  function ParseReturn(ts: seq<Token>, p: nat): (r: Result<Parsed<Stm>>)
    requires ValidStream(ts) && At(ts, p)
    ensures Advances(ts, p, r)
    ensures r.Ok? ==> r.value.value.ReturnStm?
    decreases |ts| - p, 29
  {
    var q :- Consume(ts, p, RETURN, "'return'");
    var e :- ReturnValue(ts, q);
    var q1 :- Consume(ts, e.next, SEMICOL, "; en return");
    Ok(Parsed(ReturnStm(e.value), q1))
  }

  /** The optional expression of a `return`: absent when `;` follows. */
  function ReturnValue(ts: seq<Token>, p: nat): (r: Result<Parsed<Option<Exp>>>)
    requires ValidStream(ts) && At(ts, p)
    ensures Keeps(ts, p, r)
    ensures r.Ok? ==> (r.value.value.None? <==> Check(ts, p, SEMICOL))
  {
    if !Check(ts, p, SEMICOL) then
      var x :- ParseExpression(ts, p);
      Ok(Parsed(Some(x.value), x.next))
    else Ok(Parsed(None, p))
  }

  /** `println!(fmt, e1, e2, ...)`: the format string is skipped and only
      the first expression is kept. */
  function ParsePrint(ts: seq<Token>, p: nat): (r: Result<Parsed<Stm>>)
    requires ValidStream(ts) && At(ts, p)
    ensures Advances(ts, p, r)
    ensures r.Ok? ==> r.value.value.PrintStm?
    decreases |ts| - p, 29
  {
    var q :- Consume(ts, p, PRINTLN, "'println!'");
    var q1 :- Consume(ts, q, LPAREN, "'(' en println");
    PrintTail(ts, q1)
  }

  /** The optional format string, the arguments, `)` and `;`. */
  function PrintTail(ts: seq<Token>, p: nat): (r: Result<Parsed<Stm>>)
    requires ValidStream(ts) && At(ts, p)
    ensures Advances(ts, p, r)
    ensures r.Ok? ==> r.value.value.PrintStm?
  {
    var q :- Match(ts, p, STRING_LITERAL);
    var first :- PrintArgs(ts, q);
    PrintEnd(ts, first.next, first.value)
  }

  /** The `)` and `;` closing a `println!`. */
  function PrintEnd(ts: seq<Token>, p: nat, first: Option<Exp>): (r: Result<Parsed<Stm>>)
    requires ValidStream(ts) && At(ts, p)
    ensures Advances(ts, p, r)
    ensures r.Ok? ==> r.value.next == p + 2 && r.value.value == PrintStm(first)
  {
    var q :- Consume(ts, p, RPAREN, ") en println");
    var q1 :- Consume(ts, q, SEMICOL, "; en println");
    Ok(Parsed(PrintStm(first), q1))
  }

  /** `, e1, e2, ...` after the format string: the first expression is
      kept, the others are parsed and dropped. */
  function PrintArgs(ts: seq<Token>, p: nat): (r: Result<Parsed<Option<Exp>>>)
    requires ValidStream(ts) && At(ts, p)
    ensures Keeps(ts, p, r)
    ensures r.Ok? ==> (r.value.value.Some? <==> ts[p].kind == COMMA)
    decreases |ts| - p, 23
  {
    if Check(ts, p, COMMA) then
      var x :- CommaExpression(ts, p);
      var q1 :- SkipExpressions(ts, x.next);
      Ok(Parsed(Some(x.value), q1))
    else Ok(Parsed(None, p))
  }

  /** The extra `, expr` arguments of `println!`, parsed and dropped. */
  function SkipExpressions(ts: seq<Token>, p: nat): (r: Result<nat>)
    requires ValidStream(ts) && At(ts, p)
    ensures r.Ok? ==> p <= r.value && At(ts, r.value)
    decreases |ts| - p, 21
  {
    if Check(ts, p, COMMA) then
      var x :- CommaExpression(ts, p);
      SkipExpressions(ts, x.next)
    else Ok(p)
  }

  // ---------------------------------------------------------------
  // Items and the program
  // ---------------------------------------------------------------

  /** The parameter list `name: Type, ...` (possibly empty), as the
      names and the types side by side. */
  function ParseParams(ts: seq<Token>, p: nat): (r: Result<Parsed<(seq<string>, seq<string>)>>)
    requires ValidStream(ts) && At(ts, p)
    ensures Keeps(ts, p, r)
    ensures r.Ok? ==> |r.value.value.0| == |r.value.value.1|
  {
    if Check(ts, p, IDENTIFIER) then
      var q :- Consume(ts, p, IDENTIFIER, "param nombre");
      var q1 :- Consume(ts, q, COLON, ":");
      var ty :- ParseBaseType(ts, q1, "Tipo de primer par\U{E1}metro esperado");
      ParamsRest(ts, ty.next, [ts[p].text], [ty.value])
    else Ok(Parsed(([], []), p))
  }

  function ParamsRest(ts: seq<Token>, p: nat, names: seq<string>, types: seq<string>)
    : (r: Result<Parsed<(seq<string>, seq<string>)>>)
    requires ValidStream(ts) && At(ts, p) && |names| == |types|
    ensures Keeps(ts, p, r)
    ensures r.Ok? ==> |r.value.value.0| == |r.value.value.1| >= |names|
    ensures r.Ok? && ts[p].kind != COMMA ==> r.value == Parsed((names, types), p)
    decreases |ts| - p, 1
  {
    if Check(ts, p, COMMA) then ParamStep(ts, p, names, types)
    else Ok(Parsed((names, types), p))
  }

  /** `, name: Type`, then the parameters after it. */
  function ParamStep(ts: seq<Token>, p: nat, names: seq<string>, types: seq<string>)
    : (r: Result<Parsed<(seq<string>, seq<string>)>>)
    requires ValidStream(ts) && At(ts, p) && Check(ts, p, COMMA) && |names| == |types|
    ensures Advances(ts, p, r)
    ensures r.Ok? ==> |r.value.value.0| == |r.value.value.1| > |names|
    decreases |ts| - p, 0
  {
    var q :- Advance(ts, p);
    var q1 :- Consume(ts, q, IDENTIFIER, "param nombre");
    var q2 :- Consume(ts, q1, COLON, ":");
    var ty :- ParseBaseType(ts, q2, "Tipo esperado en par\U{E1}metro");
    ParamsRest(ts, ty.next, names + [ts[q].text], types + [ty.value])
  }

  /** `fn name(params) [-> Type] { ... }`: the return type defaults to
      "void" and the body is the one block, with no declarations. */
  function ParseFunction(ts: seq<Token>, p: nat): (r: Result<Parsed<FunDec>>)
    requires ValidStream(ts) && At(ts, p)
    ensures Advances(ts, p, r)
    ensures r.Ok? ==> |r.value.value.cuerpo.stmlist| == 1 && r.value.value.cuerpo.stmlist[0].BlockStm?
    ensures r.Ok? ==> r.value.value.cuerpo.vdlist == []
    ensures r.Ok? ==> |r.value.value.Tparametros| == |r.value.value.Nparametros|
  {
    var q :- Consume(ts, p, FN, "'fn'");
    var q1 :- Consume(ts, q, IDENTIFIER, "nombre de funci\U{F3}n");
    var q2 :- Consume(ts, q1, LPAREN, "'('");
    var params :- ParseParams(ts, q2);
    FunctionTail(ts, params.next, ts[q].text, params.value)
  }

  /** The `)` closing the parameters, the optional return type and the
      body of a function. */
  function FunctionTail(ts: seq<Token>, p: nat, name: string, params: (seq<string>, seq<string>))
    : (r: Result<Parsed<FunDec>>)
    requires ValidStream(ts) && At(ts, p)
    ensures Advances(ts, p, r)
    ensures r.Ok? ==> r.value.value.nombre == name
    ensures r.Ok? ==> r.value.value.Nparametros == params.0 && r.value.value.Tparametros == params.1
    ensures r.Ok? ==> |r.value.value.cuerpo.stmlist| == 1 && r.value.value.cuerpo.stmlist[0].BlockStm?
    ensures r.Ok? ==> r.value.value.cuerpo.vdlist == []
  {
    var q :- Consume(ts, p, RPAREN, "')'");
    var ret :- ParseReturnType(ts, q);
    var body :- ParseBlock(ts, ret.next);
    Ok(Parsed(FunDec(ret.value, name, params.1, params.0, Body([BlockStm(body.value)], [])), body.next))
  }

  const ReturnTypeExpected := "Tipo de retorno esperado tras '->'"

  /** `-> Type`, or "void" when there is no arrow. */
  function ParseReturnType(ts: seq<Token>, p: nat): (r: Result<Parsed<string>>)
    requires ValidStream(ts) && At(ts, p)
    ensures r.Ok? ==> At(ts, r.value.next)
                      && r.value == if ts[p].kind == ARROW then Parsed(ts[p + 1].text, p + 2) else Parsed("void", p)
  {
    if Check(ts, p, ARROW) then
      match Advance(ts, p)
      case Err(e) => Err(e)
      case Ok(q) => ParseBaseType(ts, q, ReturnTypeExpected)
    else Ok(Parsed("void", p))
  }

  function ParseStruct(ts: seq<Token>, p: nat): (r: Result<Parsed<StructDec>>)
    requires ValidStream(ts) && At(ts, p)
    ensures Advances(ts, p, r)
  {
    var q :- Consume(ts, p, STRUCT, "'struct'");
    var q1 :- Consume(ts, q, IDENTIFIER, "nombre de struct");
    var q2 :- Consume(ts, q1, LBRACE, "'{' struct");
    var fields :- StructFields(ts, q2, []);
    var q3 :- Consume(ts, fields.next, RBRACE, "'}' struct");
    Ok(Parsed(StructDec(ts[q].text, fields.value), q3))
  }

  /** Fields `name: Type[N]?;` while the current token is an identifier. */
  function StructFields(ts: seq<Token>, p: nat, acc: seq<(string, string)>)
    : (r: Result<Parsed<seq<(string, string)>>>)
    requires ValidStream(ts) && At(ts, p)
    ensures Keeps(ts, p, r)
    ensures r.Ok? ==> |r.value.value| >= |acc|
    ensures r.Ok? && ts[p].kind != IDENTIFIER ==> r.value == Parsed(acc, p)
    decreases |ts| - p, 1
  {
    if Check(ts, p, IDENTIFIER) then FieldDecl(ts, p, acc)
    else Ok(Parsed(acc, p))
  }

  /** `name: Type;` inside a struct, then the fields after it. */
  function FieldDecl(ts: seq<Token>, p: nat, acc: seq<(string, string)>)
    : (r: Result<Parsed<seq<(string, string)>>>)
    requires ValidStream(ts) && At(ts, p) && Check(ts, p, IDENTIFIER)
    ensures Advances(ts, p, r)
    ensures r.Ok? ==> |r.value.value| > |acc|
    decreases |ts| - p, 0
  {
    var q :- Advance(ts, p);
    var q1 :- Consume(ts, q, COLON, ": en campo struct");
    var ty :- ParseTypeName(ts, q1, "Tipo esperado en campo struct", "tama\U{F1}o array en campo struct");
    var q2 :- Consume(ts, ty.next, SEMICOL, "; tras campo");
    StructFields(ts, q2, acc + [(ts[p].text, ty.value)])
  }

  function ParseTypeAlias(ts: seq<Token>, p: nat): (r: Result<Parsed<TypeAlias>>)
    requires ValidStream(ts) && At(ts, p)
    ensures Advances(ts, p, r)
  {
    var q :- Consume(ts, p, TYPE, "'type'");
    var q1 :- Consume(ts, q, IDENTIFIER, "nombre alias");
    AliasBody(ts, q1, ts[q].text)
  }

  /** `= Type;`, after `type name`. */
  function AliasBody(ts: seq<Token>, p: nat, name: string): (r: Result<Parsed<TypeAlias>>)
    requires ValidStream(ts) && At(ts, p)
    ensures Advances(ts, p, r)
    ensures r.Ok? ==> r.value.value.alias == name
  {
    var q :- Consume(ts, p, ASSIGN, "'=' en alias de tipo");
    var ty :- ParseTypeName(ts, q, "Tipo esperado en alias", "tama\U{F1}o de array");
    var q1 :- Consume(ts, ty.next, SEMICOL, "; final alias");
    Ok(Parsed(TypeAlias(name, ty.value), q1))
  }

  /** Functions, structs and aliases, in any order, until something else. */
  function ParseItems(ts: seq<Token>, p: nat, prog: Program): (r: Result<Parsed<Program>>)
    requires ValidStream(ts) && At(ts, p)
    ensures Keeps(ts, p, r)
    ensures r.Ok? ==> prog.vdlist == r.value.value.vdlist
    ensures r.Ok? ==> !Check(ts, r.value.next, FN) && !Check(ts, r.value.next, STRUCT) && !Check(ts, r.value.next, TYPE)
    decreases |ts| - p, 1
  {
    if Check(ts, p, FN) || Check(ts, p, STRUCT) || Check(ts, p, TYPE) then ItemStep(ts, p, prog)
    else Ok(Parsed(prog, p))
  }

  /** One item, added to the list of its kind, then the items after it. */
  function ItemStep(ts: seq<Token>, p: nat, prog: Program): (r: Result<Parsed<Program>>)
    requires ValidStream(ts) && At(ts, p)
    requires Check(ts, p, FN) || Check(ts, p, STRUCT) || Check(ts, p, TYPE)
    ensures Advances(ts, p, r)
    ensures r.Ok? ==> prog.vdlist == r.value.value.vdlist
    ensures r.Ok? ==> !Check(ts, r.value.next, FN) && !Check(ts, r.value.next, STRUCT) && !Check(ts, r.value.next, TYPE)
    decreases |ts| - p, 0
  {
    var item :- ParseItem(ts, p, prog);
    ParseItems(ts, item.next, item.value)
  }

  /** A function, struct or type alias, appended to the list of its kind. */
  function ParseItem(ts: seq<Token>, p: nat, prog: Program): (r: Result<Parsed<Program>>)
    requires ValidStream(ts) && At(ts, p)
    requires Check(ts, p, FN) || Check(ts, p, STRUCT) || Check(ts, p, TYPE)
    ensures Advances(ts, p, r)
    ensures r.Ok? ==> prog.vdlist == r.value.value.vdlist
  {
    if Check(ts, p, FN) then
      var f :- ParseFunction(ts, p);
      Ok(Parsed(prog.(fdlist := prog.fdlist + [f.value]), f.next))
    else if Check(ts, p, STRUCT) then
      var sd :- ParseStruct(ts, p);
      Ok(Parsed(prog.(sdlist := prog.sdlist + [sd.value]), sd.next))
    else
      var a :- ParseTypeAlias(ts, p);
      Ok(Parsed(prog.(talist := prog.talist + [a.value]), a.next))
  }

  const EmptyProgram := Program([], [], [], [])

  /** `parseProgram`: the items must use up the whole input. */
  function ParseProgram(ts: seq<Token>): (r: Result<Program>)
    requires ValidStream(ts) && At(ts, 0)
    ensures r.Ok? ==> r.value.vdlist == []
    ensures ts[0].kind == END ==> r == Ok(EmptyProgram)
  {
    var items :- ParseItems(ts, 0, EmptyProgram);
    if !IsAtEnd(ts, items.next) then Err("Error sint\U{E1}ctico: tokens restantes tras parseo")
    else Ok(items.value)
  }

  /** What the parser makes of the scanner's tokens: the constructor
      reads the first token, which throws on ERR like any other advance,
      and `parseProgram` does the rest. */
  function ParseTokens(ts: seq<Token>): (r: Result<Program>)
    requires ValidStream(ts)
    ensures r.Ok? ==> ts[0].kind != ERR
  {
    if ts[0].kind == ERR then Err(LexicalError(ts[0].text))
    else ParseProgram(ts)
  }
}
