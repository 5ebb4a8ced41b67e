/** The parser object. The source keeps the scanner and two token
    pointers, `current` and `previous`; here the scanner's output is the
    sequence `tokens`, and `pos` says how far the parser has pulled it, so
    `current` is `tokens[pos]` and `previous` is `tokens[pos - 1]`. There is
    one method per production, and each is proved to compute what the
    matching function of `ParserSpec` computes from the same position. */
module Parsing {
  import opened Wrappers
  import opened Tokens
  import opened Ast
  import opened ParserSpec

  /** A parse result without its end position. */
  function Out<T>(s: Result<Parsed<T>>): Result<T> {
    match s
    case Ok(pv) => Ok(pv.value)
    case Err(m) => Err(m)
  }

  class Parser {
    const tokens: seq<Token>
    var pos: nat

    predicate Valid()
      reads this
    {
      ValidStream(tokens) && At(tokens, pos)
    }

    /** A method's result agrees with the specification's, and on success
        the parser stands where the specification stops. */
    predicate Agrees<T(==)>(r: Result<T>, s: Result<Parsed<T>>)
      reads this
    {
      r == Out(s) && (r.Ok? ==> Valid() && pos == s.value.next)
    }

    function Current(): Token
      reads this
      requires Valid()
    {
      tokens[pos]
    }

    function Previous(): Option<Token>
      reads this
      requires Valid()
    {
      if pos == 0 then None else Some(tokens[pos - 1])
    }

    /** The constructor's `advance` reads the first token; the caller has
        checked that it is not ERR. */
    constructor(ts: seq<Token>)
      requires ValidStream(ts) && ts[0].kind != ERR
      ensures Valid() && tokens == ts && pos == 0
    {
      tokens := ts;
      pos := 0;
    }

    predicate IsAtEnd()
      reads this
      requires Valid()
    {
      ParserSpec.IsAtEnd(tokens, pos)
    }

    predicate Check(k: Kind)
      reads this
      requires Valid()
    {
      ParserSpec.Check(tokens, pos, k)
    }

    method Advance() returns (r: Result<nat>)
      requires Valid() && !IsAtEnd()
      modifies this
      ensures r == ParserSpec.Advance(tokens, old(pos))
      ensures r.Ok? ==> Valid() && pos == r.value
    {
      if tokens[pos + 1].kind == ERR {
        return Err(LexicalError(tokens[pos + 1].text));
      }
      pos := pos + 1;
      return Ok(pos);
    }

    method Match(k: Kind) returns (r: Result<nat>)
      requires Valid()
      modifies this
      ensures r == ParserSpec.Match(tokens, old(pos), k)
      ensures r.Ok? ==> Valid() && pos == r.value
    {
      if Check(k) {
        r := Advance();
        return;
      }
      return Ok(pos);
    }

    method Consume(k: Kind, what: string) returns (r: Result<nat>)
      requires Valid()
      modifies this
      ensures r == ParserSpec.Consume(tokens, old(pos), k, what)
      ensures r.Ok? ==> Valid() && pos == r.value
    {
      if !Check(k) {
        return Err(SyntaxError(what));
      }
      r := Advance();
    }

    method ParseBaseType(err: string) returns (r: Result<string>)
      requires Valid()
      modifies this
      ensures Agrees(r, ParserSpec.ParseBaseType(tokens, old(pos), err))
    {
      if !(!IsAtEnd() && IsTypeKind(Current().kind)) {
        return Err(err);
      }
      var text := Current().text;
      var _ :- Advance();
      return Ok(text);
    }

    method ParseTypeName(err: string, sizeWhat: string) returns (r: Result<string>)
      requires Valid()
      modifies this
      ensures Agrees(r, ParserSpec.ParseTypeName(tokens, old(pos), err, sizeWhat))
    {
      var base :- ParseBaseType(err);
      r := ArraySize(base, sizeWhat);
    }

    method ArraySize(base: string, sizeWhat: string) returns (r: Result<string>)
      requires Valid()
      modifies this
      ensures Agrees(r, ParserSpec.ArraySize(tokens, old(pos), base, sizeWhat))
    {
      if Check(LBRACKET) {
        var _ :- Advance();
        var size := Current().text;
        var _ :- Consume(NUMBER, sizeWhat);
        var _ :- Consume(RBRACKET, "]");
        return Ok(base + "[" + size + "]");
      }
      return Ok(base);
    }

    // -------------------------------------------------------------
    // Expressions
    // -------------------------------------------------------------

    method ParseExpression() returns (r: Result<Exp>)
      requires Valid()
      modifies this
      ensures Agrees(r, ParserSpec.ParseExpression(tokens, old(pos)))
      decreases |tokens| - pos, 20
    {
      r := ParseAssignment();
    }

    method ParseAssignment() returns (r: Result<Exp>)
      requires Valid()
      modifies this
      ensures Agrees(r, ParserSpec.ParseAssignment(tokens, old(pos)))
      decreases |tokens| - pos, 19
    {
      var left :- ParseOr();
      r := AssignTail(left);
    }

    method AssignTail(left: Exp) returns (r: Result<Exp>)
      requires Valid() && !OrStop(Current().kind)
      modifies this
      ensures Agrees(r, ParserSpec.AssignTail(tokens, old(pos), left))
      decreases |tokens| - pos, 17
    {
      if !IsAtEnd() && IsAssignKind(Current().kind) {
        var k := Current().kind;
        var _ :- Advance();
        var right :- ParseAssignment();
        var e :- AssignNode(k, left, right);
        return Ok(e);
      }
      return Ok(left);
    }

    method ParseOr() returns (r: Result<Exp>)
      requires Valid()
      modifies this
      ensures Agrees(r, ParserSpec.ParseOr(tokens, old(pos)))
      decreases |tokens| - pos, 18
    {
      var left :- ParseAnd();
      while Check(OR)
        invariant Valid() && old(pos) < pos && !AndStop(Current().kind)
        invariant ParserSpec.ParseOr(tokens, old(pos)) == OrRest(tokens, pos, left)
        decreases |tokens| - pos
      {
        left :- OrStep(left);
      }
      return Ok(left);
    }

    method OrStep(left: Exp) returns (r: Result<Exp>)
      requires Valid() && Check(OR)
      modifies this
      ensures Agrees(r, ParserSpec.OrStep(tokens, old(pos), left))
      decreases |tokens| - pos, 16
    {
      var _ :- Advance();
      var right :- ParseAnd();
      return Ok(BinaryExp(left, right, AND_OP));
    }

    method ParseAnd() returns (r: Result<Exp>)
      requires Valid()
      modifies this
      ensures Agrees(r, ParserSpec.ParseAnd(tokens, old(pos)))
      decreases |tokens| - pos, 16
    {
      var left :- ParseRel();
      while Check(AND)
        invariant Valid() && old(pos) < pos && !RelStop(Current().kind)
        invariant ParserSpec.ParseAnd(tokens, old(pos)) == AndRest(tokens, pos, left)
        decreases |tokens| - pos
      {
        left :- AndStep(left);
      }
      return Ok(left);
    }

    method AndStep(left: Exp) returns (r: Result<Exp>)
      requires Valid() && Check(AND)
      modifies this
      ensures Agrees(r, ParserSpec.AndStep(tokens, old(pos), left))
      decreases |tokens| - pos, 14
    {
      var _ :- Advance();
      var right :- ParseRel();
      return Ok(BinaryExp(left, right, AND_OP));
    }

    method ParseRel() returns (r: Result<Exp>)
      requires Valid()
      modifies this
      ensures Agrees(r, ParserSpec.ParseRel(tokens, old(pos)))
      decreases |tokens| - pos, 14
    {
      var left :- ParseAdd();
      while !IsAtEnd() && RelOp(Current().kind).Some?
        invariant Valid() && old(pos) < pos && !AddStop(Current().kind)
        invariant ParserSpec.ParseRel(tokens, old(pos)) == RelRest(tokens, pos, left)
        decreases |tokens| - pos
      {
        left :- RelStep(left);
      }
      return Ok(left);
    }

    method RelStep(left: Exp) returns (r: Result<Exp>)
      requires Valid() && !IsAtEnd() && RelOp(Current().kind).Some?
      modifies this
      ensures Agrees(r, ParserSpec.RelStep(tokens, old(pos), left))
      decreases |tokens| - pos, 12
    {
      var op := RelOp(Current().kind).value;
      var _ :- Advance();
      var right :- ParseAdd();
      return Ok(BinaryExp(left, right, op));
    }

    method ParseAdd() returns (r: Result<Exp>)
      requires Valid()
      modifies this
      ensures Agrees(r, ParserSpec.ParseAdd(tokens, old(pos)))
      decreases |tokens| - pos, 12
    {
      var left :- ParseMul();
      while Check(PLUS) || Check(MINUS)
        invariant Valid() && old(pos) < pos && !MulStop(Current().kind)
        invariant ParserSpec.ParseAdd(tokens, old(pos)) == AddRest(tokens, pos, left)
        decreases |tokens| - pos
      {
        left :- AddStep(left);
      }
      return Ok(left);
    }

    method AddStep(left: Exp) returns (r: Result<Exp>)
      requires Valid() && (Check(PLUS) || Check(MINUS))
      modifies this
      ensures Agrees(r, ParserSpec.AddStep(tokens, old(pos), left))
      decreases |tokens| - pos, 10
    {
      var op := if Current().kind == PLUS then PLUS_OP else MINUS_OP;
      var _ :- Advance();
      var right :- ParseMul();
      return Ok(BinaryExp(left, right, op));
    }

    method ParseMul() returns (r: Result<Exp>)
      requires Valid()
      modifies this
      ensures Agrees(r, ParserSpec.ParseMul(tokens, old(pos)))
      decreases |tokens| - pos, 10
    {
      var left :- ParseUnary();
      while Check(MUL) || Check(DIV)
        invariant Valid() && old(pos) < pos && !PostfixStop(Current().kind)
        invariant ParserSpec.ParseMul(tokens, old(pos)) == MulRest(tokens, pos, left)
        decreases |tokens| - pos
      {
        left :- MulStep(left);
      }
      return Ok(left);
    }

    method MulStep(left: Exp) returns (r: Result<Exp>)
      requires Valid() && (Check(MUL) || Check(DIV))
      modifies this
      ensures Agrees(r, ParserSpec.MulStep(tokens, old(pos), left))
      decreases |tokens| - pos, 8
    {
      var op := if Current().kind == MUL then MUL_OP else DIV_OP;
      var _ :- Advance();
      var right :- ParseUnary();
      return Ok(BinaryExp(left, right, op));
    }

    method ParseUnary() returns (r: Result<Exp>)
      requires Valid()
      modifies this
      ensures Agrees(r, ParserSpec.ParseUnary(tokens, old(pos)))
      decreases |tokens| - pos, 8
    {
      if Check(NOT) || Check(MINUS) || Check(PLUS) {
        var _ :- Advance();
        r := ParseUnary();
        return;
      }
      r := ParsePostfix();
    }

    method ParsePostfix() returns (r: Result<Exp>)
      requires Valid()
      modifies this
      ensures Agrees(r, ParserSpec.ParsePostfix(tokens, old(pos)))
      decreases |tokens| - pos, 7
    {
      var primary :- ParsePrimary();
      while PostfixContinues(tokens, pos, primary)
        invariant Valid() && old(pos) < pos
        invariant ParserSpec.ParsePostfix(tokens, old(pos)) == PostfixRest(tokens, pos, primary)
        decreases |tokens| - pos
      {
        primary :- PostfixStep(primary);
      }
      return Ok(primary);
    }

    method PostfixStep(primary: Exp) returns (r: Result<Exp>)
      requires Valid() && PostfixContinues(tokens, pos, primary)
      modifies this
      ensures Agrees(r, ParserSpec.PostfixStep(tokens, old(pos), primary))
      decreases |tokens| - pos, 5
    {
      if Check(DOT) {
        r := FieldSuffix(primary);
      } else if Check(LBRACKET) {
        r := IndexSuffix(primary);
      } else if Check(LPAREN) {
        r := CallSuffix(primary);
      } else {
        r := StructInitSuffix(primary.name);
      }
    }

    method FieldSuffix(primary: Exp) returns (r: Result<Exp>)
      requires Valid() && Check(DOT)
      modifies this
      ensures Agrees(r, ParserSpec.FieldSuffix(tokens, old(pos), primary))
    {
      var _ :- Advance();
      var field := Current().text;
      var _ :- Consume(IDENTIFIER, "identificador tras '.'");
      return Ok(FieldAccessExp(primary, field));
    }

    method IndexSuffix(primary: Exp) returns (r: Result<Exp>)
      requires Valid() && Check(LBRACKET)
      modifies this
      ensures Agrees(r, ParserSpec.IndexSuffix(tokens, old(pos), primary))
      decreases |tokens| - pos, 4
    {
      var _ :- Advance();
      var index :- ParseExpression();
      var _ :- Consume(RBRACKET, "] en indexaci\U{F3}n");
      return Ok(ArrayAccessExp(primary, index));
    }

    method CallSuffix(primary: Exp) returns (r: Result<Exp>)
      requires Valid() && Check(LPAREN)
      modifies this
      ensures Agrees(r, ParserSpec.CallSuffix(tokens, old(pos), primary))
      decreases |tokens| - pos, 4
    {
      var _ :- Advance();
      if !primary.IdExp? {
        return Err("Llamada a funci\U{F3}n requiere identificador");
      }
      var args :- CallArgs();
      var _ :- Consume(RPAREN, ") cierre llamada");
      return Ok(FcallExp(primary.name, args));
    }

    method CallArgs() returns (r: Result<seq<Exp>>)
      requires Valid()
      modifies this
      ensures Agrees(r, ParserSpec.CallArgs(tokens, old(pos)))
      decreases |tokens| - pos, 23
    {
      if Check(RPAREN) {
        return Ok([]);
      }
      r := ParseArgs();
    }

    method StructInitSuffix(name: string) returns (r: Result<Exp>)
      requires Valid() && Check(LBRACE)
      modifies this
      ensures Agrees(r, ParserSpec.StructInitSuffix(tokens, old(pos), name))
      decreases |tokens| - pos, 4
    {
      var _ :- Advance();
      var inits :- InitList();
      var _ :- Consume(RBRACE, "} cierre struct init");
      return Ok(StructInitExp(name, inits));
    }

    method ParseArgs() returns (r: Result<seq<Exp>>)
      requires Valid()
      modifies this
      ensures Agrees(r, ParserSpec.ParseArgs(tokens, old(pos)))
      decreases |tokens| - pos, 22
    {
      var first :- ParseExpression();
      var args := [first];
      while Check(COMMA)
        invariant Valid() && old(pos) < pos
        invariant ParserSpec.ParseArgs(tokens, old(pos)) == ArgsRest(tokens, pos, args)
        decreases |tokens| - pos
      {
        var e :- CommaExpression();
        args := args + [e];
      }
      return Ok(args);
    }

    method CommaExpression() returns (r: Result<Exp>)
      requires Valid() && Check(COMMA)
      modifies this
      ensures Agrees(r, ParserSpec.CommaExpression(tokens, old(pos)))
      decreases |tokens| - pos, 20
    {
      var _ :- Advance();
      r := ParseExpression();
    }

    /** The field initialisers of a struct literal; unless `}` follows at
        once, the `do ... while (match(COMMA))` loop. */
    method InitList() returns (r: Result<seq<FieldInit>>)
      requires Valid()
      modifies this
      ensures Agrees(r, ParserSpec.InitList(tokens, old(pos)))
      decreases |tokens| - pos, 23
    {
      if Check(RBRACE) {
        return Ok([]);
      }
      var inits: seq<FieldInit> := [];
      while true
        invariant Valid() && old(pos) <= pos
        invariant ParserSpec.InitList(tokens, old(pos)) == ParserSpec.InitItem(tokens, pos, inits)
        decreases |tokens| - pos
      {
        var item :- InitItem(inits);
        inits := inits + [item];
        if !Check(COMMA) {
          return Ok(inits);
        }
        var _ :- Advance();
      }
    }

    /** One `name: expr`; what the specification does after it, with the
        initialisers `acc` before it, is what is left to parse. */
    method InitItem(ghost acc: seq<FieldInit>) returns (r: Result<FieldInit>)
      requires Valid()
      modifies this
      ensures r.Err? ==> ParserSpec.InitItem(tokens, old(pos), acc) == Err(r.msg)
      ensures r.Ok? ==> Valid() && old(pos) < pos
      ensures r.Ok? ==> ParserSpec.InitItem(tokens, old(pos), acc) == InitsRest(tokens, pos, acc + [r.value])
      decreases |tokens| - pos, 22
    {
      var fieldName := Current().text;
      var _ :- Consume(IDENTIFIER, "nombre campo struct");
      var _ :- Consume(COLON, ": en campo struct");
      var v :- ParseExpression();
      return Ok(FieldInit(fieldName, v));
    }

    method ParsePrimary() returns (r: Result<Exp>)
      requires Valid()
      modifies this
      ensures Agrees(r, ParserSpec.ParsePrimary(tokens, old(pos)))
      decreases |tokens| - pos, 5
    {
      if !IsAtEnd() && IsLiteralKind(Current().kind) {
        r := LiteralPrimary();
      } else if Check(LPAREN) {
        r := ParenExpression();
      } else {
        r := Err("Expresi\U{F3}n primaria inesperada");
      }
    }

    method LiteralPrimary() returns (r: Result<Exp>)
      requires Valid() && IsLiteralKind(Current().kind)
      modifies this
      ensures Agrees(r, ParserSpec.LiteralPrimary(tokens, old(pos)))
    {
      var t := Current();
      var _ :- Advance();
      r := Literal(t);
    }

    method ParenExpression() returns (r: Result<Exp>)
      requires Valid() && Check(LPAREN)
      modifies this
      ensures Agrees(r, ParserSpec.ParenExpression(tokens, old(pos)))
      decreases |tokens| - pos, 4
    {
      var _ :- Advance();
      var e :- ParseExpression();
      var _ :- Consume(RPAREN, ") cierre");
      return Ok(e);
    }

    // -------------------------------------------------------------
    // Statements and blocks
    // -------------------------------------------------------------

    method ParseBlock() returns (r: Result<seq<Stm>>)
      requires Valid()
      modifies this
      ensures Agrees(r, ParserSpec.ParseBlock(tokens, old(pos)))
      decreases |tokens| - pos, 29
    {
      var _ :- Consume(LBRACE, "'{' bloque");
      r := BlockBody();
    }

    method BlockBody() returns (r: Result<seq<Stm>>)
      requires Valid()
      modifies this
      ensures Agrees(r, ParserSpec.BlockBody(tokens, old(pos)))
      decreases |tokens| - pos, 32
    {
      var items :- BlockItems();
      var _ :- Consume(RBRACE, "'}' bloque");
      return Ok(items);
    }

    /** The statements of a block, up to `}` or the end of the input. */
    method BlockItems() returns (r: Result<seq<Stm>>)
      requires Valid()
      modifies this
      ensures Agrees(r, ParserSpec.BlockItems(tokens, old(pos), []))
      decreases |tokens| - pos, 31
    {
      var stmts: seq<Stm> := [];
      while !Check(RBRACE) && !IsAtEnd()
        invariant Valid() && old(pos) <= pos
        invariant ParserSpec.BlockItems(tokens, old(pos), []) == ParserSpec.BlockItems(tokens, pos, stmts)
        decreases |tokens| - pos
      {
        var s :- ParseStatement();
        stmts := stmts + [s];
      }
      return Ok(stmts);
    }

    method ParseStatement() returns (r: Result<Stm>)
      requires Valid()
      modifies this
      ensures Agrees(r, ParserSpec.ParseStatement(tokens, old(pos)))
      decreases |tokens| - pos, 30
    {
      if Check(LET) {
        r := ParseVarDecl();
      } else if Check(IF) {
        r := ParseIf();
      } else if Check(WHILE) {
        r := ParseWhile();
      } else if Check(FOR) {
        r := ParseFor();
      } else if Check(RETURN) {
        r := ParseReturn();
      } else if Check(PRINTLN) {
        r := ParsePrint();
      } else if Check(LBRACE) {
        var b :- ParseBlock();
        r := Ok(BlockStm(b));
      } else {
        r := ExpressionStatement();
      }
    }

    method ExpressionStatement() returns (r: Result<Stm>)
      requires Valid()
      modifies this
      ensures Agrees(r, ParserSpec.ExpressionStatement(tokens, old(pos)))
      decreases |tokens| - pos, 29
    {
      var e :- ParseExpression();
      r := StatementEnd(e);
    }

    method StatementEnd(e: Exp) returns (r: Result<Stm>)
      requires Valid()
      modifies this
      ensures Agrees(r, ParserSpec.StatementEnd(tokens, old(pos), e))
    {
      if Check(SEMICOL) {
        var _ :- Advance();
        return Ok(AssignStm("_", e));
      }
      if Check(RBRACE) {
        return Ok(ReturnStm(Some(e)));
      }
      return Err(ExprEndError);
    }

    method ParseVarDecl() returns (r: Result<Stm>)
      requires Valid()
      modifies this
      ensures Agrees(r, ParserSpec.ParseVarDecl(tokens, old(pos)))
    {
      var _ :- Consume(LET, "'let'");
      var before := pos;
      var after :- Match(MUT);
      r := LetName(after != before);
    }

    method LetName(mutable: bool) returns (r: Result<Stm>)
      requires Valid()
      modifies this
      ensures Agrees(r, ParserSpec.LetName(tokens, old(pos), mutable))
    {
      var name := Current().text;
      var _ :- Consume(IDENTIFIER, "nombre variable");
      var _ :- Consume(COLON, ": en declaraci\U{F3}n");
      r := LetTail(mutable, name);
    }

    method LetTail(mutable: bool, name: string) returns (r: Result<Stm>)
      requires Valid()
      modifies this
      ensures Agrees(r, ParserSpec.LetTail(tokens, old(pos), mutable, name))
    {
      var typeName :- ParseTypeName("Tipo esperado en declaraci\U{F3}n", "tama\U{F1}o array");
      r := LetEnd(mutable, name, typeName);
    }

    method LetEnd(mutable: bool, name: string, typeName: string) returns (r: Result<Stm>)
      requires Valid()
      modifies this
      ensures Agrees(r, ParserSpec.LetEnd(tokens, old(pos), mutable, name, typeName))
    {
      var init :- ParseInit();
      var _ :- Consume(SEMICOL, "; final declaraci\U{F3}n");
      return Ok(LetStm(mutable, name, typeName, init));
    }

    method ParseInit() returns (r: Result<Option<Exp>>)
      requires Valid()
      modifies this
      ensures Agrees(r, ParserSpec.ParseInit(tokens, old(pos)))
    {
      if Check(ASSIGN) {
        var _ :- Advance();
        var e :- ParseExpression();
        return Ok(Some(e));
      }
      return Ok(None);
    }

    method ParseCondition(closeWhat: string) returns (r: Result<Exp>)
      requires Valid()
      modifies this
      ensures Agrees(r, ParserSpec.ParseCondition(tokens, old(pos), closeWhat))
    {
      if Check(LPAREN) {
        var _ :- Advance();
        var e :- ParseExpression();
        var _ :- Consume(RPAREN, closeWhat);
        return Ok(e);
      }
      r := ParseExpression();
    }

    method ParseIf() returns (r: Result<Stm>)
      requires Valid()
      modifies this
      ensures Agrees(r, ParserSpec.ParseIf(tokens, old(pos)))
      decreases |tokens| - pos, 29
    {
      var _ :- Consume(IF, "'if'");
      var cond :- ParseCondition(") en if");
      r := IfBranches(cond);
    }

    method IfBranches(cond: Exp) returns (r: Result<Stm>)
      requires Valid()
      modifies this
      ensures Agrees(r, ParserSpec.IfBranches(tokens, old(pos), cond))
      decreases |tokens| - pos, 30
    {
      var thenBlock :- ParseBlock();
      var elseBlock :- ElseBranch();
      return Ok(IfStm(cond, thenBlock, elseBlock));
    }

    method ElseBranch() returns (r: Result<ElseBlock>)
      requires Valid()
      modifies this
      ensures Agrees(r, ParserSpec.ElseBranch(tokens, old(pos)))
      decreases |tokens| - pos, 29
    {
      if Check(ELSE) {
        var _ :- Advance();
        var b :- ParseBlock();
        return Ok(Else(b));
      }
      return Ok(NoElse);
    }

    method ParseWhile() returns (r: Result<Stm>)
      requires Valid()
      modifies this
      ensures Agrees(r, ParserSpec.ParseWhile(tokens, old(pos)))
      decreases |tokens| - pos, 29
    {
      var _ :- Consume(WHILE, "'while'");
      var cond :- ParseCondition(") en while");
      var body :- ParseBlock();
      return Ok(WhileStm(cond, body));
    }

    method ParseFor() returns (r: Result<Stm>)
      requires Valid()
      modifies this
      ensures Agrees(r, ParserSpec.ParseFor(tokens, old(pos)))
      decreases |tokens| - pos, 29
    {
      var _ :- Consume(FOR, "'for'");
      var variable := Current().text;
      var _ :- Consume(IDENTIFIER, "iterador for");
      r := ForRange(variable);
    }

    method ForRange(it: string) returns (r: Result<Stm>)
      requires Valid()
      modifies this
      ensures Agrees(r, ParserSpec.ForRange(tokens, old(pos), it))
      decreases |tokens| - pos, 29
    {
      var _ :- Consume(IN, "'in' en for");
      var start :- ParseExpression();
      var _ :- Consume(DOTDOT, "'..' rango for");
      r := ForBody(it, start);
    }

    method ForBody(it: string, start: Exp) returns (r: Result<Stm>)
      requires Valid()
      modifies this
      ensures Agrees(r, ParserSpec.ForBody(tokens, old(pos), it, start))
      decreases |tokens| - pos, 29
    {
      var end :- ParseExpression();
      var body :- ParseBlock();
      return Ok(ForStm(it, start, end, body));
    }

    method ParseReturn() returns (r: Result<Stm>)
      requires Valid()
      modifies this
      ensures Agrees(r, ParserSpec.ParseReturn(tokens, old(pos)))
    {
      var _ :- Consume(RETURN, "'return'");
      var e :- ReturnValue();
      var _ :- Consume(SEMICOL, "; en return");
      return Ok(ReturnStm(e));
    }

    method ReturnValue() returns (r: Result<Option<Exp>>)
      requires Valid()
      modifies this
      ensures Agrees(r, ParserSpec.ReturnValue(tokens, old(pos)))
    {
      if !Check(SEMICOL) {
        var x :- ParseExpression();
        return Ok(Some(x));
      }
      return Ok(None);
    }

    method ParsePrint() returns (r: Result<Stm>)
      requires Valid()
      modifies this
      ensures Agrees(r, ParserSpec.ParsePrint(tokens, old(pos)))
    {
      var _ :- Consume(PRINTLN, "'println!'");
      var _ :- Consume(LPAREN, "'(' en println");
      r := PrintTail();
    }

    method PrintTail() returns (r: Result<Stm>)
      requires Valid()
      modifies this
      ensures Agrees(r, ParserSpec.PrintTail(tokens, old(pos)))
    {
      var _ :- Match(STRING_LITERAL);
      var first :- PrintArgs();
      r := PrintEnd(first);
    }

    method PrintEnd(first: Option<Exp>) returns (r: Result<Stm>)
      requires Valid()
      modifies this
      ensures Agrees(r, ParserSpec.PrintEnd(tokens, old(pos), first))
    {
      var _ :- Consume(RPAREN, ") en println");
      var _ :- Consume(SEMICOL, "; en println");
      return Ok(PrintStm(first));
    }

    method PrintArgs() returns (r: Result<Option<Exp>>)
      requires Valid()
      modifies this
      ensures Agrees(r, ParserSpec.PrintArgs(tokens, old(pos)))
    {
      if Check(COMMA) {
        var x :- CommaExpression();
        var _ :- SkipExpressions();
        return Ok(Some(x));
      }
      return Ok(None);
    }

    method SkipExpressions() returns (r: Result<nat>)
      requires Valid()
      modifies this
      ensures r == ParserSpec.SkipExpressions(tokens, old(pos))
      ensures r.Ok? ==> Valid() && pos == r.value
    {
      while Check(COMMA)
        invariant Valid() && old(pos) <= pos
        invariant ParserSpec.SkipExpressions(tokens, old(pos)) == ParserSpec.SkipExpressions(tokens, pos)
        decreases |tokens| - pos
      {
        var x := CommaExpression();
        if x.Err? {
          return Err(x.msg);
        }
      }
      return Ok(pos);
    }

    // -------------------------------------------------------------
    // Items and the program
    // -------------------------------------------------------------

    method ParseParams() returns (r: Result<(seq<string>, seq<string>)>)
      requires Valid()
      modifies this
      ensures Agrees(r, ParserSpec.ParseParams(tokens, old(pos)))
    {
      if !Check(IDENTIFIER) {
        return Ok(([], []));
      }
      var first := Current().text;
      var _ :- Consume(IDENTIFIER, "param nombre");
      var _ :- Consume(COLON, ":");
      var ty :- ParseBaseType("Tipo de primer par\U{E1}metro esperado");
      var names, types := [first], [ty];
      while Check(COMMA)
        invariant Valid() && old(pos) < pos && |names| == |types|
        invariant ParserSpec.ParseParams(tokens, old(pos)) == ParamsRest(tokens, pos, names, types)
        decreases |tokens| - pos
      {
        var prm :- ParamStep(names, types);
        names, types := names + [prm.0], types + [prm.1];
      }
      return Ok((names, types));
    }

    /** One `, name: Type`; the specification's parameters after the
        ones already read are what is left to parse. */
    method ParamStep(ghost names: seq<string>, ghost types: seq<string>) returns (r: Result<(string, string)>)
      requires Valid() && Check(COMMA) && |names| == |types|
      modifies this
      ensures r.Err? ==> ParserSpec.ParamStep(tokens, old(pos), names, types) == Err(r.msg)
      ensures r.Ok? ==> Valid() && old(pos) < pos
      ensures r.Ok? ==> ParserSpec.ParamStep(tokens, old(pos), names, types)
                        == ParamsRest(tokens, pos, names + [r.value.0], types + [r.value.1])
    {
      var _ :- Advance();
      var name := Current().text;
      var _ :- Consume(IDENTIFIER, "param nombre");
      var _ :- Consume(COLON, ":");
      var ty :- ParseBaseType("Tipo esperado en par\U{E1}metro");
      return Ok((name, ty));
    }

    method ParseFunction() returns (r: Result<FunDec>)
      requires Valid()
      modifies this
      ensures Agrees(r, ParserSpec.ParseFunction(tokens, old(pos)))
    {
      var _ :- Consume(FN, "'fn'");
      var name := Current().text;
      var _ :- Consume(IDENTIFIER, "nombre de funci\U{F3}n");
      var _ :- Consume(LPAREN, "'('");
      var params :- ParseParams();
      r := FunctionTail(name, params);
    }

    method FunctionTail(name: string, params: (seq<string>, seq<string>)) returns (r: Result<FunDec>)
      requires Valid()
      modifies this
      ensures Agrees(r, ParserSpec.FunctionTail(tokens, old(pos), name, params))
    {
      var _ :- Consume(RPAREN, "')'");
      var returnType :- ParseReturnType();
      var body :- ParseBlock();
      return Ok(FunDec(returnType, name, params.1, params.0, Body([BlockStm(body)], [])));
    }

    method ParseReturnType() returns (r: Result<string>)
      requires Valid()
      modifies this
      ensures Agrees(r, ParserSpec.ParseReturnType(tokens, old(pos)))
    {
      if Check(ARROW) {
        var _ :- Advance();
        r := ParseBaseType(ReturnTypeExpected);
        return;
      }
      return Ok("void");
    }

    method ParseStruct() returns (r: Result<StructDec>)
      requires Valid()
      modifies this
      ensures Agrees(r, ParserSpec.ParseStruct(tokens, old(pos)))
    {
      var _ :- Consume(STRUCT, "'struct'");
      var name := Current().text;
      var _ :- Consume(IDENTIFIER, "nombre de struct");
      var _ :- Consume(LBRACE, "'{' struct");
      var fields :- StructFields();
      var _ :- Consume(RBRACE, "'}' struct");
      return Ok(StructDec(name, fields));
    }

    method StructFields() returns (r: Result<seq<(string, string)>>)
      requires Valid()
      modifies this
      ensures Agrees(r, ParserSpec.StructFields(tokens, old(pos), []))
    {
      var fields: seq<(string, string)> := [];
      while Check(IDENTIFIER)
        invariant Valid() && old(pos) <= pos
        invariant ParserSpec.StructFields(tokens, old(pos), []) == ParserSpec.StructFields(tokens, pos, fields)
        decreases |tokens| - pos
      {
        var f :- FieldDecl(fields);
        fields := fields + [f];
      }
      return Ok(fields);
    }

    /** One `name: Type;`; the specification's fields after `acc` and
        this one are what is left to parse. */
    method FieldDecl(ghost acc: seq<(string, string)>) returns (r: Result<(string, string)>)
      requires Valid() && Check(IDENTIFIER)
      modifies this
      ensures r.Err? ==> ParserSpec.FieldDecl(tokens, old(pos), acc) == Err(r.msg)
      ensures r.Ok? ==> Valid() && old(pos) < pos
      ensures r.Ok? ==> ParserSpec.FieldDecl(tokens, old(pos), acc) == ParserSpec.StructFields(tokens, pos, acc + [r.value])
    {
      var name := Current().text;
      var _ :- Advance();
      var _ :- Consume(COLON, ": en campo struct");
      var ty :- ParseTypeName("Tipo esperado en campo struct", "tama\U{F1}o array en campo struct");
      var _ :- Consume(SEMICOL, "; tras campo");
      return Ok((name, ty));
    }

    method ParseTypeAlias() returns (r: Result<TypeAlias>)
      requires Valid()
      modifies this
      ensures Agrees(r, ParserSpec.ParseTypeAlias(tokens, old(pos)))
    {
      var _ :- Consume(TYPE, "'type'");
      var name := Current().text;
      var _ :- Consume(IDENTIFIER, "nombre alias");
      r := AliasBody(name);
    }

    method AliasBody(name: string) returns (r: Result<TypeAlias>)
      requires Valid()
      modifies this
      ensures Agrees(r, ParserSpec.AliasBody(tokens, old(pos), name))
    {
      var _ :- Consume(ASSIGN, "'=' en alias de tipo");
      var ty :- ParseTypeName("Tipo esperado en alias", "tama\U{F1}o de array");
      var _ :- Consume(SEMICOL, "; final alias");
      return Ok(TypeAlias(name, ty));
    }

    /** The item loop of `parseProgram`. */
    method ParseItems() returns (r: Result<Program>)
      requires Valid()
      modifies this
      ensures Agrees(r, ParserSpec.ParseItems(tokens, old(pos), EmptyProgram))
    {
      var prog := EmptyProgram;
      while Check(FN) || Check(STRUCT) || Check(TYPE)
        invariant Valid() && old(pos) <= pos
        invariant ParserSpec.ParseItems(tokens, old(pos), EmptyProgram) == ParserSpec.ParseItems(tokens, pos, prog)
        decreases |tokens| - pos
      {
        prog :- ParseItem(prog);
      }
      return Ok(prog);
    }

    /** One item added to the list of its kind in `prog`. */
    method ParseItem(prog: Program) returns (r: Result<Program>)
      requires Valid() && (Check(FN) || Check(STRUCT) || Check(TYPE))
      modifies this
      ensures Agrees(r, ParserSpec.ParseItem(tokens, old(pos), prog))
    {
      if Check(FN) {
        var f :- ParseFunction();
        return Ok(prog.(fdlist := prog.fdlist + [f]));
      } else if Check(STRUCT) {
        var s :- ParseStruct();
        return Ok(prog.(sdlist := prog.sdlist + [s]));
      }
      var a :- ParseTypeAlias();
      return Ok(prog.(talist := prog.talist + [a]));
    }

    method ParseProgram() returns (r: Result<Program>)
      requires Valid() && pos == 0
      modifies this
      ensures r == ParserSpec.ParseProgram(tokens)
    {
      var prog :- ParseItems();
      if !IsAtEnd() {
        return Err("Error sint\U{E1}ctico: tokens restantes tras parseo");
      }
      return Ok(prog);
    }
  }

  /** The front end's use of the parser: construct it on the scanner's
      tokens (which reads the first one) and parse the program. */
  method Parse(ts: seq<Token>) returns (r: Result<Program>)
    requires ValidStream(ts)
    ensures r == ParseTokens(ts)
  {
    if ts[0].kind == ERR {
      return Err(LexicalError(ts[0].text));
    }
    var parser := new Parser(ts);
    r := parser.ParseProgram();
  }
}
