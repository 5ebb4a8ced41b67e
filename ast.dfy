/** The syntax tree of the compiler proper, and the operator-symbol map.
    Pointers that may be null become `Option`; a block child is kept as
    its statement list. */
module Ast {
  import opened Wrappers

  datatype BinaryOp =
    | PLUS_OP | MINUS_OP | MUL_OP | DIV_OP | POW_OP
    | LT_OP | GT_OP | LE_OP | GE_OP | EQ_OP | NEQ_OP
    | AND_OP | ASSIGN_OP

  /** A float literal keeps the numeral it was read from; the value's bit
      pattern is derived from it where code is generated. */
  datatype Exp =
    | BinaryExp(left: Exp, right: Exp, op: BinaryOp)
    | NumberExp(value: int)
    | IdExp(name: string)
    | FcallExp(nombre: string, argumentos: seq<Exp>)
    | BoolExp(valor: int)
    | ArrayAccessExp(base: Exp, index: Exp)
    | FieldAccessExp(record: Exp, field: string)
    | StructInitExp(sname: string, inits: seq<FieldInit>)
    | FloatExp(literal: string, isDouble: bool)

  /** One `name: expr` of a struct literal. */
  datatype FieldInit = FieldInit(fname: string, value: Exp)

  datatype Stm =
    | BlockStm(statements: seq<Stm>)
    | LetStm(mutable_flag: bool, lname: string, type_name: string, init: Option<Exp>)
    | IfStm(condition: Exp, thenBlock: seq<Stm>, elseBlock: ElseBlock)
    | WhileStm(condition: Exp, body: seq<Stm>)
    | ForStm(iteratorName: string, start: Exp, end: Exp, body: seq<Stm>)
    | AssignStm(id: string, rhs: Exp)
    | PrintStm(e: Option<Exp>)
    | ReturnStm(e: Option<Exp>)

  /** The `else` block of an `if`, which may be absent. */
  datatype ElseBlock = NoElse | Else(block: seq<Stm>)

  datatype VarDec = VarDec(tipo: string, variables: seq<string>)

  datatype Body = Body(stmlist: seq<Stm>, vdlist: seq<VarDec>)

  datatype FunDec = FunDec(tipo: string, nombre: string, Tparametros: seq<string>,
                           Nparametros: seq<string>, cuerpo: Body)

  datatype StructDec = StructDec(name: string, fields: seq<(string, string)>)

  datatype TypeAlias = TypeAlias(alias: string, target: string)

  datatype Program = Program(fdlist: seq<FunDec>, vdlist: seq<VarDec>,
                             sdlist: seq<StructDec>, talist: seq<TypeAlias>)

  const AllOps: seq<BinaryOp> := [PLUS_OP, MINUS_OP, MUL_OP, DIV_OP, POW_OP, LT_OP, GT_OP,
                                  LE_OP, GE_OP, EQ_OP, NEQ_OP, AND_OP, ASSIGN_OP]

  /** `Exp::binopToChar`. */
  function BinopToChar(op: BinaryOp): (s: string)
    ensures s != "?" && s != ""
  {
    match op
    case PLUS_OP => "+"
    case MINUS_OP => "-"
    case MUL_OP => "*"
    case DIV_OP => "/"
    case POW_OP => "**"
    case LT_OP => "<"
    case GT_OP => ">"
    case LE_OP => "<="
    case GE_OP => ">="
    case EQ_OP => "=="
    case NEQ_OP => "!="
    case AND_OP => "and"
    case ASSIGN_OP => "="
  }

  /** `binopToChar` applied to a raw enumeration value: values outside
      the enumeration reach the default branch. */
  function BinopCodeToChar(code: int): (s: string)
    ensures 0 <= code < |AllOps| ==> s == BinopToChar(AllOps[code])
    ensures !(0 <= code < |AllOps|) ==> s == "?"
  {
    if 0 <= code < |AllOps| then BinopToChar(AllOps[code]) else "?"
  }

  /** Different operators have different symbols. */
  lemma BinopToCharInjective(a: BinaryOp, b: BinaryOp)
    ensures BinopToChar(a) == BinopToChar(b) ==> a == b
  {
  }

  /** The enumeration lists each operator once, in declaration order. */
  lemma AllOpsComplete(op: BinaryOp)
    ensures op in AllOps
    ensures forall i, j :: 0 <= i < j < |AllOps| ==> AllOps[i] != AllOps[j]
  {
  }
}
