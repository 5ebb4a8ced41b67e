/** The syntax tree the prototype type checker walks: expressions, the
    three statement kinds it has visits for, and declarations. Function
    parameters are paired as (type, name). */
module ProtoAst {
  import opened Wrappers

  datatype BinaryOp = PLUS_OP | MINUS_OP | MUL_OP | DIV_OP | POW_OP | LE_OP | AND_OP

  datatype Exp =
    | BinaryExp(left: Exp, right: Exp, op: BinaryOp)
    | NumberExp(value: int)
    | IdExp(name: string)
    | FcallExp(nombre: string, argumentos: seq<Exp>)
    | BoolExp(valor: int)

  datatype Stm =
    | AssignStm(id: string, e: Exp)
    | PrintStm(e: Exp)
    | ReturnStm(ret: Option<Exp>)

  datatype VarDec = VarDec(tipo: string, variables: seq<string>)

  datatype Body = Body(vdlist: seq<VarDec>, stmlist: seq<Stm>)

  datatype Param = Param(tipo: string, nombre: string)

  datatype FunDec = FunDec(tipo: string, nombre: string, params: seq<Param>, cuerpo: Body)

  datatype Program = Program(vdlist: seq<VarDec>, fdlist: seq<FunDec>)
}
