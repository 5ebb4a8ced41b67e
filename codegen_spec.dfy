/** What `GenCodeVisitor` writes and how its state evolves, as functions
    over a value `Gen` holding every field the generator updates. Each
    `visit` overload is one function returning the next state, or the
    message of the `runtime_error` it throws. */
module CodeGenSpec {
  import opened Wrappers
  import opened Text
  import opened SemanticTypes
  import opened Ast
  import opened Environments
  import opened Layout
  import opened DagCache
  import opened Planner
  import opened CodeOptimization

  /** `SymbolInfo`: a local's frame offset, its type tag and type name. */
  datatype SymbolInfo = SymbolInfo(offset: int, ttype: TType, typeName: string, isMutable: bool, initialized: bool)

  /** The type aliases and struct layouts shared with the planner, and the
      slots the planner reserved per function (`frameReservation`). */
  datatype Tables = Tables(aliases: map<string, string>, layouts: map<string, StructLayout>, frames: map<string, int>)

  /** The switches: `optimizationsEnabled`, `dagEnabled`, and the
      optimizer's two passes. */
  datatype Config = Config(optimizations: bool, dag: bool, optDag: bool, optPeephole: bool)

  /** The output stream and the peephole buffer (`tempOutput`), as the
      lines written to each: `written` is the one `targetOut` designates
      (the buffer while `buffering`), `aside` the other. */
  datatype Streams = Streams(written: seq<string>, aside: seq<string>, buffering: bool) {
    function Out(): seq<string> { if buffering then aside else written }
    function Buffer(): seq<string> { if buffering then written else aside }
  }

  /** The function being generated: `insideFunction`,
      `currentFunctionName`, `currentReturnLabel`. */
  datatype Context = Context(insideFunction: bool, functionName: string, returnLabel: string)

  /** The common-subexpression cache and its hit and miss counters. */
  datatype DagState = DagState(cache: Cache, hits: int, misses: int)

  /** The generator's state. */
  datatype Gen = Gen(
    io: Streams,
    nextStackOffset: int,
    nextLabelId: int,
    lastType: TType,
    symbols: Scopes<SymbolInfo>,
    globalSymbols: set<string>,
    ctx: Context,
    dag: DagState,
    tables: Tables,
    config: Config,
    stats: Stats)

  const ArgRegisters: seq<string> := ["%rdi", "%rsi", "%rdx", "%rcx", "%r8", "%r9"]

  const UndeclaredPrefix := "Identificador no declarado: "
  const FieldAccessError := "Field access error"
  const FloatOpError := "Float op not supported"
  const PowError := "Operador potencia no soportado en generador"
  const BinopError := "Operador binario no soportado"

  // ---------------------------------------------------------------------
  // Small steps

  /** `targetOut << ...`: the lines go to the buffer while buffering. */
  function Emit(g: Gen, lines: seq<string>): Gen {
    g.(io := Put(g.io, lines))
  }

  function Put(io: Streams, lines: seq<string>): Streams {
    io.(written := io.written + lines)
  }

  /** `out << ...`: always the output stream. */
  function EmitOut(g: Gen, lines: seq<string>): Gen {
    var io := g.io;
    g.(io := if io.buffering then io.(aside := io.aside + lines) else io.(written := io.written + lines))
  }

  /** The text of `makeLabel(base)` when the counter is at `id`. */
  function LabelText(base: string, id: int): string {
    ".L_" + base + "_" + IntToString(id)
  }

  /** Reserves `n` label numbers. */
  function TakeLabels(g: Gen, n: nat): Gen {
    g.(nextLabelId := g.nextLabelId + n)
  }

  /** `clearDAGCache`. */
  function ClearCache(g: Gen): Gen {
    g.(dag := DagState(map[], 0, 0))
  }

  /** `invalidateDAGCache(name)`. */
  function Invalidate(g: Gen, name: string): Gen {
    g.(dag := g.dag.(cache := Invalidated(g.config.dag, g.dag.cache, name)))
  }

  /** `symbols.pop_scope()`. */
  function PopScope(g: Gen): Result<Gen> {
    if g.symbols == [] then Err(PopError)
    else Ok(g.(symbols := g.symbols[..|g.symbols| - 1]))
  }

  /** `declareLocal`: the next 8-byte slot, then the offset moves down. */
  function DeclareLocal(g: Gen, name: string, info: SymbolInfo): Gen {
    g.(nextStackOffset := g.nextStackOffset - 8,
       symbols := Declared(g.symbols, name, info.(offset := g.nextStackOffset)))
  }

  /** `N(%rbp)`. */
  function Slot(offset: int): string {
    IntToString(offset) + "(%rbp)"
  }

  predicate IsFloat(t: TType) { t == F32 || t == F64 }

  predicate IsWord(t: TType) { t == F32 || t == I32 || t == U32 }

  /** The bytes of a variable of type `typeName` (tag `t`): arrays take 4
      bytes per element, structs their layout's size, 32-bit scalars 4 and
      everything else 8. */
  function StorageSize(tables: Tables, typeName: string, t: TType): (n: int)
    ensures var resolved := Resolve(tables.aliases, typeName);
            n > 8 ==> IsArrayType(resolved) || resolved in tables.layouts
    ensures var resolved := Resolve(tables.aliases, typeName);
            !IsArrayType(resolved) && resolved !in tables.layouts ==> (n == 4 || n == 8) && (n == 4 <==> IsWord(t))
    ensures IsArrayType(Resolve(tables.aliases, typeName)) ==> n % 4 == 0
  {
    var resolved := Resolve(tables.aliases, typeName);
    if IsArrayType(resolved) then ArrayCount(resolved) * 4
    else if resolved in tables.layouts then tables.layouts[resolved].size
    else if IsWord(t) then 4
    else 8
  }

  /** The store of `%rax` into a variable of tag `t` and `size` bytes after
      a right-hand side of tag `rhs`: a double narrowed into an `f32`, a
      block copy for more than 8 bytes, else a 4- or 8-byte move. */
  function StoreLines(offset: int, t: TType, size: int, rhs: TType): (r: seq<string>)
    ensures |r| == 1 || |r| == 4
    ensures r[|r| - 1] == " rep movsb" <==> size > 8 && !(t == F32 && (rhs == F64 || rhs == NOTYPE))
    ensures r[|r| - 1] == " movl %eax, " + Slot(offset) <==> (t == F32 && (rhs == F64 || rhs == NOTYPE)) || (size == 4)
  {
    if t == F32 && (rhs == F64 || rhs == NOTYPE) then
      [" movq %rax, %xmm0", " cvtsd2ss %xmm0, %xmm0", " movd %xmm0, %eax", " movl %eax, " + Slot(offset)]
    else if size > 8 then
      [" movq %rax, %rsi", " leaq " + Slot(offset) + ", %rdi", " movq $" + IntToString(size) + ", %rcx", " rep movsb"]
    else if size == 4 then [" movl %eax, " + Slot(offset)]
    else
      var line := " movq %rax, " + Slot(offset);
      assert line[4] != (" movl %eax, " + Slot(offset))[4];
      [line]
  }

  /** The instructions of an integer operator on `%rax` and `%rcx`. */
  function IntOpLines(op: BinaryOp): (r: Result<seq<string>>)
    ensures r.Err? <==> op == POW_OP || op == AND_OP || op == ASSIGN_OP
    ensures r.Err? ==> r.msg == (if op == POW_OP then PowError else BinopError)
    ensures op in {LT_OP, GT_OP, LE_OP, GE_OP, EQ_OP, NEQ_OP} ==> r.Ok? && |r.value| > 0 && r.value[|r.value| - 1] == " movzbq %al, %rax"
  {
    match op
    case PLUS_OP => Ok([" addq %rcx, %rax"])
    case MINUS_OP => Ok([" subq %rcx, %rax"])
    case MUL_OP => Ok([" imulq %rcx, %rax"])
    case DIV_OP => Ok([" cqto", " idivq %rcx"])
    case LT_OP => Ok(CompareLines("l"))
    case GT_OP => Ok(CompareLines("g"))
    case LE_OP => Ok(CompareLines("le"))
    case GE_OP => Ok(CompareLines("ge"))
    case EQ_OP => Ok(CompareLines("e"))
    case NEQ_OP => Ok(CompareLines("ne"))
    case POW_OP => Err(PowError)
    case _ => Err(BinopError)
  }

  function CompareLines(cc: string): seq<string> {
    [" cmpq %rcx, %rax", " movq $0, %rax", " set" + cc + " %al", " movzbq %al, %rax"]
  }

  /** The SSE instruction for `op`, single or double precision. */
  function FloatOpLine(op: BinaryOp, single: bool): (r: Result<string>)
    ensures r.Ok? <==> op == PLUS_OP || op == MINUS_OP || op == MUL_OP || op == DIV_OP
    ensures r.Ok? ==> |r.value| > 6 && r.value[4..6] == (if single then "ss" else "sd")
    ensures r.Err? ==> r.msg == FloatOpError
  {
    var suffix := if single then "ss" else "sd";
    match op
    case PLUS_OP => Ok(" add" + suffix + " %xmm1, %xmm0")
    case MINUS_OP => Ok(" sub" + suffix + " %xmm1, %xmm0")
    case MUL_OP => Ok(" mul" + suffix + " %xmm1, %xmm0")
    case DIV_OP => Ok(" div" + suffix + " %xmm1, %xmm0")
    case _ => Err(FloatOpError)
  }

  /** The operator after both operands are evaluated, the left one in
      `%rax` and the right one in `%rcx`: floating point when either side
      is a float (two `f32` stay single, otherwise both are widened to
      double), integer otherwise. */
  function Combine(g: Gen, op: BinaryOp, lt: TType, rt: TType): Result<Gen> {
    if IsFloat(lt) || IsFloat(rt) then
      var single := lt == F32 && rt == F32;
      var line :- FloatOpLine(op, single);
      Ok(Emit(g, FloatLines(line, lt, rt)).(lastType := if single then F32 else F64))
    else
      var lines :- IntOpLines(op);
      Ok(Emit(g, lines).(lastType := I64))
  }

  /** Both operands moved to SSE registers, an `f32` widened to double
      unless both are `f32`, the operation, and the result back in `%rax`. */
  function FloatLines(line: string, lt: TType, rt: TType): seq<string> {
    var single := lt == F32 && rt == F32;
    [" movq %rax, %xmm0", " movq %rcx, %xmm1"]
    + (if !single && lt == F32 then [" cvtss2sd %xmm0, %xmm0"] else [])
    + (if !single && rt == F32 then [" cvtss2sd %xmm1, %xmm1"] else [])
    + [line, " movq %xmm0, %rax"]
  }

  /** The immediate form for `+ - *` with a literal right operand. */
  function ImmediateMnemonic(op: BinaryOp): string {
    if op == PLUS_OP then "addq" else if op == MINUS_OP then "subq" else "imulq"
  }

  // ---------------------------------------------------------------------
  // What stays put while an expression or a statement is generated

  /** Text is only appended to the stream being written; the other one is
      untouched. */
  predicate Appended(io: Streams, io': Streams) {
    io'.buffering == io.buffering && io.written <= io'.written && io'.aside == io.aside
  }

  /** `h` comes after `g` within one function body: output is appended,
      label numbers only grow, globals are only added, the scope depth is
      kept, and the function, tables, switches and optimizer counters are
      unchanged. */
  predicate Grows(g: Gen, h: Gen) {
    && Appended(g.io, h.io)
    && g.nextLabelId <= h.nextLabelId
    && g.globalSymbols <= h.globalSymbols
    && (g.symbols != [] ==> |h.symbols| == |g.symbols|)
    && h.ctx == g.ctx
    && h.tables == g.tables
    && h.config == g.config
    && h.stats == g.stats
  }

  /** The value-numbering cache only loses entries. */
  predicate Forgets(g: Gen, h: Gen) {
    h.dag.cache.Keys <= g.dag.cache.Keys
  }

  /** No struct literal anywhere in the expression. */
  predicate LiteralFree(e: Exp) {
    match e
    case StructInitExp(_, _) => false
    case BinaryExp(l, r, _) => LiteralFree(l) && LiteralFree(r)
    case FcallExp(_, args) => forall i :: 0 <= i < |args| ==> LiteralFree(args[i])
    case ArrayAccessExp(b, i) => LiteralFree(b) && LiteralFree(i)
    case FieldAccessExp(o, _) => LiteralFree(o)
    case _ => true
  }

  // ---------------------------------------------------------------------
  // Expressions

  function GenExp(bits: string -> nat, g: Gen, e: Exp): (r: Result<Gen>)
    ensures r.Ok? ==> Grows(g, r.value)
    ensures r.Ok? ==> Forgets(g, r.value)
    ensures r.Ok? && NaturalLayouts(g.tables.layouts) ==> r.value.nextStackOffset <= g.nextStackOffset
    ensures r.Ok? && LiteralFree(e) ==> r.value.nextStackOffset == g.nextStackOffset
    decreases e, 9
  {
    match e
    case NumberExp(v) => Ok(Emit(g, [" movq $" + IntToString(v) + ", %rax"]).(lastType := I64))
    case BoolExp(b) => Ok(Emit(g, [" movq $" + (if b != 0 then "1" else "0") + ", %rax"]))
    case FloatExp(lit, isDouble) =>
      Ok(Emit(g, [" movabsq $" + NatToString(bits(lit)) + ", %rax", " movq %rax, %xmm0"])
           .(lastType := if isDouble then F64 else F32))
    case IdExp(_) => GenId(g, e)
    case BinaryExp(_, _, _) => GenBinary(bits, g, e)
    case FcallExp(_, _) => GenCall(bits, g, e)
    case ArrayAccessExp(_, _) => GenIndex(bits, g, e)
    case FieldAccessExp(_, _) => GenField(g, e)
    case StructInitExp(_, _) => GenStructInit(bits, g, e)
  }

  /** A local is loaded by size and tag (its address when larger than 8
      bytes); a global is read through `%rip`; anything else is an error. */
  function GenId(g: Gen, e: Exp): (r: Result<Gen>)
    requires e.IdExp?
    ensures r.Ok? ==> Grows(g, r.value) && r.value.nextStackOffset == g.nextStackOffset
    ensures r.Ok? ==> Forgets(g, r.value)
    ensures r.Err? <==> Find(g.symbols, e.name).None? && e.name !in g.globalSymbols
  {
    match Find(g.symbols, e.name)
    case Some(info) =>
      var line :=
        if StorageSize(g.tables, info.typeName, info.ttype) > 8 then " leaq " + Slot(info.offset) + ", %rax"
        else if IsWord(info.ttype) then " movl " + Slot(info.offset) + ", %eax"
        else " movq " + Slot(info.offset) + ", %rax";
      Ok(Emit(g, [line]).(lastType := info.ttype))
    case None =>
      if e.name in g.globalSymbols then Ok(Emit(g, [" movq " + e.name + "(%rip), %rax"]).(lastType := I64))
      else Err(UndeclaredPrefix + e.name)
  }

  function GenBinary(bits: string -> nat, g: Gen, e: Exp): (r: Result<Gen>)
    requires e.BinaryExp?
    ensures r.Ok? ==> Grows(g, r.value)
    ensures r.Ok? ==> Forgets(g, r.value)
    ensures r.Ok? && NaturalLayouts(g.tables.layouts) ==> r.value.nextStackOffset <= g.nextStackOffset
    ensures r.Ok? && LiteralFree(e) ==> r.value.nextStackOffset == g.nextStackOffset
    decreases e, 8
  {
    if e.op == ASSIGN_OP then GenAssignExp(bits, g, e)
    else if e.op == AND_OP then GenAnd(bits, g, e)
    else if e.right.NumberExp? && (e.op == PLUS_OP || e.op == MINUS_OP || e.op == MUL_OP) then
      GenImmediate(bits, g, e)
    else GenGeneral(bits, g, e)
  }

  /** A literal right operand of `+ - *`: the left operand, then one
      instruction with the immediate; when the left operand turns out to
      be a float the general path runs, evaluating it a second time. */
  function GenImmediate(bits: string -> nat, g: Gen, e: Exp): (r: Result<Gen>)
    requires e.BinaryExp? && e.right.NumberExp?
    ensures r.Ok? ==> Grows(g, r.value)
    ensures r.Ok? ==> Forgets(g, r.value)
    ensures r.Ok? && NaturalLayouts(g.tables.layouts) ==> r.value.nextStackOffset <= g.nextStackOffset
    ensures r.Ok? && LiteralFree(e) ==> r.value.nextStackOffset == g.nextStackOffset
    decreases e, 5
  {
    var g1 :- GenExp(bits, g, e.left);
    if !IsFloat(g1.lastType) then
      Ok(Emit(g1, [" " + ImmediateMnemonic(e.op) + " $" + IntToString(e.right.value) + ", %rax"]).(lastType := I64))
    else GenGeneral(bits, g1, e)
  }

  /** Left operand pushed, right operand evaluated, then combined. */
  function GenGeneral(bits: string -> nat, g: Gen, e: Exp): (r: Result<Gen>)
    requires e.BinaryExp?
    ensures r.Ok? ==> Grows(g, r.value)
    ensures r.Ok? ==> Forgets(g, r.value)
    ensures r.Ok? && NaturalLayouts(g.tables.layouts) ==> r.value.nextStackOffset <= g.nextStackOffset
    ensures r.Ok? && LiteralFree(e) ==> r.value.nextStackOffset == g.nextStackOffset
    decreases e, 0
  {
    var g1 :- GenExp(bits, g, e.left);
    var g2 :- GenExp(bits, Emit(g1, [" pushq %rax"]), e.right);
    Combine(Emit(g2, [" movq %rax, %rcx", " popq %rax"]), e.op, g1.lastType, g2.lastType)
  }

  /** Short-circuit `&&`: two fresh labels, 1 or 0 in `%rax`. */
  function GenAnd(bits: string -> nat, g: Gen, e: Exp): (r: Result<Gen>)
    requires e.BinaryExp?
    ensures r.Ok? ==> Grows(g, r.value)
    ensures r.Ok? ==> Forgets(g, r.value)
    ensures r.Ok? && NaturalLayouts(g.tables.layouts) ==> r.value.nextStackOffset <= g.nextStackOffset
    ensures r.Ok? && LiteralFree(e) ==> r.value.nextStackOffset == g.nextStackOffset
    decreases e, 0
  {
    var falseLabel := LabelText("and_false", g.nextLabelId);
    var endLabel := LabelText("and_end", g.nextLabelId + 1);
    var g1 :- GenExp(bits, TakeLabels(g, 2), e.left);
    var g2 :- GenExp(bits, Emit(g1, [" cmpq $0, %rax", " je " + falseLabel]), e.right);
    Ok(Emit(g2, [" cmpq $0, %rax", " je " + falseLabel, " movq $1, %rax", " jmp " + endLabel,
                 falseLabel + ":", " movq $0, %rax", endLabel + ":"]))
  }

  /** `=` as an expression: to a variable (the cache entries naming it are
      dropped and a local is marked initialised) or to an element of a
      named local array. */
  function GenAssignExp(bits: string -> nat, g: Gen, e: Exp): (r: Result<Gen>)
    requires e.BinaryExp?
    ensures r.Ok? ==> Grows(g, r.value)
    ensures r.Ok? ==> Forgets(g, r.value)
    ensures r.Ok? && NaturalLayouts(g.tables.layouts) ==> r.value.nextStackOffset <= g.nextStackOffset
    ensures r.Ok? && LiteralFree(e) ==> r.value.nextStackOffset == g.nextStackOffset
    ensures !e.left.IdExp? && !e.left.ArrayAccessExp? ==> r.Err?
    decreases e, 7
  {
    if e.left.IdExp? then
      var g1 :- GenExp(bits, g, e.right);
      StoreVariable(Invalidate(g1, e.left.name), e.left.name, g1.lastType)
    else if e.left.ArrayAccessExp? then GenStoreElement(bits, g, e)
    else Err("Lado izquierdo de asignación no es un identificador o acceso a array")
  }

  /** The value in `%rax` stored into variable `name`. */
  function StoreVariable(g: Gen, name: string, rhs: TType): (r: Result<Gen>)
    ensures r.Ok? ==> Grows(g, r.value) && r.value.nextStackOffset == g.nextStackOffset
    ensures r.Ok? ==> Forgets(g, r.value)
    ensures r.Err? <==> Find(g.symbols, name).None? && name !in g.globalSymbols
  {
    match Find(g.symbols, name)
    case Some(info) =>
      var g1 := g.(symbols := Assigned(g.symbols, name, info.(initialized := true)));
      Ok(Emit(g1, StoreLines(info.offset, info.ttype, StorageSize(g.tables, info.typeName, info.ttype), rhs)))
    case None =>
      if name in g.globalSymbols then Ok(Emit(g, [" movq %rax, " + name + "(%rip)"]))
      else Err(UndeclaredPrefix + name)
  }

  /** `a[i] = v`: the element address (8-byte elements when the resolved
      type names a 64-bit type, else 4) is pushed while `v` is evaluated. */
  function GenStoreElement(bits: string -> nat, g: Gen, e: Exp): (r: Result<Gen>)
    requires e.BinaryExp? && e.left.ArrayAccessExp?
    ensures r.Ok? ==> Grows(g, r.value)
    ensures r.Ok? ==> Forgets(g, r.value)
    ensures r.Ok? && NaturalLayouts(g.tables.layouts) ==> r.value.nextStackOffset <= g.nextStackOffset
    ensures r.Ok? && LiteralFree(e) ==> r.value.nextStackOffset == g.nextStackOffset
    decreases e, 6
  {
    var target := e.left;
    if !target.base.IdExp? then Err("Solo se soporta asignación a arrays con nombre directo")
    else match Find(g.symbols, target.base.name)
      case None => Err("Array no declarado: " + target.base.name)
      case Some(info) => GenElementAddress(bits, g, e, info)
  }

  /** The element address (8-byte elements when the resolved type names a
      64-bit type, else 4) is pushed. */
  function GenElementAddress(bits: string -> nat, g: Gen, e: Exp, info: SymbolInfo): (r: Result<Gen>)
    requires e.BinaryExp? && e.left.ArrayAccessExp?
    ensures r.Ok? ==> Grows(g, r.value)
    ensures r.Ok? ==> Forgets(g, r.value)
    ensures r.Ok? && NaturalLayouts(g.tables.layouts) ==> r.value.nextStackOffset <= g.nextStackOffset
    ensures r.Ok? && LiteralFree(e) ==> r.value.nextStackOffset == g.nextStackOffset
    decreases e, 5
  {
    var elem := ElementSize(g.tables.aliases, info.typeName);
    assert LiteralFree(e) ==> LiteralFree(e.left) && LiteralFree(e.right);
    assert LiteralFree(e.left) ==> LiteralFree(e.left.index);
    var g1 :- GenExp(bits, Emit(g, [" leaq " + Slot(info.offset) + ", %rax", " pushq %rax"]), e.left.index);
    GenStoreValue(bits, Emit(g1, [" movq %rax, %rcx", " popq %rax",
                                  " leaq (%rax, %rcx, " + IntToString(elem) + "), %rax", " pushq %rax"]), e, elem)
  }

  /** 8 when the resolved type name mentions a 64-bit type, else 4. */
  function ElementSize(aliases: map<string, string>, typeName: string): int {
    var t := Resolve(aliases, typeName);
    if Contains(t, "i64") || Contains(t, "u64") || Contains(t, "f64") then 8 else 4
  }

  /** The element's address is on the stack: the value, then the store. */
  function GenStoreValue(bits: string -> nat, g: Gen, e: Exp, elem: int): (r: Result<Gen>)
    requires e.BinaryExp?
    ensures r.Ok? ==> Grows(g, r.value)
    ensures r.Ok? ==> Forgets(g, r.value)
    ensures r.Ok? && NaturalLayouts(g.tables.layouts) ==> r.value.nextStackOffset <= g.nextStackOffset
    ensures r.Ok? && LiteralFree(e.right) ==> r.value.nextStackOffset == g.nextStackOffset
    decreases e, 0
  {
    var g1 :- GenExp(bits, g, e.right);
    Ok(Emit(g1, [" popq %rdi", if elem == 4 then " movl %eax, (%rdi)" else " movq %rax, (%rdi)"]))
  }

  /** A call: arguments from last to first, the first six into registers
      and the rest pushed, with the stack kept 16-byte aligned. */
  function GenCall(bits: string -> nat, g: Gen, e: Exp): (r: Result<Gen>)
    requires e.FcallExp?
    ensures r.Ok? ==> Grows(g, r.value)
    ensures r.Ok? ==> Forgets(g, r.value)
    ensures r.Ok? && NaturalLayouts(g.tables.layouts) ==> r.value.nextStackOffset <= g.nextStackOffset
    ensures r.Ok? && LiteralFree(e) ==> r.value.nextStackOffset == g.nextStackOffset
    decreases e, 0
  {
    var adjust := StackAdjust(|e.argumentos|);
    var pad := if (StackArgs(|e.argumentos|) * 8) % 16 != 0 then [" subq $8, %rsp"] else [];
    var g1 :- GenArgs(bits, Emit(g, pad), e.argumentos, |e.argumentos|);
    Ok(Emit(g1, [" call " + e.nombre] + (if adjust > 0 then [" addq $" + IntToString(adjust) + ", %rsp"] else [])))
  }

  /** The arguments that do not fit in the six registers. */
  function StackArgs(n: nat): nat {
    if n > |ArgRegisters| then n - |ArgRegisters| else 0
  }

  /** The bytes the caller releases after the call: the pushed arguments,
      plus 8 of padding when their count is odd. */
  function StackAdjust(n: nat): nat {
    var bytes := StackArgs(n) * 8;
    if bytes % 16 != 0 then bytes + 8 else bytes
  }

  /** Arguments `n-1` down to `0`. */
  function GenArgs(bits: string -> nat, g: Gen, args: seq<Exp>, n: nat): (r: Result<Gen>)
    requires n <= |args|
    ensures r.Ok? ==> Grows(g, r.value)
    ensures r.Ok? ==> Forgets(g, r.value)
    ensures r.Ok? && NaturalLayouts(g.tables.layouts) ==> r.value.nextStackOffset <= g.nextStackOffset
    ensures r.Ok? && (forall i :: 0 <= i < n ==> LiteralFree(args[i])) ==> r.value.nextStackOffset == g.nextStackOffset
    decreases args, n
  {
    if n == 0 then Ok(g)
    else
      var g1 :- GenExp(bits, g, args[n - 1]);
      var line := if n - 1 >= |ArgRegisters| then " pushq %rax" else " movq %rax, " + ArgRegisters[n - 1];
      GenArgs(bits, Emit(g1, [line]), args, n - 1)
  }

  /** `a[i]` read as a 4-byte element of a named local array. */
  function GenIndex(bits: string -> nat, g: Gen, e: Exp): (r: Result<Gen>)
    requires e.ArrayAccessExp?
    ensures r.Ok? ==> Grows(g, r.value)
    ensures r.Ok? ==> Forgets(g, r.value)
    ensures r.Ok? && NaturalLayouts(g.tables.layouts) ==> r.value.nextStackOffset <= g.nextStackOffset
    ensures r.Ok? && LiteralFree(e) ==> r.value.nextStackOffset == g.nextStackOffset
    decreases e, 0
  {
    if !e.base.IdExp? then Err("Array access only supported on identifiers")
    else match Find(g.symbols, e.base.name)
      case None => Err("Array global no soportado")
      case Some(info) =>
        var g1 :- GenExp(bits, Emit(g, [" leaq " + Slot(info.offset) + ", %rax", " pushq %rax"]), e.index);
        Ok(Emit(g1, [" movq %rax, %rcx", " popq %rax", " leaq (%rax, %rcx, 4), %rax", " movl (%rax), %eax", " cltq"]))
  }

  /** `s.f` on a local struct: its address plus the field's offset, then
      an 8-byte load for 64-bit field types and a sign-extended 4-byte
      load otherwise. An unknown field reads offset 0 and type "". */
  function GenField(g: Gen, e: Exp): (r: Result<Gen>)
    requires e.FieldAccessExp?
    ensures r.Ok? ==> Grows(g, r.value) && r.value.nextStackOffset == g.nextStackOffset
    ensures r.Ok? ==> Forgets(g, r.value)
    ensures r.Ok? <==> FieldBase(g, e).Some?
  {
    match FieldBase(g, e)
    case None => Err(FieldAccessError)
    case Some((info, layout)) =>
      var offset := if e.field in layout.offsets then layout.offsets[e.field] else 0;
      var ftype := if e.field in layout.types then layout.types[e.field] else "";
      Ok(Emit(g, [" leaq " + Slot(info.offset) + ", %rax", " addq $" + IntToString(offset) + ", %rax"] + FieldLoad(ftype)))
  }

  /** The load of a field through `%rax`: 8 bytes for 64-bit field types,
      else 4 bytes sign-extended. */
  function FieldLoad(ftype: string): seq<string> {
    if ftype == "i64" || ftype == "u64" || ftype == "f64" then [" movq (%rax), %rax"]
    else [" movl (%rax), %eax", " cltq"]
  }

  /** The local a field access reads and its struct's layout: the object
      must be a declared local whose resolved type has a layout. */
  function FieldBase(g: Gen, e: Exp): (r: Option<(SymbolInfo, StructLayout)>)
    requires e.FieldAccessExp?
    ensures r.Some? ==> (exists x :: e == FieldAccessExp(IdExp(x), e.field) && Find(g.symbols, x) == Some(r.value.0))
                        && Resolve(g.tables.aliases, r.value.0.typeName) in g.tables.layouts
                        && r.value.1 == g.tables.layouts[Resolve(g.tables.aliases, r.value.0.typeName)]
  {
    match e
    case FieldAccessExp(IdExp(x), _) =>
      (match Find(g.symbols, x)
       case None => None
       case Some(info) =>
         var t := Resolve(g.tables.aliases, info.typeName);
         if t in g.tables.layouts then Some((info, g.tables.layouts[t])) else None)
    case _ => None
  }

  /** A struct literal of a known struct takes the next aligned block of
      the frame and stores each field in turn; of an unknown struct it
      writes nothing. */
  function GenStructInit(bits: string -> nat, g: Gen, e: Exp): (r: Result<Gen>)
    requires e.StructInitExp?
    ensures r.Ok? ==> Grows(g, r.value)
    ensures r.Ok? ==> Forgets(g, r.value)
    ensures r.Ok? && NaturalLayouts(g.tables.layouts) ==> r.value.nextStackOffset <= g.nextStackOffset
    decreases e, 1
  {
    var t := Resolve(g.tables.aliases, e.sname);
    if t !in g.tables.layouts then Ok(g)
    else GenStructFields(bits, g, e, g.tables.layouts[t])
  }

  function GenStructFields(bits: string -> nat, g: Gen, e: Exp, layout: StructLayout): (r: Result<Gen>)
    requires e.StructInitExp?
    ensures r.Ok? ==> Grows(g, r.value)
    ensures r.Ok? ==> Forgets(g, r.value)
    ensures r.Ok? && NaturalLayouts(g.tables.layouts) ==> r.value.nextStackOffset <= g.nextStackOffset - AlignedSize(layout.size)
    decreases e, 0
  {
    var aligned := AlignedSize(layout.size);
    var base := g.nextStackOffset - aligned + 8;
    var g1 :- GenInits(bits, g.(nextStackOffset := g.nextStackOffset - aligned), e.inits, layout, base);
    Ok(Emit(g1, [StructResult(layout.size, base)]))
  }

  /** The finished literal in `%rax`: its bytes when it fits in 8, else
      its address. */
  function StructResult(size: int, base: int): string {
    (if size <= 8 then " movq " else " leaq ") + Slot(base) + ", %rax"
  }

  function GenInits(bits: string -> nat, g: Gen, inits: seq<FieldInit>, layout: StructLayout, base: int): (r: Result<Gen>)
    ensures r.Ok? ==> Grows(g, r.value)
    ensures r.Ok? ==> Forgets(g, r.value)
    ensures r.Ok? && NaturalLayouts(g.tables.layouts) ==> r.value.nextStackOffset <= g.nextStackOffset
    decreases inits, 0
  {
    if inits == [] then Ok(g)
    else
      var f := inits[0];
      var offset := if f.fname in layout.offsets then layout.offsets[f.fname] else 0;
      var ftype := if f.fname in layout.types then layout.types[f.fname] else "";
      var g1 :- GenExp(bits, g, f.value);
      var line := (if ftype == "i32" || ftype == "bool" then " movl %eax, " else " movq %rax, ") + Slot(base + offset);
      GenInits(bits, Emit(g1, [line]), inits[1..], layout, base)
  }

  // ---------------------------------------------------------------------
  // Statements

  /** Every `let` in the statement has a type of non-negative size. */
  predicate SizedStm(tables: Tables, s: Stm)
    decreases s, 1
  {
    match s
    case BlockStm(ss) => SizedStms(tables, ss)
    case LetStm(_, _, typeName, _) => StorageSize(tables, typeName, StringToType(typeName)) >= 0
    case IfStm(_, ss, b) => SizedStms(tables, ss) && SizedElse(tables, b)
    case WhileStm(_, ss) => SizedStms(tables, ss)
    case ForStm(_, _, _, ss) => SizedStms(tables, ss)
    case _ => true
  }

  predicate SizedStms(tables: Tables, ss: seq<Stm>)
    decreases ss, 0
  {
    forall i :: 0 <= i < |ss| ==> SizedStm(tables, ss[i])
  }

  predicate SizedElse(tables: Tables, b: ElseBlock)
    decreases b, 0
  {
    b.NoElse? || SizedStms(tables, b.block)
  }

  function GenStm(bits: string -> nat, g: Gen, s: Stm): (r: Result<Gen>)
    ensures r.Ok? ==> Grows(g, r.value)
    ensures r.Ok? && NaturalLayouts(g.tables.layouts) && SizedStm(g.tables, s) ==> r.value.nextStackOffset <= g.nextStackOffset
    decreases s, 2
  {
    match s
    case BlockStm(ss) => GenBlock(bits, g, ss)
    case LetStm(_, _, _, _) => GenLet(bits, g, s)
    case IfStm(_, _, _) => GenIf(bits, g, s)
    case WhileStm(_, _) => GenWhile(bits, g, s)
    case ForStm(_, _, _, _) => GenFor(bits, g, s)
    case AssignStm(_, _) => GenAssign(bits, g, s)
    case PrintStm(e) =>
      var g1 :- GenOptExp(bits, g, e);
      Ok(Emit(g1, PrintLines(g1.lastType)))
    case ReturnStm(e) =>
      var g1 :- GenOptExp(bits, g, e);
      Ok(Emit(g1, [" jmp " + g1.ctx.returnLabel]))
  }

  /** A block opens a scope for its statements and closes it after. */
  function GenBlock(bits: string -> nat, g: Gen, ss: seq<Stm>): (r: Result<Gen>)
    ensures r.Ok? ==> Grows(g, r.value)
    ensures r.Ok? && NaturalLayouts(g.tables.layouts) && SizedStms(g.tables, ss) ==> r.value.nextStackOffset <= g.nextStackOffset
    decreases ss, 1
  {
    var g1 :- GenStms(bits, g.(symbols := g.symbols + [map[]]), ss);
    PopScope(g1)
  }

  function GenStms(bits: string -> nat, g: Gen, ss: seq<Stm>): (r: Result<Gen>)
    ensures r.Ok? ==> Grows(g, r.value)
    ensures r.Ok? && NaturalLayouts(g.tables.layouts) && SizedStms(g.tables, ss) ==> r.value.nextStackOffset <= g.nextStackOffset
    decreases ss, 0
  {
    if ss == [] then Ok(g)
    else
      var g1 :- GenStm(bits, g, ss[0]);
      GenStms(bits, g1, ss[1..])
  }

  /** An absent expression leaves 0 in `%rax`. */
  function GenOptExp(bits: string -> nat, g: Gen, e: Option<Exp>): (r: Result<Gen>)
    ensures r.Ok? ==> Grows(g, r.value)
    ensures r.Ok? ==> Forgets(g, r.value)
    ensures r.Ok? && NaturalLayouts(g.tables.layouts) ==> r.value.nextStackOffset <= g.nextStackOffset
    ensures r.Ok? && (e.Some? ==> LiteralFree(e.value)) ==> r.value.nextStackOffset == g.nextStackOffset
  {
    match e
    case None => Ok(Emit(g, [" movq $0, %rax"]))
    case Some(x) => GenExp(bits, g, x)
  }

  /** `printf` with the integer format, or with the float format after
      widening an `f32` to double. */
  function PrintLines(t: TType): seq<string> {
    if IsFloat(t) then
      [" movq %rax, %xmm0"] + (if t == F32 then [" cvtss2sd %xmm0, %xmm0"] else [])
      + [" leaq print_float_fmt(%rip), %rdi", " movl $1, %eax", " call printf@PLT"]
    else [" movq %rax, %rsi", " leaq print_fmt(%rip), %rdi", " movl $0, %eax", " call printf@PLT"]
  }

  /** `let` at the top level only records a global. Inside a function the
      variable gets the next aligned block of the frame below
      `nextStackOffset`, then its initialiser is stored (or an 8-byte
      variable is zeroed). */
  function GenLet(bits: string -> nat, g: Gen, s: Stm): (r: Result<Gen>)
    requires s.LetStm?
    ensures r.Ok? ==> Grows(g, r.value)
    ensures r.Ok? && NaturalLayouts(g.tables.layouts) && SizedStm(g.tables, s) ==> r.value.nextStackOffset <= g.nextStackOffset
    decreases s, 1
  {
    if !g.ctx.insideFunction then Ok(g.(globalSymbols := g.globalSymbols + {s.lname}))
    else GenLocalLet(bits, g, s)
  }

  /** A `let` inside a function. */
  function GenLocalLet(bits: string -> nat, g: Gen, s: Stm): (r: Result<Gen>)
    requires s.LetStm?
    ensures r.Ok? ==> Grows(g, r.value)
    ensures r.Ok? && NaturalLayouts(g.tables.layouts) && SizedStm(g.tables, s) ==> r.value.nextStackOffset <= LetOffset(g, s) - 8
  {
    LetBody(bits, DeclaredLet(g, s), s.init, LetInfo(g, s), StorageSize(g.tables, s.type_name, StringToType(s.type_name)))
  }

  /** The variable a local `let` declares: its block's offset, its tag and
      type name, and whether it has an initialiser. */
  function LetInfo(g: Gen, s: Stm): SymbolInfo
    requires s.LetStm?
  {
    SymbolInfo(LetOffset(g, s), StringToType(s.type_name), s.type_name, s.mutable_flag, s.init.Some?)
  }

  /** The state once a local `let`'s block is taken and its name declared
      in the innermost scope. */
  function DeclaredLet(g: Gen, s: Stm): Gen
    requires s.LetStm?
  {
    g.(nextStackOffset := g.nextStackOffset - AlignedSize(StorageSize(g.tables, s.type_name, StringToType(s.type_name))),
       symbols := Declared(g.symbols, s.lname, LetInfo(g, s)))
  }

  /** Once the block is declared: an uninitialised variable of at most 8
      bytes is zeroed, an initialised one stored. */
  function LetBody(bits: string -> nat, g: Gen, init: Option<Exp>, info: SymbolInfo, size: int): (r: Result<Gen>)
    ensures r.Ok? ==> Grows(g, r.value)
    ensures r.Ok? && NaturalLayouts(g.tables.layouts) ==> r.value.nextStackOffset <= g.nextStackOffset
    ensures r.Ok? && (init.None? || LiteralFree(init.value)) ==> r.value.nextStackOffset == g.nextStackOffset
  {
    match init
    case None => Ok(if size <= 8 then Emit(g, [" movq $0, " + Slot(info.offset)]) else g)
    case Some(x) => GenLetInit(bits, g, x, info, size)
  }

  /** The lowest address of the block a local `let` takes. */
  function LetOffset(g: Gen, s: Stm): (o: int)
    requires s.LetStm?
    ensures var size := StorageSize(g.tables, s.type_name, StringToType(s.type_name));
            size >= 0 ==> o + size <= g.nextStackOffset + 8 < o + size + 8
  {
    var size := StorageSize(g.tables, s.type_name, StringToType(s.type_name));
    g.nextStackOffset - AlignedSize(size) + 8
  }

  /** An initialiser whose signature is cached is reloaded from the slot
      recorded for it and not evaluated; otherwise it is evaluated and, if
      it is a binary expression with a signature, recorded with this
      variable's slot. */
  function GenLetInit(bits: string -> nat, g: Gen, x: Exp, info: SymbolInfo, size: int): (r: Result<Gen>)
    ensures r.Ok? ==> Grows(g, r.value)
    ensures r.Ok? && LiteralFree(x) ==> r.value.nextStackOffset == g.nextStackOffset
    ensures r.Ok? && NaturalLayouts(g.tables.layouts) ==> r.value.nextStackOffset <= g.nextStackOffset
    ensures r.Ok? ==> r.value.dag.cache.Keys <= g.dag.cache.Keys + {Signature(x)}
    ensures r.Ok? && (!x.BinaryExp? || Signature(x) == "") ==> Forgets(g, r.value)
  {
    var g1 :- LetValue(bits, g, x, info);
    Ok(Emit(g1, StoreLines(info.offset, info.ttype, size, g1.lastType)))
  }

  /** The initialiser's value in `%rax`, and `lastType` left as it was on
      a cache hit. */
  function LetValue(bits: string -> nat, g: Gen, x: Exp, info: SymbolInfo): (r: Result<Gen>)
    ensures r.Ok? ==> Grows(g, r.value)
    ensures r.Ok? && LiteralFree(x) ==> r.value.nextStackOffset == g.nextStackOffset
    ensures r.Ok? && NaturalLayouts(g.tables.layouts) ==> r.value.nextStackOffset <= g.nextStackOffset
    ensures r.Ok? ==> r.value.dag.cache.Keys <= g.dag.cache.Keys + {Signature(x)}
    ensures r.Ok? && (!x.BinaryExp? || Signature(x) == "") ==> Forgets(g, r.value)
  {
    match Lookup(g.config.dag, g.dag.cache, Signature(x))
    case Some(entry) => Ok(Reload(g, entry))
    case None => Evaluated(bits, g, x, info)
  }

  /** A hit: counted, and the recorded slot reloaded. */
  function Reload(g: Gen, entry: CacheEntry): Gen {
    Emit(g.(dag := g.dag.(hits := g.dag.hits + 1)), ReloadLines(entry))
  }

  /** A miss: counted, the initialiser evaluated, and a binary one with a
      signature recorded. */
  function Evaluated(bits: string -> nat, g: Gen, x: Exp, info: SymbolInfo): (r: Result<Gen>)
    ensures r.Ok? ==> Grows(g, r.value)
    ensures r.Ok? && LiteralFree(x) ==> r.value.nextStackOffset == g.nextStackOffset
    ensures r.Ok? && NaturalLayouts(g.tables.layouts) ==> r.value.nextStackOffset <= g.nextStackOffset
    ensures r.Ok? ==> r.value.dag.cache.Keys <= g.dag.cache.Keys + {Signature(x)}
    ensures r.Ok? && (!x.BinaryExp? || Signature(x) == "") ==> Forgets(g, r.value)
  {
    var g1 :- GenExp(bits, g.(dag := g.dag.(misses := g.dag.misses + 1)), x);
    var sig := Signature(x);
    Ok(if sig != "" && x.BinaryExp? then Remember(g1, sig, info) else g1)
  }

  /** A cache hit reloads the recorded slot, 4 bytes for 32-bit tags. */
  const ReuseComment := " # DAG: reutilizando subexpresion"

  function ReloadLines(entry: CacheEntry): seq<string> {
    [ReuseComment,
     if IsWord(entry.ttype) then " movl " + Slot(entry.offset) + ", %eax" else " movq " + Slot(entry.offset) + ", %rax"]
  }

  /** `saveToDAGCache` with the variable's slot and tag. */
  function Remember(g: Gen, sig: string, info: SymbolInfo): Gen {
    g.(dag := g.dag.(cache := Save(g.config.dag, g.dag.cache, sig, CacheEntry(info.offset, info.ttype, sig))))
  }

  /** `if`: two labels, the cache cleared before the condition, before the
      `else` block and after the statement. */
  function GenIf(bits: string -> nat, g: Gen, s: Stm): (r: Result<Gen>)
    requires s.IfStm?
    ensures r.Ok? ==> Grows(g, r.value)
    ensures r.Ok? && NaturalLayouts(g.tables.layouts) && SizedStm(g.tables, s) ==> r.value.nextStackOffset <= g.nextStackOffset
    decreases s, 1
  {
    var elseLabel := LabelText("else", g.nextLabelId);
    var endLabel := LabelText("endif", g.nextLabelId + 1);
    var g1 :- GenExp(bits, ClearCache(TakeLabels(g, 2)), s.condition);
    var g2 :- Guarded(bits, g1, [" cmpq $0, %rax", " je " + elseLabel], s.thenBlock, [" jmp " + endLabel, elseLabel + ":"]);
    ElseThenEnd(bits, ClearCache(g2), s.elseBlock, endLabel)
  }

  /** The `else` block, then the end label. */
  function ElseThenEnd(bits: string -> nat, g: Gen, b: ElseBlock, endLabel: string): (r: Result<Gen>)
    ensures r.Ok? ==> Grows(g, r.value)
    ensures r.Ok? && NaturalLayouts(g.tables.layouts) && SizedElse(g.tables, b) ==> r.value.nextStackOffset <= g.nextStackOffset
    decreases b, 2
  {
    var g1 :- GenElse(bits, g, b);
    Ok(ClearCache(Emit(g1, [endLabel + ":"])))
  }

  /** A block between a test that jumps past it and the lines that close
      it. */
  function Guarded(bits: string -> nat, g: Gen, test: seq<string>, ss: seq<Stm>, close: seq<string>): (r: Result<Gen>)
    ensures r.Ok? ==> Grows(g, r.value)
    ensures r.Ok? && NaturalLayouts(g.tables.layouts) && SizedStms(g.tables, ss) ==> r.value.nextStackOffset <= g.nextStackOffset
    decreases ss, 2
  {
    var g1 :- GenBlock(bits, Emit(g, test), ss);
    Ok(Emit(g1, close))
  }

  function GenElse(bits: string -> nat, g: Gen, b: ElseBlock): (r: Result<Gen>)
    ensures r.Ok? ==> Grows(g, r.value)
    ensures r.Ok? && NaturalLayouts(g.tables.layouts) && SizedElse(g.tables, b) ==> r.value.nextStackOffset <= g.nextStackOffset
    decreases b, 1
  {
    match b
    case NoElse => Ok(g)
    case Else(ss) => GenBlock(bits, g, ss)
  }

  /** `while`: the condition is tested at the top; the cache is cleared on
      entry and exit. */
  function GenWhile(bits: string -> nat, g: Gen, s: Stm): (r: Result<Gen>)
    requires s.WhileStm?
    ensures r.Ok? ==> Grows(g, r.value)
    ensures r.Ok? && NaturalLayouts(g.tables.layouts) && SizedStm(g.tables, s) ==> r.value.nextStackOffset <= g.nextStackOffset
    decreases s, 1
  {
    var startLabel := LabelText("while_begin", g.nextLabelId);
    var endLabel := LabelText("while_end", g.nextLabelId + 1);
    var g1 :- GenExp(bits, Emit(ClearCache(TakeLabels(g, 2)), [startLabel + ":"]), s.condition);
    var g2 :- Guarded(bits, g1, [" cmpq $0, %rax", " je " + endLabel], s.body, [" jmp " + startLabel, endLabel + ":"]);
    Ok(ClearCache(g2))
  }

  /** `for i in a..b`: a scope holding the iterator's 8-byte slot, which
      starts at `a` and is compared with `b` (re-evaluated) on each turn. */
  function GenFor(bits: string -> nat, g: Gen, s: Stm): (r: Result<Gen>)
    requires s.ForStm?
    ensures r.Ok? ==> Grows(g, r.value)
    ensures r.Ok? && NaturalLayouts(g.tables.layouts) && SizedStm(g.tables, s) ==> r.value.nextStackOffset <= g.nextStackOffset
    decreases s, 1
  {
    var g0 := ClearCache(g.(symbols := g.symbols + [map[]]));
    var slot := g0.nextStackOffset;
    var g1 :- GenExp(bits, DeclareLocal(g0, s.iteratorName, SymbolInfo(0, I64, "", true, true)), s.start);
    var g2 :- GenForLoop(bits, Emit(g1, [" movq %rax, " + Slot(slot)]), s, slot);
    var g3 :- PopScope(g2);
    Ok(ClearCache(g3))
  }

  /** The labels are taken after the start value is stored. */
  function GenForLoop(bits: string -> nat, g: Gen, s: Stm, slot: int): (r: Result<Gen>)
    requires s.ForStm?
    ensures r.Ok? ==> Grows(g, r.value)
    ensures r.Ok? && NaturalLayouts(g.tables.layouts) && SizedStm(g.tables, s) ==> r.value.nextStackOffset <= g.nextStackOffset
    decreases s, 0
  {
    var loopLabel := LabelText("for_begin", g.nextLabelId);
    var endLabel := LabelText("for_end", g.nextLabelId + 1);
    var g1 :- GenExp(bits, Emit(TakeLabels(g, 2), [loopLabel + ":"]), s.end);
    Guarded(bits, g1, [" movq %rax, %rcx", " movq " + Slot(slot) + ", %rax", " cmpq %rcx, %rax", " jge " + endLabel],
            s.body, [" movq " + Slot(slot) + ", %rax", " addq $1, %rax", " movq %rax, " + Slot(slot),
                     " jmp " + loopLabel, endLabel + ":"])
  }

  /** `x = e;`: `_` only evaluates `e`; otherwise the cache entries naming
      `x` are dropped and `%rax` goes to the local's slot or the global. */
  function GenAssign(bits: string -> nat, g: Gen, s: Stm): (r: Result<Gen>)
    requires s.AssignStm?
    ensures r.Ok? ==> Grows(g, r.value)
    ensures r.Ok? && NaturalLayouts(g.tables.layouts) && SizedStm(g.tables, s) ==> r.value.nextStackOffset <= g.nextStackOffset
    decreases s, 1
  {
    if s.id == "_" then GenExp(bits, g, s.rhs)
    else
      var g1 :- GenExp(bits, g, s.rhs);
      StoreAssigned(Invalidate(g1, s.id), s.id)
  }

  function StoreAssigned(g: Gen, name: string): (r: Result<Gen>)
    ensures r.Ok? ==> Grows(g, r.value) && r.value.nextStackOffset == g.nextStackOffset
    ensures r.Ok? ==> Forgets(g, r.value)
    ensures r.Err? <==> Find(g.symbols, name).None? && name !in g.globalSymbols
  {
    match Find(g.symbols, name)
    case Some(info) =>
      Ok(Emit(g.(symbols := Assigned(g.symbols, name, info.(initialized := true))), [" movq %rax, " + Slot(info.offset)]))
    case None =>
      if name in g.globalSymbols then Ok(Emit(g, [" movq %rax, " + name + "(%rip)"]))
      else Err(UndeclaredPrefix + name)
  }

  // ---------------------------------------------------------------------
  // Declarations, functions and the program

  /** `var` at the top level records globals; inside a function each name
      gets the next 8-byte slot. */
  function GenVarDec(g: Gen, vd: VarDec): (h: Gen)
    ensures h == g.(nextStackOffset := h.nextStackOffset, symbols := h.symbols, globalSymbols := h.globalSymbols)
    ensures !g.ctx.insideFunction ==>
              && h.nextStackOffset == g.nextStackOffset && h.symbols == g.symbols
              && forall x :: x in h.globalSymbols <==> x in g.globalSymbols || x in vd.variables
    ensures g.ctx.insideFunction ==>
              && h.globalSymbols == g.globalSymbols
              && h.nextStackOffset == g.nextStackOffset - 8 * |vd.variables|
              && (g.symbols != [] ==> |h.symbols| == |g.symbols|)
  {
    if !g.ctx.insideFunction then g.(globalSymbols := AddGlobals(g.globalSymbols, vd.variables))
    else DeclareVars(g, vd.variables, StringToType(vd.tipo))
  }

  /** The global table after each name is added in turn. */
  function AddGlobals(globals: set<string>, names: seq<string>): (r: set<string>)
    ensures forall x :: x in r <==> x in globals || x in names
    decreases |names|
  {
    if names == [] then globals else AddGlobals(globals + {names[0]}, names[1..])
  }

  function DeclareVars(g: Gen, names: seq<string>, t: TType): (h: Gen)
    ensures h == g.(nextStackOffset := h.nextStackOffset, symbols := h.symbols)
    ensures h.nextStackOffset == g.nextStackOffset - 8 * |names|
    ensures g.symbols != [] ==> |h.symbols| == |g.symbols|
    decreases |names|
  {
    if names == [] then g
    else DeclareVars(DeclareLocal(g, names[0], SymbolInfo(0, t, "", true, false)), names[1..], t)
  }

  function GenVarDecs(g: Gen, vds: seq<VarDec>): (h: Gen)
    ensures h == g.(nextStackOffset := h.nextStackOffset, symbols := h.symbols, globalSymbols := h.globalSymbols)
    ensures g.globalSymbols <= h.globalSymbols && h.nextStackOffset <= g.nextStackOffset
    ensures g.symbols != [] ==> |h.symbols| == |g.symbols|
    decreases |vds|
  {
    if vds == [] then g else GenVarDecs(GenVarDec(g, vds[0]), vds[1..])
  }

  /** The declarations, then the statements, in the current scope. */
  function GenBody(bits: string -> nat, g: Gen, b: Body): (r: Result<Gen>)
    ensures r.Ok? ==> Grows(g, r.value)
    ensures r.Ok? && NaturalLayouts(g.tables.layouts) && SizedStms(g.tables, b.stmlist) ==> r.value.nextStackOffset <= g.nextStackOffset
  {
    GenStms(bits, GenVarDecs(g, b.vdlist), b.stmlist)
  }

  /** Each parameter that arrives in a register has a type name. */
  predicate ParamsTyped(f: FunDec) {
    |f.Nparametros| <= |f.Tparametros| || |ArgRegisters| <= |f.Tparametros|
  }

  /** The parameters arriving in registers get a slot each, from the
      first on, and are stored there; the others are not declared. */
  function DeclareParams(g: Gen, names: seq<string>, types: seq<string>, idx: nat): (h: Gen)
    requires |names| <= |types| || |ArgRegisters| <= |types|
    ensures h == g.(io := h.io, nextStackOffset := h.nextStackOffset, symbols := h.symbols)
    ensures idx <= RegisterParams(names) ==> h.nextStackOffset == g.nextStackOffset - 8 * (RegisterParams(names) - idx)
    ensures h.io.buffering == g.io.buffering && h.io.Buffer() == g.io.Buffer() && g.io.Out() <= h.io.Out()
    ensures g.symbols != [] ==> |h.symbols| == |g.symbols|
    decreases |names| - idx
  {
    if idx < |names| && idx < |ArgRegisters| then
      var g1 := DeclareLocal(g, names[idx], SymbolInfo(0, StringToType(types[idx]), types[idx], false, true));
      DeclareParams(EmitOut(g1, [" movq " + ArgRegisters[idx] + ", " + Slot(g.nextStackOffset)]), names, types, idx + 1)
    else g
  }

  /** The parameters that arrive in registers, at most six. */
  function RegisterParams(names: seq<string>): nat {
    if |names| < |ArgRegisters| then |names| else |ArgRegisters|
  }

  /** The slots the planner reserved for function `name`, 0 if none. */
  function Reserved(tables: Tables, name: string): int {
    if name in tables.frames then tables.frames[name] else 0
  }

  /** The function's label and frame set-up, reserving its planned slots
      and ten more. */
  function Prologue(name: string, reserved: int): (r: seq<string>)
    ensures |r| >= 4 && r[1] == name + ":"
    ensures reserved >= 0 ==> |r| == 5 && r[4] == " subq $" + IntToString(8 * reserved + 80) + ", %rsp"
  {
    var frame := FrameBytes(reserved);
    [".globl " + name, name + ":", " pushq %rbp", " movq %rsp, %rbp"]
    + (if frame > 0 then [" subq $" + IntToString(frame) + ", %rsp"] else [])
  }

  /** `startBuffering`: with optimizations on, the body is written to an
      emptied buffer. */
  function StartBuffering(g: Gen): (h: Gen)
    ensures h == g.(io := h.io) && h.io.Out() == g.io.Out()
    ensures g.config.optimizations ==> h.io.buffering && h.io.Buffer() == []
    ensures !g.config.optimizations ==> h.io == g.io
  {
    if g.config.optimizations then g.(io := Streams([], g.io.Out(), true)) else g
  }

  /** `flushOptimizedBuffer`: the buffered text, read back as its non-empty
      lines, goes through the optimizer with counters reset, and the result
      is written out; with nothing buffered, or optimizations off, the text
      is written out unchanged. */
  function FlushBuffer(g: Gen): (r: Result<Gen>)
    ensures !g.io.buffering ==> r == Ok(g)
    ensures r.Ok? ==> !r.value.io.buffering && r.value == g.(io := r.value.io, stats := r.value.stats)
    ensures r.Ok? && g.io.buffering ==> g.io.aside <= r.value.io.written && r.value.io.aside == g.io.written
    ensures r.Err? ==> g.io.buffering && g.config.optimizations && g.io.written != []
  {
    if !g.io.buffering then Ok(g)
    else
      var code := g.io.written;
      var out := g.io.aside;
      if !g.config.optimizations || code == [] then Ok(g.(io := Streams(out + code, code, false)))
      else
        var outcome := Optimization(g.config.optDag, g.config.optPeephole, ZeroStats, NonEmpty(SplitLines(JoinLines(code))));
        match outcome.result
        case Err(m) => Err(m)
        case Ok(lines) => Ok(g.(io := Streams(out + lines, code, false), stats := outcome.stats))
  }

  /** A function: a fresh scope and frame, the prologue, the parameters,
      the body (buffered and optimized), and the epilogue at the return
      label. */
  function GenFunDec(bits: string -> nat, g: Gen, f: FunDec): (r: Result<Gen>)
    requires ParamsTyped(f)
    ensures r.Ok? ==> && r.value.ctx == Context(false, "", "") && r.value.symbols == []
                      && r.value.tables == g.tables && r.value.config == g.config
    ensures r.Ok? && !g.io.buffering ==> !r.value.io.buffering && g.io.written <= r.value.io.written
    ensures r.Ok? && !g.io.buffering ==>
              && g.io.written + Prologue(f.nombre, Reserved(g.tables, f.nombre)) <= r.value.io.written
              && |r.value.io.written| >= 4
              && r.value.io.written[|r.value.io.written| - 4..] == [" movq $0, %rax", ".L_return_" + f.nombre + ":", " leave", " ret"]
  {
    var g0 := StartBuffering(EnterFunction(g, f));
    var g1 :- GenBody(bits, g0, f.cuerpo);
    assert g0.io.Out() <= g1.io.Out();
    FinishFunction(g1)
  }

  /** The optimized body written out, then the epilogue. */
  function FinishFunction(g: Gen): (r: Result<Gen>)
    ensures r.Ok? ==> && r.value.ctx == Context(false, "", "") && r.value.symbols == []
                      && r.value.tables == g.tables && r.value.config == g.config
                      && !r.value.io.buffering && g.io.Out() <= r.value.io.written
                      && |r.value.io.written| >= 4
                      && r.value.io.written[|r.value.io.written| - 4..] == [" movq $0, %rax", g.ctx.returnLabel + ":", " leave", " ret"]
  {
    var g1 :- FlushBuffer(g);
    Ok(LeaveFunction(g1))
  }

  /** A fresh scope, frame and cache, the prologue and the parameters. */
  function EnterFunction(g: Gen, f: FunDec): (h: Gen)
    requires ParamsTyped(f)
    ensures && h.tables == g.tables && h.config == g.config && h.symbols != []
            && h.ctx == Context(true, f.nombre, ".L_return_" + f.nombre)
            && h.io.buffering == g.io.buffering
            && g.io.Out() + Prologue(f.nombre, Reserved(g.tables, f.nombre)) <= h.io.Out()
  {
    DeclareParams(EmitOut(FreshFrame(g, f.nombre), Prologue(f.nombre, Reserved(g.tables, f.nombre))),
                  f.Nparametros, f.Tparametros, 0)
  }

  /** Inside function `name`: one empty scope, the first slot at -8, an
      empty cache. */
  function FreshFrame(g: Gen, name: string): Gen {
    g.(ctx := Context(true, name, ".L_return_" + name), symbols := [map[]],
       nextStackOffset := -8, dag := DagState(map[], 0, 0))
  }

  /** The epilogue at the return label; the scopes and the function's
      name and label are cleared. */
  function LeaveFunction(g: Gen): Gen {
    var g1 := EmitOut(g, [" movq $0, %rax", g.ctx.returnLabel + ":", " leave", " ret"]);
    g1.(symbols := [], ctx := Context(false, "", ""))
  }

  function GenFunDecs(bits: string -> nat, g: Gen, fds: seq<FunDec>): (r: Result<Gen>)
    requires forall i :: 0 <= i < |fds| ==> ParamsTyped(fds[i])
    ensures r.Ok? ==> r.value.tables == g.tables && r.value.config == g.config
    ensures r.Ok? && !g.io.buffering ==> !r.value.io.buffering && g.io.written <= r.value.io.written
    decreases |fds|
  {
    if fds == [] then Ok(g)
    else
      var g1 :- GenFunDec(bits, g, fds[0]);
      GenFunDecs(bits, g1, fds[1..])
  }

  /** The layouts after the emitter registers `sds`: field types are taken
      as written, without resolving aliases. */
  function EmitterLayouts(layouts: map<string, StructLayout>, sds: seq<StructDec>): map<string, StructLayout>
    decreases |sds|
  {
    if sds == [] then layouts
    else EmitterLayouts(layouts[sds[0].name := LayoutOf(sds[0].fields, EmitterSizes(sds[0].fields))], sds[1..])
  }

  /** One zero-initialised quad per global, in the order given. */
  function GlobalLines(order: seq<string>): seq<string>
    decreases |order|
  {
    if order == [] then [] else [order[0] + ": .quad 0"] + GlobalLines(order[1..])
  }

  lemma {:induction false} GlobalLinesAppend(order: seq<string>, x: string)
    ensures GlobalLines(order + [x]) == GlobalLines(order) + [x + ": .quad 0"]
    decreases |order|
  {
    if order != [] {
      assert (order + [x])[1..] == order[1..] + [x];
      GlobalLinesAppend(order[1..], x);
    } else {
      assert GlobalLines([x]) == [x + ": .quad 0"] + GlobalLines([]);
    }
  }

  /** Two writes to the output stream are one write of both. */
  lemma EmitOutTwice(g: Gen, a: seq<string>, b: seq<string>)
    ensures EmitOut(EmitOut(g, a), b) == EmitOut(g, a + b)
  {
    assert g.io.aside + a + b == g.io.aside + (a + b);
    assert g.io.written + a + b == g.io.written + (a + b);
  }

  /** An enumeration of a set: each member exactly once. */
  predicate Enumerates(order: seq<string>, s: set<string>) {
    (forall i :: 0 <= i < |order| ==> order[i] in s)
    && (forall x :: x in s ==> x in order)
    && (forall i, j :: 0 <= i < j < |order| ==> order[i] != order[j])
  }

  /** The data section with the two `printf` formats and one quad per
      global, then the text section: the aliases and struct layouts are
      registered and every function generated. `order` is the order in
      which the global table is walked. */
  function GenProgram(bits: string -> nat, g: Gen, p: Program, order: seq<string>): (r: Result<Gen>)
    requires forall i :: 0 <= i < |p.fdlist| ==> ParamsTyped(p.fdlist[i])
    ensures r.Ok? && !g.io.buffering && !g.ctx.insideFunction ==>
              && !r.value.io.buffering
              && g.io.written + DataHeader + GlobalLines(order) + [".text"] < r.value.io.written
              && r.value.io.written[|r.value.io.written| - 1] == StackNote
  {
    TextSection(bits, DataSection(g, p, order), p)
  }

  /** The aliases and struct layouts registered, then every function. */
  function TextSection(bits: string -> nat, g: Gen, p: Program): (r: Result<Gen>)
    requires forall i :: 0 <= i < |p.fdlist| ==> ParamsTyped(p.fdlist[i])
    ensures r.Ok? ==> r.value.tables == Registered(g.tables, p)
    ensures r.Ok? && !g.io.buffering ==>
              && !r.value.io.buffering && g.io.written < r.value.io.written
              && r.value.io.written[|r.value.io.written| - 1] == StackNote
  {
    var g2 :- GenFunDecs(bits, g.(tables := Registered(g.tables, p)), p.fdlist);
    Ok(EmitOut(g2, [StackNote]))
  }

  /** The section that marks the stack as not executable. */
  const StackNote := ".section .note.GNU-stack,\"\",@progbits"

  /** The generator's own registration of the aliases and struct layouts. */
  function Registered(tables: Tables, p: Program): Tables {
    tables.(aliases := AliasesAfter(tables.aliases, p.talist), layouts := EmitterLayouts(tables.layouts, p.sdlist))
  }

  /** The formats, the globals' declarations and one quad per global. */
  function DataSection(g: Gen, p: Program, order: seq<string>): (h: Gen)
    ensures h == g.(io := h.io, nextStackOffset := h.nextStackOffset, symbols := h.symbols, globalSymbols := h.globalSymbols)
    ensures h.io.buffering == g.io.buffering && h.io.Buffer() == g.io.Buffer()
    ensures !g.ctx.insideFunction ==> h.io.Out() == g.io.Out() + DataHeader + GlobalLines(order) + [".text"]
  {
    var g1 := GenVarDecs(EmitOut(g, DataHeader), p.vdlist);
    EmitOut(EmitOut(g1, GlobalLines(order)), [".text"])
  }

  const DataHeader: seq<string> := [".data", "print_fmt: .string \"%ld \\n\"", "print_float_fmt: .string \"%f \\n\""]

  /** The globals the data section lists. */
  function GlobalsOf(g: Gen, p: Program): set<string> {
    GenVarDecs(EmitOut(g, DataHeader), p.vdlist).globalSymbols
  }

  /** `generar`: the planner runs over the program first, sharing the alias
      and layout tables, and its frame sizes become the reservations. */
  function Generate(bits: string -> nat, g: Gen, p: Program, order: seq<string>): (r: Result<Gen>)
    requires forall i :: 0 <= i < |p.fdlist| ==> ParamsTyped(p.fdlist[i])
    ensures r.Ok? ==> r.value.tables.frames == Planned(g.tables, p).frames
    ensures r.Ok? && !g.io.buffering && !g.ctx.insideFunction ==>
              && g.io.written + DataHeader + GlobalLines(order) + [".text"] < r.value.io.written
              && r.value.io.written[|r.value.io.written| - 1] == StackNote
  {
    GenProgram(bits, g.(tables := Planned(g.tables, p)), p, order)
  }

  /** The tables after the planner's pass: aliases and its layouts
      registered, and one frame size per function. */
  function Planned(tables: Tables, p: Program): Tables {
    var aliases := AliasesAfter(tables.aliases, p.talist);
    var layouts := PlannedLayouts(aliases, tables.layouts, p.sdlist);
    Tables(aliases, layouts, FramesAfter(aliases, layouts, map[], p.fdlist))
  }
}
