/** `GenCodeVisitor`: the object that walks the syntax tree and writes
    x86-64 assembly. Each `visit` is a method proved to take the object
    from `State()` to the state the matching function of `CodeGenSpec`
    gives, or to fail with the same message. */
module CodeGen {
  import opened Wrappers
  import opened Text
  import opened SemanticTypes
  import opened Ast
  import opened Environments
  import opened Layout
  import opened DagCache
  import opened Planner
  import opened CodeOptimization
  import opened CodeGenSpec

  /** A method's outcome agrees with its specification: it fails exactly
      when the specification does, with the same message, and otherwise
      leaves the state the specification computes. */
  ghost predicate Agrees(r: Result<()>, spec: Result<Gen>, g: Gen) {
    && (r.Ok? <==> spec.Ok?)
    && (r.Err? ==> r.msg == spec.msg)
    && (spec.Ok? ==> g == spec.value)
  }

  class GenCodeVisitor {
    var out: seq<string>
    var tempOutput: seq<string>
    var bufferingOutput: bool
    var optimizationsEnabled: bool
    var dagEnabled: bool
    var nextStackOffset: int
    var nextLabelId: int
    var lastType: TType
    const symbols: Environment<SymbolInfo>
    var globalSymbols: set<string>
    var insideFunction: bool
    var currentFunctionName: string
    var currentReturnLabel: string
    var dagCache: Cache
    var dagHits: int
    var dagMisses: int
    var frameReservation: map<string, int>
    /** The alias and layout tables the planner shares. */
    const globals: Globals
    const optimizer: CodeOptimizer
    const typeChecker: TypeCheckerVisitor
    /** The bit pattern of the double a float literal denotes. */
    const floatBits: string -> nat

    ghost function State(): Gen
      reads this, symbols, globals, optimizer
    {
      Gen(if bufferingOutput then Streams(tempOutput, out, true) else Streams(out, tempOutput, false),
          nextStackOffset, nextLabelId, lastType, symbols.scopes, globalSymbols,
          Context(insideFunction, currentFunctionName, currentReturnLabel),
          DagState(dagCache, dagHits, dagMisses),
          Tables(globals.aliases, globals.layouts, frameReservation),
          Config(optimizationsEnabled, dagEnabled, optimizer.enableDag, optimizer.enablePeephole),
          optimizer.stats)
    }

    /** The planner works on the same tables. */
    ghost predicate Valid()
      reads this, typeChecker
    {
      typeChecker.globals == globals
    }

    constructor(bits: string -> nat)
      ensures Valid() && fresh(symbols) && fresh(globals) && fresh(optimizer) && fresh(typeChecker)
      ensures State() == Gen(Streams([], [], false), -8, 0, NOTYPE, [], {}, Context(false, "", ""),
                             DagState(map[], 0, 0), Tables(map[], map[], map[]), Config(true, true, true, true), ZeroStats)
    {
      out, tempOutput, bufferingOutput := [], [], false;
      optimizationsEnabled, dagEnabled := true, true;
      nextStackOffset, nextLabelId, lastType := -8, 0, NOTYPE;
      symbols := new Environment<SymbolInfo>();
      globalSymbols := {};
      insideFunction, currentFunctionName, currentReturnLabel := false, "", "";
      dagCache, dagHits, dagMisses := map[], 0, 0;
      frameReservation := map[];
      var tables := new Globals();
      globals := tables;
      optimizer := new CodeOptimizer();
      typeChecker := new TypeCheckerVisitor(tables);
      floatBits := bits;
    }

    // -------------------------------------------------------------------
    // Helpers

    /** `targetOut << ...`. */
    method Emit(lines: seq<string>)
      modifies this
      ensures State() == CodeGenSpec.Emit(old(State()), lines)
    {
      if bufferingOutput {
        tempOutput := tempOutput + lines;
      } else {
        out := out + lines;
      }
    }

    /** `targetOut << ...` followed by recording the type of the value the
        lines leave in `%rax`. */
    method EmitTyped(lines: seq<string>, t: TType)
      modifies this
      ensures State() == CodeGenSpec.Emit(old(State()), lines).(lastType := t)
    {
      Emit(lines);
      lastType := t;
    }

    /** `out << ...`. */
    method EmitOut(lines: seq<string>)
      modifies this
      ensures State() == CodeGenSpec.EmitOut(old(State()), lines)
    {
      out := out + lines;
    }

    method MakeLabel(base: string) returns (text: string)
      modifies this
      ensures text == LabelText(base, old(nextLabelId))
      ensures State() == TakeLabels(old(State()), 1)
    {
      text := ".L_" + base + "_" + IntToString(nextLabelId);
      nextLabelId := nextLabelId + 1;
    }

    /** Two labels in a row, as a statement takes them. */
    method MakeLabels(first: string, second: string) returns (l1: string, l2: string)
      modifies this
      ensures l1 == LabelText(first, old(nextLabelId)) && l2 == LabelText(second, old(nextLabelId) + 1)
      ensures State() == TakeLabels(old(State()), 2)
    {
      l1 := MakeLabel(first);
      l2 := MakeLabel(second);
    }

    method DeclareLocal(name: string, tmpl: SymbolInfo) returns (info: SymbolInfo)
      modifies this, symbols
      ensures info == tmpl.(offset := old(nextStackOffset))
      ensures State() == CodeGenSpec.DeclareLocal(old(State()), name, tmpl)
    {
      info := tmpl.(offset := nextStackOffset);
      nextStackOffset := nextStackOffset - 8;
      var _ := symbols.Declare(name, info);
    }

    method ClearDagCache()
      modifies this
      ensures State() == ClearCache(old(State()))
    {
      dagCache, dagHits, dagMisses := map[], 0, 0;
    }

    /** `invalidateDAGCache`: walks the entries and erases those whose key
        contains `ID:name`. */
    method InvalidateDagCache(name: string)
      modifies this
      ensures State() == Invalidate(old(State()), name)
    {
      if !dagEnabled {
        return;
      }
      var pattern := "ID:" + name;
      var remaining := dagCache.Keys;
      var kept: Cache := map[];
      while remaining != {}
        invariant remaining <= dagCache.Keys
        invariant forall k :: k in kept <==> k in dagCache && k !in remaining && !Contains(k, pattern)
        invariant forall k :: k in kept ==> kept[k] == dagCache[k]
        decreases |remaining|
      {
        var k :| k in remaining;
        if !Contains(k, pattern) {
          kept := kept[k := dagCache[k]];
        }
        remaining := remaining - {k};
      }
      assert kept == Invalidated(true, dagCache, name);
      dagCache := kept;
    }

    /** The storage size of a variable, resolving its type name. */
    method StorageSizeOf(typeName: string, t: TType) returns (size: int)
      requires Acyclic(globals.aliases)
      ensures size == StorageSize(State().tables, typeName, t)
    {
      var resolved := globals.ResolveAlias(typeName);
      if IsArrayType(resolved) {
        size := ArrayCount(resolved) * 4;
      } else if resolved in globals.layouts {
        size := globals.layouts[resolved].size;
      } else if t == F32 || t == I32 || t == U32 {
        size := 4;
      } else {
        size := 8;
      }
    }

    // -------------------------------------------------------------------
    // Expressions

    method VisitExp(e: Exp) returns (r: Result<()>)
      requires Acyclic(globals.aliases)
      modifies this, symbols
      ensures Agrees(r, GenExp(floatBits, old(State()), e), State())
      decreases e, 9
    {
      match e
      case NumberExp(v) => r := VisitNumber(v);
      case BoolExp(b) => r := VisitBool(b);
      case FloatExp(lit, isDouble) => r := VisitFloat(lit, isDouble);
      case IdExp(_) => r := VisitId(e);
      case BinaryExp(_, _, _) => r := VisitBinary(e);
      case FcallExp(_, _) => r := VisitCall(e);
      case ArrayAccessExp(_, _) => r := VisitIndex(e);
      case FieldAccessExp(_, _) => r := VisitField(e);
      case StructInitExp(_, _) => r := VisitStructInit(e);
    }

    method VisitNumber(v: int) returns (r: Result<()>)
      modifies this
      ensures Agrees(r, GenExp(floatBits, old(State()), NumberExp(v)), State())
    {
      EmitTyped([" movq $" + IntToString(v) + ", %rax"], I64);
      return Ok(());
    }

    /** A boolean leaves `lastType` as it was. */
    method VisitBool(b: int) returns (r: Result<()>)
      modifies this
      ensures Agrees(r, GenExp(floatBits, old(State()), BoolExp(b)), State())
    {
      Emit([" movq $" + (if b != 0 then "1" else "0") + ", %rax"]);
      return Ok(());
    }

    /** The literal's bit pattern is loaded whole and copied to `%xmm0`. */
    method VisitFloat(lit: string, isDouble: bool) returns (r: Result<()>)
      modifies this
      ensures Agrees(r, GenExp(floatBits, old(State()), FloatExp(lit, isDouble)), State())
    {
      EmitTyped([" movabsq $" + NatToString(floatBits(lit)) + ", %rax", " movq %rax, %xmm0"], if isDouble then F64 else F32);
      return Ok(());
    }

    /** The size test reads 8 bytes for anything that is neither an array
        nor a struct, which agrees with `StorageSize` on every `> 8` test. */
    method VisitId(e: Exp) returns (r: Result<()>)
      requires e.IdExp? && Acyclic(globals.aliases)
      modifies this
      ensures Agrees(r, GenId(old(State()), e), State())
    {
      var found := symbols.Lookup(e.name);
      if found.Some? {
        var info := found.value;
        var typeName := globals.ResolveAlias(info.typeName);
        var size := 8;
        if IsArrayType(typeName) {
          size := ArrayCount(typeName) * 4;
        } else if typeName in globals.layouts {
          size := globals.layouts[typeName].size;
        }
        assert size > 8 <==> StorageSize(State().tables, info.typeName, info.ttype) > 8;
        if size > 8 {
          EmitTyped([" leaq " + Slot(info.offset) + ", %rax"], info.ttype);
        } else if info.ttype == F32 || info.ttype == I32 || info.ttype == U32 {
          EmitTyped([" movl " + Slot(info.offset) + ", %eax"], info.ttype);
        } else {
          EmitTyped([" movq " + Slot(info.offset) + ", %rax"], info.ttype);
        }
        return Ok(());
      }
      if e.name in globalSymbols {
        EmitTyped([" movq " + e.name + "(%rip), %rax"], I64);
        return Ok(());
      }
      return Err(UndeclaredPrefix + e.name);
    }

    method VisitBinary(e: Exp) returns (r: Result<()>)
      requires e.BinaryExp? && Acyclic(globals.aliases)
      modifies this, symbols
      ensures Agrees(r, GenBinary(floatBits, old(State()), e), State())
      decreases e, 8
    {
      if e.op == ASSIGN_OP {
        r := VisitAssignExp(e);
      } else if e.op == AND_OP {
        r := VisitAnd(e);
      } else if e.right.NumberExp? && (e.op == PLUS_OP || e.op == MINUS_OP || e.op == MUL_OP) {
        r := VisitImmediate(e);
      } else {
        r := VisitGeneral(e);
      }
    }

    method VisitImmediate(e: Exp) returns (r: Result<()>)
      requires e.BinaryExp? && e.right.NumberExp? && Acyclic(globals.aliases)
      modifies this, symbols
      ensures Agrees(r, GenImmediate(floatBits, old(State()), e), State())
      decreases e, 5
    {
      r := VisitExp(e.left);
      if r.Err? {
        return;
      }
      if lastType != F32 && lastType != F64 {
        EmitTyped([" " + ImmediateMnemonic(e.op) + " $" + IntToString(e.right.value) + ", %rax"], I64);
        return Ok(());
      }
      r := VisitGeneral(e);
    }

    method VisitGeneral(e: Exp) returns (r: Result<()>)
      requires e.BinaryExp? && Acyclic(globals.aliases)
      modifies this, symbols
      ensures Agrees(r, GenGeneral(floatBits, old(State()), e), State())
      decreases e, 0
    {
      r := VisitExp(e.left);
      if r.Err? {
        return;
      }
      var leftType := lastType;
      Emit([" pushq %rax"]);
      r := VisitExp(e.right);
      if r.Err? {
        return;
      }
      var rightType := lastType;
      Emit([" movq %rax, %rcx", " popq %rax"]);
      r := Combine(e.op, leftType, rightType);
    }

    method Combine(op: BinaryOp, leftType: TType, rightType: TType) returns (r: Result<()>)
      modifies this
      ensures Agrees(r, CodeGenSpec.Combine(old(State()), op, leftType, rightType), State())
    {
      if IsFloat(leftType) || IsFloat(rightType) {
        r := CombineFloat(op, leftType, rightType);
      } else {
        r := CombineInt(op, leftType, rightType);
      }
    }

    /** SSE arithmetic: only `+ - * /` are supported. */
    method CombineFloat(op: BinaryOp, leftType: TType, rightType: TType) returns (r: Result<()>)
      requires IsFloat(leftType) || IsFloat(rightType)
      modifies this
      ensures Agrees(r, CodeGenSpec.Combine(old(State()), op, leftType, rightType), State())
    {
      var single := leftType == F32 && rightType == F32;
      var line := FloatOpLine(op, single);
      if line.Err? {
        return Err(line.msg);
      }
      EmitTyped(FloatLines(line.value, leftType, rightType), if single then F32 else F64);
      return Ok(());
    }

    method CombineInt(op: BinaryOp, leftType: TType, rightType: TType) returns (r: Result<()>)
      requires !IsFloat(leftType) && !IsFloat(rightType)
      modifies this
      ensures Agrees(r, CodeGenSpec.Combine(old(State()), op, leftType, rightType), State())
    {
      var lines := IntOpLines(op);
      if lines.Err? {
        return Err(lines.msg);
      }
      EmitTyped(lines.value, I64);
      return Ok(());
    }

    method VisitAnd(e: Exp) returns (r: Result<()>)
      requires e.BinaryExp? && Acyclic(globals.aliases)
      modifies this, symbols
      ensures Agrees(r, GenAnd(floatBits, old(State()), e), State())
      decreases e, 0
    {
      var falseLabel := MakeLabel("and_false");
      var endLabel := MakeLabel("and_end");
      r := VisitExp(e.left);
      if r.Err? {
        return;
      }
      Emit([" cmpq $0, %rax", " je " + falseLabel]);
      r := VisitExp(e.right);
      if r.Err? {
        return;
      }
      Emit([" cmpq $0, %rax", " je " + falseLabel, " movq $1, %rax", " jmp " + endLabel,
            falseLabel + ":", " movq $0, %rax", endLabel + ":"]);
    }

    method VisitAssignExp(e: Exp) returns (r: Result<()>)
      requires e.BinaryExp? && Acyclic(globals.aliases)
      modifies this, symbols
      ensures Agrees(r, GenAssignExp(floatBits, old(State()), e), State())
      decreases e, 7
    {
      if e.left.IdExp? {
        r := VisitExp(e.right);
        if r.Err? {
          return;
        }
        var rhsType := lastType;
        InvalidateDagCache(e.left.name);
        r := StoreVariable(e.left.name, rhsType);
      } else if e.left.ArrayAccessExp? {
        r := VisitStoreElement(e);
      } else {
        r := Err("Lado izquierdo de asignación no es un identificador o acceso a array");
      }
    }

    method StoreVariable(name: string, rhsType: TType) returns (r: Result<()>)
      requires Acyclic(globals.aliases)
      modifies this, symbols
      ensures Agrees(r, CodeGenSpec.StoreVariable(old(State()), name, rhsType), State())
    {
      var found := symbols.Lookup(name);
      match found
      case Some(info) =>
        var _ := symbols.Assign(name, info.(initialized := true));
        var size := StorageSizeOf(info.typeName, info.ttype);
        Emit(StoreLines(info.offset, info.ttype, size, rhsType));
        return Ok(());
      case None =>
        if name in globalSymbols {
          Emit([" movq %rax, " + name + "(%rip)"]);
          return Ok(());
        }
        return Err(UndeclaredPrefix + name);
    }

    method VisitStoreElement(e: Exp) returns (r: Result<()>)
      requires e.BinaryExp? && e.left.ArrayAccessExp? && Acyclic(globals.aliases)
      modifies this, symbols
      ensures Agrees(r, GenStoreElement(floatBits, old(State()), e), State())
      decreases e, 6
    {
      if !e.left.base.IdExp? {
        return Err("Solo se soporta asignación a arrays con nombre directo");
      }
      var found := symbols.Lookup(e.left.base.name);
      if found.None? {
        return Err("Array no declarado: " + e.left.base.name);
      }
      r := ElementAddress(e, found.value);
    }

    method ElementAddress(e: Exp, info: SymbolInfo) returns (r: Result<()>)
      requires e.BinaryExp? && e.left.ArrayAccessExp? && Acyclic(globals.aliases)
      modifies this, symbols
      ensures Agrees(r, GenElementAddress(floatBits, old(State()), e, info), State())
      decreases e, 5
    {
      var typeName := globals.ResolveAlias(info.typeName);
      var elemSize := 4;
      if Contains(typeName, "i64") || Contains(typeName, "u64") || Contains(typeName, "f64") {
        elemSize := 8;
      }
      Emit([" leaq " + Slot(info.offset) + ", %rax", " pushq %rax"]);
      r := VisitExp(e.left.index);
      if r.Err? {
        return;
      }
      Emit([" movq %rax, %rcx", " popq %rax", " leaq (%rax, %rcx, " + IntToString(elemSize) + "), %rax", " pushq %rax"]);
      r := VisitExp(e.right);
      if r.Err? {
        return;
      }
      Emit([" popq %rdi", if elemSize == 4 then " movl %eax, (%rdi)" else " movq %rax, (%rdi)"]);
    }

    /** The arguments are evaluated from the last to the first. */
    method VisitCall(e: Exp) returns (r: Result<()>)
      requires e.FcallExp? && Acyclic(globals.aliases)
      modifies this, symbols
      ensures Agrees(r, GenCall(floatBits, old(State()), e), State())
      decreases e, 0
    {
      var args := e.argumentos;
      var totalArgs := |args|;
      var stackArgs := StackArgs(totalArgs);
      var stackAdjust := stackArgs * 8;
      ghost var g0 := State();
      if stackAdjust % 16 != 0 {
        Emit([" subq $8, %rsp"]);
        g0 := State();
        stackAdjust := stackAdjust + 8;
      } else {
        assert g0.io.written + [] == g0.io.written;
      }
      var idx := totalArgs;
      while idx > 0
        invariant 0 <= idx <= totalArgs
        invariant Acyclic(globals.aliases)
        invariant GenArgs(floatBits, g0, args, totalArgs) == GenArgs(floatBits, State(), args, idx)
        decreases idx
      {
        r := VisitArg(args, idx);
        if r.Err? {
          return;
        }
        idx := idx - 1;
      }
      Emit([" call " + e.nombre] + (if stackAdjust > 0 then [" addq $" + IntToString(stackAdjust) + ", %rsp"] else []));
      return Ok(());
    }

    /** Argument `idx - 1`, left in its register or pushed. */
    method VisitArg(args: seq<Exp>, idx: nat) returns (r: Result<()>)
      requires 0 < idx <= |args| && Acyclic(globals.aliases)
      modifies this, symbols
      ensures r.Ok? ==> GenArgs(floatBits, old(State()), args, idx) == GenArgs(floatBits, State(), args, idx - 1)
      ensures r.Err? ==> GenArgs(floatBits, old(State()), args, idx) == Err(r.msg)
      decreases args, idx
    {
      r := VisitExp(args[idx - 1]);
      if r.Err? {
        return;
      }
      if idx - 1 >= |ArgRegisters| {
        Emit([" pushq %rax"]);
      } else {
        Emit([" movq %rax, " + ArgRegisters[idx - 1]]);
      }
    }

    method VisitIndex(e: Exp) returns (r: Result<()>)
      requires e.ArrayAccessExp? && Acyclic(globals.aliases)
      modifies this, symbols
      ensures Agrees(r, GenIndex(floatBits, old(State()), e), State())
      decreases e, 0
    {
      if !e.base.IdExp? {
        return Err("Array access only supported on identifiers");
      }
      var found := symbols.Lookup(e.base.name);
      if found.None? {
        return Err("Array global no soportado");
      }
      Emit([" leaq " + Slot(found.value.offset) + ", %rax", " pushq %rax"]);
      r := VisitExp(e.index);
      if r.Err? {
        return;
      }
      Emit([" movq %rax, %rcx", " popq %rax", " leaq (%rax, %rcx, 4), %rax", " movl (%rax), %eax", " cltq"]);
    }

    method VisitField(e: Exp) returns (r: Result<()>)
      requires e.FieldAccessExp? && Acyclic(globals.aliases)
      modifies this
      ensures Agrees(r, GenField(old(State()), e), State())
    {
      var found := FieldBaseOf(e);
      if found.None? {
        return Err(FieldAccessError);
      }
      var (info, layout) := found.value;
      var offset := if e.field in layout.offsets then layout.offsets[e.field] else 0;
      var fieldType := if e.field in layout.types then layout.types[e.field] else "";
      Emit([" leaq " + Slot(info.offset) + ", %rax", " addq $" + IntToString(offset) + ", %rax"] + FieldLoad(fieldType));
      return Ok(());
    }

    /** The local a field access reads, when it is one whose resolved type
        has a layout, with that layout. */
    method FieldBaseOf(e: Exp) returns (found: Option<(SymbolInfo, StructLayout)>)
      requires e.FieldAccessExp? && Acyclic(globals.aliases)
      ensures found == FieldBase(State(), e)
    {
      if !e.record.IdExp? {
        return None;
      }
      var local := symbols.Lookup(e.record.name);
      if local.None? {
        return None;
      }
      var typeName := globals.ResolveAlias(local.value.typeName);
      if typeName !in globals.layouts {
        return None;
      }
      return Some((local.value, globals.layouts[typeName]));
    }

    /** A struct literal of an unknown struct writes nothing. */
    method VisitStructInit(e: Exp) returns (r: Result<()>)
      requires e.StructInitExp? && Acyclic(globals.aliases)
      modifies this, symbols
      ensures Agrees(r, GenStructInit(floatBits, old(State()), e), State())
      decreases e, 1
    {
      var resolvedName := globals.ResolveAlias(e.sname);
      if resolvedName !in globals.layouts {
        return Ok(());
      }
      r := VisitStructFields(e, globals.layouts[resolvedName]);
    }

    method VisitStructFields(e: Exp, layout: StructLayout) returns (r: Result<()>)
      requires e.StructInitExp? && Acyclic(globals.aliases)
      modifies this, symbols
      ensures Agrees(r, GenStructFields(floatBits, old(State()), e, layout), State())
      decreases e, 0
    {
      var size := layout.size;
      var alignedSize := AlignedSize(size);
      var structBaseOffset := nextStackOffset - alignedSize + 8;
      nextStackOffset := nextStackOffset - alignedSize;
      r := VisitInits(e.inits, layout, structBaseOffset);
      if r.Err? {
        return;
      }
      Emit([StructResult(size, structBaseOffset)]);
      return Ok(());
    }

    /** The field initialisers in order. */
    method VisitInits(inits: seq<FieldInit>, layout: StructLayout, base: int) returns (r: Result<()>)
      requires Acyclic(globals.aliases)
      modifies this, symbols
      ensures Agrees(r, GenInits(floatBits, old(State()), inits, layout, base), State())
      decreases inits, 1
    {
      var i := 0;
      while i < |inits|
        invariant 0 <= i <= |inits|
        invariant Acyclic(globals.aliases)
        invariant GenInits(floatBits, old(State()), inits, layout, base)
                  == GenInits(floatBits, State(), inits[i..], layout, base)
        decreases |inits| - i
      {
        r := VisitInit(inits, i, layout, base);
        if r.Err? {
          return;
        }
        i := i + 1;
      }
      assert inits[i..] == [];
      return Ok(());
    }

    /** Field initialiser `i`: its value stored at the field's offset from
        the struct's base, 4 bytes for `i32` and `bool` fields. */
    method VisitInit(inits: seq<FieldInit>, i: nat, layout: StructLayout, base: int) returns (r: Result<()>)
      requires i < |inits| && Acyclic(globals.aliases)
      modifies this, symbols
      ensures r.Ok? ==> GenInits(floatBits, old(State()), inits[i..], layout, base)
                        == GenInits(floatBits, State(), inits[i + 1..], layout, base)
      ensures r.Err? ==> GenInits(floatBits, old(State()), inits[i..], layout, base) == Err(r.msg)
      decreases inits, 0
    {
      var f := inits[i];
      var fieldOffset := if f.fname in layout.offsets then layout.offsets[f.fname] else 0;
      var ftype := if f.fname in layout.types then layout.types[f.fname] else "";
      assert inits[i..][1..] == inits[i + 1..];
      r := VisitExp(f.value);
      if r.Err? {
        return;
      }
      Emit([(if ftype == "i32" || ftype == "bool" then " movl %eax, " else " movq %rax, ") + Slot(base + fieldOffset)]);
    }
    // -------------------------------------------------------------------
    // Statements

    method VisitStm(s: Stm) returns (r: Result<()>)
      requires Acyclic(globals.aliases)
      modifies this, symbols
      ensures Agrees(r, GenStm(floatBits, old(State()), s), State())
      decreases s, 3
    {
      match s
      case BlockStm(ss) => r := VisitBlock(ss);
      case LetStm(_, _, _, _) => r := VisitLet(s);
      case IfStm(_, _, _) => r := VisitIf(s);
      case WhileStm(_, _) => r := VisitWhile(s);
      case ForStm(_, _, _, _) => r := VisitFor(s);
      case AssignStm(_, _) => r := VisitAssign(s);
      case PrintStm(_) => r := VisitPrint(s);
      case ReturnStm(_) => r := VisitReturn(s);
    }

    method VisitBlock(ss: seq<Stm>) returns (r: Result<()>)
      requires Acyclic(globals.aliases)
      modifies this, symbols
      ensures Agrees(r, GenBlock(floatBits, old(State()), ss), State())
      decreases ss, 2
    {
      symbols.PushScope();
      r := VisitStms(ss);
      if r.Err? {
        return;
      }
      r := symbols.PopScope();
    }

    /** The statements in order, stopping at the first failure. */
    method VisitStms(ss: seq<Stm>) returns (r: Result<()>)
      requires Acyclic(globals.aliases)
      modifies this, symbols
      ensures Agrees(r, GenStms(floatBits, old(State()), ss), State())
      decreases ss, 1
    {
      var i := 0;
      while i < |ss|
        invariant 0 <= i <= |ss|
        invariant Acyclic(globals.aliases)
        invariant GenStms(floatBits, old(State()), ss) == GenStms(floatBits, State(), ss[i..])
        decreases |ss| - i
      {
        r := VisitStmAt(ss, i);
        if r.Err? {
          return;
        }
        i := i + 1;
      }
      assert ss[i..] == [];
      return Ok(());
    }

    method VisitStmAt(ss: seq<Stm>, i: nat) returns (r: Result<()>)
      requires i < |ss| && Acyclic(globals.aliases)
      modifies this, symbols
      ensures r.Ok? ==> GenStms(floatBits, old(State()), ss[i..]) == GenStms(floatBits, State(), ss[i + 1..])
      ensures r.Err? ==> GenStms(floatBits, old(State()), ss[i..]) == Err(r.msg)
      decreases ss, 0
    {
      assert ss[i..][1..] == ss[i + 1..];
      r := VisitStm(ss[i]);
    }

    /** An absent value leaves 0 in `%rax`. */
    method VisitOptExp(e: Option<Exp>) returns (r: Result<()>)
      requires Acyclic(globals.aliases)
      modifies this, symbols
      ensures Agrees(r, GenOptExp(floatBits, old(State()), e), State())
    {
      match e
      case None =>
        Emit([" movq $0, %rax"]);
        return Ok(());
      case Some(x) => r := VisitExp(x);
    }

    method VisitPrint(s: Stm) returns (r: Result<()>)
      requires s.PrintStm? && Acyclic(globals.aliases)
      modifies this, symbols
      ensures Agrees(r, GenStm(floatBits, old(State()), s), State())
      decreases s, 1
    {
      r := VisitOptExp(s.e);
      if r.Err? {
        return;
      }
      Emit(PrintLines(lastType));
    }

    method VisitReturn(s: Stm) returns (r: Result<()>)
      requires s.ReturnStm? && Acyclic(globals.aliases)
      modifies this, symbols
      ensures Agrees(r, GenStm(floatBits, old(State()), s), State())
      decreases s, 1
    {
      r := VisitOptExp(s.e);
      if r.Err? {
        return;
      }
      Emit([" jmp " + currentReturnLabel]);
    }

    method VisitLet(s: Stm) returns (r: Result<()>)
      requires s.LetStm? && Acyclic(globals.aliases)
      modifies this, symbols
      ensures Agrees(r, GenLet(floatBits, old(State()), s), State())
      decreases s, 1
    {
      if !insideFunction {
        if s.lname !in globalSymbols {
          globalSymbols := globalSymbols + {s.lname};
        } else {
          assert globalSymbols + {s.lname} == globalSymbols;
        }
        return Ok(());
      }
      r := VisitLocalLet(s);
    }

    method VisitLocalLet(s: Stm) returns (r: Result<()>)
      requires s.LetStm? && Acyclic(globals.aliases)
      modifies this, symbols
      ensures Agrees(r, GenLocalLet(floatBits, old(State()), s), State())
    {
      var info, size := DeclareLet(s);
      r := VisitLetBody(s.init, info, size);
    }

    /** The zeroing store or the initialiser, once the block is declared. */
    method VisitLetBody(init: Option<Exp>, info: SymbolInfo, size: int) returns (r: Result<()>)
      requires Acyclic(globals.aliases)
      modifies this, symbols
      ensures Agrees(r, LetBody(floatBits, old(State()), init, info, size), State())
    {
      match init
      case None =>
        if size <= 8 {
          Emit([" movq $0, " + Slot(info.offset)]);
        }
        return Ok(());
      case Some(x) => r := VisitLetInit(x, info, size);
    }

    /** The aligned block for a local `let`, declared in the innermost
        scope. */
    method DeclareLet(s: Stm) returns (info: SymbolInfo, size: int)
      requires s.LetStm? && Acyclic(globals.aliases)
      modifies this, symbols
      ensures size == StorageSize(old(State()).tables, s.type_name, StringToType(s.type_name))
      ensures info == LetInfo(old(State()), s)
      ensures State() == DeclaredLet(old(State()), s)
    {
      var ttype := StringToType(s.type_name);
      size := StorageSizeOf(s.type_name, ttype);
      var offset := ReserveBlock(size);
      info := SymbolInfo(offset, ttype, s.type_name, s.mutable_flag, s.init.Some?);
      var _ := symbols.Declare(s.lname, info);
    }

    /** Moves the stack cursor down by the aligned block; the block starts
        8 bytes above the new cursor. */
    method ReserveBlock(size: int) returns (offset: int)
      modifies this
      ensures offset == old(nextStackOffset) - AlignedSize(size) + 8
      ensures State() == old(State()).(nextStackOffset := old(nextStackOffset) - AlignedSize(size))
    {
      var alignedSize := AlignedSize(size);
      offset := nextStackOffset - alignedSize + 8;
      nextStackOffset := nextStackOffset - alignedSize;
    }

    method VisitLetInit(x: Exp, info: SymbolInfo, size: int) returns (r: Result<()>)
      requires Acyclic(globals.aliases)
      modifies this, symbols
      ensures Agrees(r, GenLetInit(floatBits, old(State()), x, info, size), State())
    {
      r := VisitLetValue(x, info);
      if r.Err? {
        return;
      }
      var rhsType := lastType;
      Emit(StoreLines(info.offset, info.ttype, size, rhsType));
    }

    /** A cached initialiser is reloaded; otherwise it is evaluated and a
        binary one recorded. */
    method VisitLetValue(x: Exp, info: SymbolInfo) returns (r: Result<()>)
      requires Acyclic(globals.aliases)
      modifies this, symbols
      ensures Agrees(r, LetValue(floatBits, old(State()), x, info), State())
    {
      var sig := Signature(x);
      var cached := LookupDagCache(sig);
      if cached.Some? {
        ReloadCached(cached.value);
        return Ok(());
      }
      r := EvaluateInit(x, info);
    }

    method ReloadCached(entry: CacheEntry)
      modifies this
      ensures State() == Reload(old(State()), entry)
    {
      dagHits := dagHits + 1;
      Emit(ReloadLines(entry));
    }

    /** A cache miss: the initialiser is evaluated, and recorded when it
        is a binary expression with a signature. */
    method EvaluateInit(x: Exp, info: SymbolInfo) returns (r: Result<()>)
      requires Acyclic(globals.aliases)
      modifies this, symbols
      ensures Agrees(r, Evaluated(floatBits, old(State()), x, info), State())
    {
      CountMiss();
      r := VisitExp(x);
      if r.Err? {
        return;
      }
      var sig := Signature(x);
      if sig != "" && x.BinaryExp? {
        SaveToDagCache(sig, info.offset, info.ttype);
      }
    }

    method CountMiss()
      modifies this
      ensures State() == old(State()).(dag := old(State()).dag.(misses := old(dagMisses) + 1))
    {
      dagMisses := dagMisses + 1;
    }

    method LookupDagCache(sig: string) returns (entry: Option<CacheEntry>)
      ensures entry == Lookup(dagEnabled, dagCache, sig)
    {
      if !dagEnabled || sig == "" || sig !in dagCache {
        return None;
      }
      return Some(dagCache[sig]);
    }

    method SaveToDagCache(sig: string, offset: int, t: TType)
      modifies this
      ensures State() == Remember(old(State()), sig, SymbolInfo(offset, t, "", false, false))
    {
      if !dagEnabled || sig == "" {
        return;
      }
      dagCache := dagCache[sig := CacheEntry(offset, t, sig)];
    }

    method VisitIf(s: Stm) returns (r: Result<()>)
      requires s.IfStm? && Acyclic(globals.aliases)
      modifies this, symbols
      ensures Agrees(r, GenIf(floatBits, old(State()), s), State())
      decreases s, 2
    {
      var elseLabel, endLabel := MakeLabels("else", "endif");
      ClearDagCache();
      r := VisitExp(s.condition);
      if r.Err? {
        return;
      }
      r := VisitGuarded([" cmpq $0, %rax", " je " + elseLabel], s.thenBlock, [" jmp " + endLabel, elseLabel + ":"]);
      if r.Err? {
        return;
      }
      ClearDagCache();
      r := VisitElseThenEnd(s.elseBlock, endLabel);
    }

    method VisitElseThenEnd(b: ElseBlock, endLabel: string) returns (r: Result<()>)
      requires Acyclic(globals.aliases)
      modifies this, symbols
      ensures Agrees(r, ElseThenEnd(floatBits, old(State()), b, endLabel), State())
      decreases b, 2
    {
      r := VisitElse(b);
      if r.Err? {
        return;
      }
      Emit([endLabel + ":"]);
      ClearDagCache();
    }

    method VisitElse(b: ElseBlock) returns (r: Result<()>)
      requires Acyclic(globals.aliases)
      modifies this, symbols
      ensures Agrees(r, GenElse(floatBits, old(State()), b), State())
      decreases b, 1
    {
      match b
      case NoElse => return Ok(());
      case Else(ss) => r := VisitBlock(ss);
    }

    method VisitWhile(s: Stm) returns (r: Result<()>)
      requires s.WhileStm? && Acyclic(globals.aliases)
      modifies this, symbols
      ensures Agrees(r, GenWhile(floatBits, old(State()), s), State())
      decreases s, 2
    {
      var startLabel, endLabel := MakeLabels("while_begin", "while_end");
      ClearDagCache();
      Emit([startLabel + ":"]);
      r := VisitExp(s.condition);
      if r.Err? {
        return;
      }
      r := VisitGuarded([" cmpq $0, %rax", " je " + endLabel], s.body, [" jmp " + startLabel, endLabel + ":"]);
      if r.Err? {
        return;
      }
      ClearDagCache();
    }

    method VisitFor(s: Stm) returns (r: Result<()>)
      requires s.ForStm? && Acyclic(globals.aliases)
      modifies this, symbols
      ensures Agrees(r, GenFor(floatBits, old(State()), s), State())
      decreases s, 2
    {
      var slot := EnterFor(s.iteratorName);
      r := VisitExp(s.start);
      if r.Err? {
        return;
      }
      Emit([" movq %rax, " + Slot(slot)]);
      r := VisitForLoop(s, slot);
      if r.Err? {
        return;
      }
      r := LeaveFor();
    }

    /** The loop's scope, with the iterator declared in it. */
    method EnterFor(iteratorName: string) returns (slot: int)
      modifies this, symbols
      ensures slot == old(nextStackOffset)
      ensures State() == CodeGenSpec.DeclareLocal(ClearCache(old(State()).(symbols := old(symbols.scopes) + [map[]])),
                                                   iteratorName, SymbolInfo(0, I64, "", true, true))
    {
      symbols.PushScope();
      ClearDagCache();
      var iter := DeclareLocal(iteratorName, SymbolInfo(0, I64, "", true, true));
      slot := iter.offset;
    }

    method LeaveFor() returns (r: Result<()>)
      modifies this, symbols
      ensures Agrees(r, (var g :- PopScope(old(State())); Ok(ClearCache(g))), State())
    {
      r := symbols.PopScope();
      if r.Err? {
        return;
      }
      ClearDagCache();
    }

    /** The labels are taken after the start value is stored. */
    method VisitForLoop(s: Stm, slot: int) returns (r: Result<()>)
      requires s.ForStm? && Acyclic(globals.aliases)
      modifies this, symbols
      ensures Agrees(r, GenForLoop(floatBits, old(State()), s, slot), State())
      decreases s, 1
    {
      var loopLabel, endLabel := MakeLabels("for_begin", "for_end");
      Emit([loopLabel + ":"]);
      r := VisitExp(s.end);
      if r.Err? {
        return;
      }
      r := VisitGuarded([" movq %rax, %rcx", " movq " + Slot(slot) + ", %rax", " cmpq %rcx, %rax", " jge " + endLabel],
                        s.body, [" movq " + Slot(slot) + ", %rax", " addq $1, %rax", " movq %rax, " + Slot(slot),
                                 " jmp " + loopLabel, endLabel + ":"]);
    }

    method VisitGuarded(test: seq<string>, ss: seq<Stm>, close: seq<string>) returns (r: Result<()>)
      requires Acyclic(globals.aliases)
      modifies this, symbols
      ensures Agrees(r, Guarded(floatBits, old(State()), test, ss, close), State())
      decreases ss, 3
    {
      Emit(test);
      r := VisitBlock(ss);
      if r.Err? {
        return;
      }
      Emit(close);
    }

    method VisitAssign(s: Stm) returns (r: Result<()>)
      requires s.AssignStm? && Acyclic(globals.aliases)
      modifies this, symbols
      ensures Agrees(r, GenAssign(floatBits, old(State()), s), State())
      decreases s, 1
    {
      r := VisitExp(s.rhs);
      if r.Err? || s.id == "_" {
        return;
      }
      InvalidateDagCache(s.id);
      r := StoreAssignedVar(s.id);
    }

    /** `%rax` goes to the local's slot, which is now initialised, or to
        the global. */
    method StoreAssignedVar(name: string) returns (r: Result<()>)
      modifies this, symbols
      ensures Agrees(r, StoreAssigned(old(State()), name), State())
    {
      var found := symbols.Lookup(name);
      match found
      case Some(info) =>
        var _ := symbols.Assign(name, info.(initialized := true));
        Emit([" movq %rax, " + Slot(info.offset)]);
        return Ok(());
      case None =>
        if name in globalSymbols {
          Emit([" movq %rax, " + name + "(%rip)"]);
          return Ok(());
        }
        return Err(UndeclaredPrefix + name);
    }
    // -------------------------------------------------------------------
    // Declarations, functions and the program

    method VisitVarDec(vd: VarDec)
      modifies this, symbols
      ensures State() == GenVarDec(old(State()), vd)
    {
      if !insideFunction {
        RecordGlobals(vd.variables);
        return;
      }
      var t := StringToType(vd.tipo);
      var i := 0;
      while i < |vd.variables|
        invariant 0 <= i <= |vd.variables|
        invariant GenVarDec(old(State()), vd) == DeclareVars(State(), vd.variables[i..], t)
      {
        assert vd.variables[i..][1..] == vd.variables[i + 1..];
        var _ := DeclareLocal(vd.variables[i], SymbolInfo(0, t, "", true, false));
        i := i + 1;
      }
    }

    /** Each name not yet in the global table is added. */
    method RecordGlobals(names: seq<string>)
      modifies this
      ensures State() == old(State()).(globalSymbols := AddGlobals(old(globalSymbols), names))
    {
      var i := 0;
      while i < |names|
        invariant 0 <= i <= |names|
        invariant AddGlobals(old(globalSymbols), names) == AddGlobals(globalSymbols, names[i..])
        invariant State() == old(State()).(globalSymbols := globalSymbols)
      {
        assert names[i..][1..] == names[i + 1..];
        if names[i] !in globalSymbols {
          globalSymbols := globalSymbols + {names[i]};
        } else {
          assert globalSymbols + {names[i]} == globalSymbols;
        }
        i := i + 1;
      }
    }

    method VisitVarDecs(vds: seq<VarDec>)
      modifies this, symbols
      ensures State() == GenVarDecs(old(State()), vds)
    {
      var i := 0;
      while i < |vds|
        invariant 0 <= i <= |vds|
        invariant GenVarDecs(old(State()), vds) == GenVarDecs(State(), vds[i..])
      {
        assert vds[i..][1..] == vds[i + 1..];
        VisitVarDec(vds[i]);
        i := i + 1;
      }
    }

    method VisitBody(b: Body) returns (r: Result<()>)
      requires Acyclic(globals.aliases)
      modifies this, symbols
      ensures Agrees(r, GenBody(floatBits, old(State()), b), State())
    {
      VisitVarDecs(b.vdlist);
      r := VisitStms(b.stmlist);
    }

    method VisitFunDec(f: FunDec) returns (r: Result<()>)
      requires ParamsTyped(f) && Acyclic(globals.aliases)
      modifies this, symbols, optimizer, optimizer.dagOpt
      ensures Agrees(r, GenFunDec(floatBits, old(State()), f), State())
    {
      BeginFunction(f);
      StartBuffering();
      r := VisitBody(f.cuerpo);
      if r.Err? {
        return;
      }
      r := FinishFunction();
    }

    method BeginFunction(f: FunDec)
      requires ParamsTyped(f)
      modifies this, symbols
      ensures State() == EnterFunction(old(State()), f)
    {
      ResetFrame(f.nombre);
      EmitPrologue(f.nombre);
      DeclareParams(f);
    }

    method FinishFunction() returns (r: Result<()>)
      modifies this, symbols, optimizer, optimizer.dagOpt
      ensures Agrees(r, CodeGenSpec.FinishFunction(old(State())), State())
    {
      r := FlushOptimizedBuffer();
      if r.Err? {
        return;
      }
      EmitOut([" movq $0, %rax", currentReturnLabel + ":", " leave", " ret"]);
      symbols.Clear();
      insideFunction := false;
      currentFunctionName := "";
      currentReturnLabel := "";
    }

    method ResetFrame(name: string)
      modifies this, symbols
      ensures State() == FreshFrame(old(State()), name)
    {
      insideFunction := true;
      ResetScopes();
      nextStackOffset := -8;
      ClearDagCache();
      NameFunction(name);
    }

    method NameFunction(name: string)
      modifies this
      ensures State() == old(State()).(ctx := Context(old(insideFunction), name, ".L_return_" + name))
    {
      currentFunctionName := name;
      currentReturnLabel := ".L_return_" + name;
    }

    /** `symbols.clear()` then one fresh scope. */
    method ResetScopes()
      modifies symbols
      ensures symbols.scopes == [map[]]
    {
      symbols.Clear();
      symbols.PushScope();
    }

    /** The label, the frame link, and the planned slots plus ten. */
    method EmitPrologue(name: string)
      modifies this
      ensures State() == CodeGenSpec.EmitOut(old(State()), Prologue(name, Reserved(old(State()).tables, name)))
    {
      var header := [".globl " + name, name + ":", " pushq %rbp", " movq %rsp, %rbp"];
      EmitOut(header);
      var reservedSlots := 0;
      if name in frameReservation {
        reservedSlots := frameReservation[name];
      }
      reservedSlots := reservedSlots + 10;
      var frameBytes := reservedSlots * 8;
      if frameBytes > 0 {
        EmitOut([" subq $" + IntToString(frameBytes) + ", %rsp"]);
        EmitOutTwice(old(State()), header, [" subq $" + IntToString(frameBytes) + ", %rsp"]);
      } else {
        assert header + [] == header;
      }
    }

    /** The parameters that arrive in registers, each stored in its slot. */
    method DeclareParams(f: FunDec)
      requires ParamsTyped(f)
      modifies this, symbols
      ensures State() == CodeGenSpec.DeclareParams(old(State()), f.Nparametros, f.Tparametros, 0)
    {
      var idx := 0;
      while idx < |f.Nparametros| && idx < |ArgRegisters|
        invariant 0 <= idx
        invariant CodeGenSpec.DeclareParams(old(State()), f.Nparametros, f.Tparametros, 0)
                  == CodeGenSpec.DeclareParams(State(), f.Nparametros, f.Tparametros, idx)
        decreases |f.Nparametros| - idx
      {
        DeclareParam(f, idx);
        idx := idx + 1;
      }
    }

    method DeclareParam(f: FunDec, idx: nat)
      requires ParamsTyped(f) && idx < |f.Nparametros| && idx < |ArgRegisters|
      modifies this, symbols
      ensures CodeGenSpec.DeclareParams(old(State()), f.Nparametros, f.Tparametros, idx)
              == CodeGenSpec.DeclareParams(State(), f.Nparametros, f.Tparametros, idx + 1)
    {
      var typeName := f.Tparametros[idx];
      var info := DeclareLocal(f.Nparametros[idx], SymbolInfo(0, StringToType(typeName), typeName, false, true));
      EmitOut([" movq " + ArgRegisters[idx] + ", " + Slot(info.offset)]);
    }

    method StartBuffering()
      modifies this
      ensures State() == CodeGenSpec.StartBuffering(old(State()))
    {
      if optimizationsEnabled {
        bufferingOutput := true;
        tempOutput := [];
      }
    }

    /** The buffered body goes through the optimizer, line by line. */
    method FlushOptimizedBuffer() returns (r: Result<()>)
      modifies this, optimizer, optimizer.dagOpt
      ensures Agrees(r, FlushBuffer(old(State())), State())
    {
      if !bufferingOutput {
        return Ok(());
      }
      bufferingOutput := false;
      var generatedCode := tempOutput;
      if !optimizationsEnabled || generatedCode == [] {
        out := out + generatedCode;
        return Ok(());
      }
      var instructions := ReadLines(JoinLines(generatedCode));
      optimizer.ResetStats();
      var optimized := optimizer.OptimizeCode(instructions);
      if optimized.Err? {
        return Err(optimized.msg);
      }
      out := out + optimized.value;
      return Ok(());
    }

    method VisitFunDecs(fds: seq<FunDec>) returns (r: Result<()>)
      requires (forall i :: 0 <= i < |fds| ==> ParamsTyped(fds[i])) && Acyclic(globals.aliases)
      modifies this, symbols, optimizer, optimizer.dagOpt
      ensures Agrees(r, GenFunDecs(floatBits, old(State()), fds), State())
    {
      var i := 0;
      while i < |fds|
        invariant 0 <= i <= |fds|
        invariant Acyclic(globals.aliases)
        invariant GenFunDecs(floatBits, old(State()), fds) == GenFunDecs(floatBits, State(), fds[i..])
      {
        r := VisitFunDecAt(fds, i);
        if r.Err? {
          return;
        }
        i := i + 1;
      }
      return Ok(());
    }

    method VisitFunDecAt(fds: seq<FunDec>, i: nat) returns (r: Result<()>)
      requires i < |fds| && (forall k :: 0 <= k < |fds| ==> ParamsTyped(fds[k])) && Acyclic(globals.aliases)
      modifies this, symbols, optimizer, optimizer.dagOpt
      ensures r.Ok? ==> GenFunDecs(floatBits, old(State()), fds[i..]) == GenFunDecs(floatBits, State(), fds[i + 1..])
      ensures r.Err? ==> GenFunDecs(floatBits, old(State()), fds[i..]) == Err(r.msg)
    {
      assert fds[i..][1..] == fds[i + 1..];
      r := VisitFunDec(fds[i]);
    }

    method VisitTypeAliases(tas: seq<TypeAlias>)
      modifies globals
      ensures globals.aliases == AliasesAfter(old(globals.aliases), tas)
      ensures globals.layouts == old(globals.layouts)
    {
      var i := 0;
      while i < |tas|
        invariant 0 <= i <= |tas|
        invariant AliasesAfter(old(globals.aliases), tas) == AliasesAfter(globals.aliases, tas[i..])
        invariant globals.layouts == old(globals.layouts)
      {
        assert tas[i..][1..] == tas[i + 1..];
        globals.aliases := globals.aliases[tas[i].alias := tas[i].target];
        i := i + 1;
      }
    }

    method VisitStructDecs(sds: seq<StructDec>)
      modifies globals
      ensures globals.aliases == old(globals.aliases)
      ensures globals.layouts == EmitterLayouts(old(globals.layouts), sds)
    {
      var j := 0;
      while j < |sds|
        invariant 0 <= j <= |sds|
        invariant globals.aliases == old(globals.aliases)
        invariant EmitterLayouts(old(globals.layouts), sds) == EmitterLayouts(globals.layouts, sds[j..])
      {
        assert sds[j..][1..] == sds[j + 1..];
        VisitStructDec(sds[j]);
        j := j + 1;
      }
    }

    /** The fields in order, each at the running offset, sized by its type
        as written. */
    method VisitStructDec(sd: StructDec)
      modifies globals
      ensures globals.aliases == old(globals.aliases)
      ensures globals.layouts == old(globals.layouts)[sd.name := LayoutOf(sd.fields, EmitterSizes(sd.fields))]
    {
      ghost var sizes := EmitterSizes(sd.fields);
      var offsets: map<string, int> := map[];
      var types: map<string, string> := map[];
      var currentOffset := 0;
      var i := 0;
      while i < |sd.fields|
        invariant 0 <= i <= |sd.fields|
        invariant LayoutOf(sd.fields[..i], sizes[..i]) == StructLayout(currentOffset, offsets, types)
        invariant globals.aliases == old(globals.aliases) && globals.layouts == old(globals.layouts)
      {
        var field := sd.fields[i];
        offsets := offsets[field.0 := currentOffset];
        types := types[field.0 := field.1];
        var size := EmitterFieldSize(field.1);
        currentOffset := currentOffset + size;
        LayoutOfStep(sd.fields, sizes, i);
        i := i + 1;
      }
      assert sd.fields[..i] == sd.fields && sizes[..i] == sizes;
      globals.layouts := globals.layouts[sd.name := StructLayout(currentOffset, offsets, types)];
    }

    /** Arrays take 4 bytes per element, `i32`, `bool`, `u32` and `f32`
        fields 4, the rest 8. */
    method EmitterFieldSize(typeName: string) returns (size: int)
      ensures size == FieldBytes(typeName)
    {
      size := 8;
      if IsArrayType(typeName) {
        size := ArrayCount(typeName) * 4;
      } else if typeName == "i32" || typeName == "bool" || typeName == "u32" || typeName == "f32" {
        size := 4;
      }
    }

    /** One zero-initialised quad per global, in the order the table is
        walked, which `order` records. */
    method EmitGlobals() returns (ghost order: seq<string>)
      modifies this
      ensures Enumerates(order, globalSymbols)
      ensures State() == CodeGenSpec.EmitOut(old(State()), GlobalLines(order))
    {
      var remaining := globalSymbols;
      order := [];
      assert old(State()).io == CodeGenSpec.EmitOut(old(State()), []).io;
      while remaining != {}
        invariant remaining <= globalSymbols
        invariant forall i :: 0 <= i < |order| ==> order[i] in globalSymbols && order[i] !in remaining
        invariant forall x :: x in globalSymbols ==> x in remaining || x in order
        invariant forall i, j :: 0 <= i < j < |order| ==> order[i] != order[j]
        invariant State() == CodeGenSpec.EmitOut(old(State()), GlobalLines(order))
        decreases |remaining|
      {
        var x :| x in remaining;
        EmitOut([x + ": .quad 0"]);
        EmitOutTwice(old(State()), GlobalLines(order), [x + ": .quad 0"]);
        GlobalLinesAppend(order, x);
        order := order + [x];
        remaining := remaining - {x};
      }
    }

    /** The data section, the globals, then the aliases, the structs and
        the functions of the text section. */
    method VisitProgram(p: Program) returns (r: Result<()>, ghost order: seq<string>)
      requires forall i :: 0 <= i < |p.fdlist| ==> ParamsTyped(p.fdlist[i])
      requires Acyclic(AliasesAfter(globals.aliases, p.talist))
      modifies this, symbols, globals, optimizer, optimizer.dagOpt
      ensures Enumerates(order, GlobalsOf(old(State()), p))
      ensures Agrees(r, GenProgram(floatBits, old(State()), p, order), State())
    {
      order := VisitDataSection(p);
      r := VisitTextSection(p);
    }

    method VisitTextSection(p: Program) returns (r: Result<()>)
      requires forall i :: 0 <= i < |p.fdlist| ==> ParamsTyped(p.fdlist[i])
      requires Acyclic(AliasesAfter(globals.aliases, p.talist))
      modifies this, symbols, globals, optimizer, optimizer.dagOpt
      ensures Agrees(r, TextSection(floatBits, old(State()), p), State())
    {
      RegisterTables(p);
      r := VisitFunDecs(p.fdlist);
      if r.Err? {
        return;
      }
      EmitOut([StackNote]);
    }

    method RegisterTables(p: Program)
      requires Acyclic(AliasesAfter(globals.aliases, p.talist))
      modifies globals
      ensures Acyclic(globals.aliases)
      ensures State() == old(State()).(tables := Registered(old(State()).tables, p))
    {
      VisitTypeAliases(p.talist);
      VisitStructDecs(p.sdlist);
    }

    method VisitDataSection(p: Program) returns (ghost order: seq<string>)
      modifies this, symbols
      ensures Enumerates(order, GlobalsOf(old(State()), p))
      ensures State() == DataSection(old(State()), p, order)
    {
      EmitOut(DataHeader);
      VisitVarDecs(p.vdlist);
      order := EmitGlobals();
      EmitOut([".text"]);
    }

    /** `generar`: the planner runs first and its frame sizes become the
        reservations. */
    method Generate(p: Program) returns (r: Result<()>, ghost order: seq<string>)
      requires Valid()
      requires forall i :: 0 <= i < |p.fdlist| ==> ParamsTyped(p.fdlist[i])
      requires Acyclic(AliasesAfter(globals.aliases, p.talist))
      modifies this, symbols, globals, optimizer, optimizer.dagOpt, typeChecker
      ensures Enumerates(order, GlobalsOf(old(State()).(tables := Planned(old(State()).tables, p)), p))
      ensures Agrees(r, CodeGenSpec.Generate(floatBits, old(State()), p, order), State())
    {
      Plan(p);
      r, order := VisitProgram(p);
    }

    /** The planner's pass, which registers the aliases and its struct
        layouts in the shared tables. */
    method Plan(p: Program)
      requires Valid() && Acyclic(AliasesAfter(globals.aliases, p.talist))
      modifies this, globals, typeChecker
      ensures Valid()
      ensures Acyclic(AliasesAfter(globals.aliases, p.talist))
      ensures State() == old(State()).(tables := Planned(old(State()).tables, p))
    {
      frameReservation := map[];
      typeChecker.Analyze(p);
      frameReservation := typeChecker.frameSlots;
      AliasesAfterTwice(old(globals.aliases), p.talist);
    }
  }

  /** `std::getline` over the text, keeping the non-empty lines. */
  method ReadLines(text: string) returns (lines: seq<string>)
    ensures lines == NonEmpty(SplitLines(text))
  {
    lines := [];
    var rest := text;
    while rest != []
      invariant NonEmpty(SplitLines(text)) == lines + NonEmpty(SplitLines(rest))
      decreases |rest|
    {
      var line: string;
      var next: string;
      match IndexOf(rest, '\n') {
        case None =>
          line, next := rest, [];
        case Some(i) =>
          line, next := rest[..i], rest[i + 1..];
      }
      var parts := [line] + SplitLines(next);
      assert SplitLines(rest) == parts;
      assert parts[0] == line && parts[1..] == SplitLines(next);
      rest := next;
      if line != [] {
        lines := lines + [line];
      }
    }
  }
}
