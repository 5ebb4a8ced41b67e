/** What the emitter's functions promise across whole statements and
    programs: which operators it refuses, when the subexpression cache is
    cleared and forgotten, where a local's block lies in the frame, how
    parameters are laid out on entry, how calls keep the stack aligned,
    what reaches the optimizer, and what the data section holds. */
module CodeGenProperties {
  import opened Wrappers
  import opened Text
  import opened SemanticTypes
  import opened Ast
  import opened Environments
  import opened Layout
  import opened DagCache
  import opened Planner
  import opened CodeOptimization
  import opened CodeGenSpec
  import Dag
  import Peephole

  // ---------------------------------------------------------------------
  // Operators the emitter refuses

  predicate Arithmetic(op: BinaryOp) {
    op == PLUS_OP || op == MINUS_OP || op == MUL_OP || op == DIV_OP
  }

  /** Combining two evaluated operands fails exactly for `**` on integers
      and for anything but the four arithmetic operators on floats. */
  lemma CombineRefuses(g: Gen, op: BinaryOp, lt: TType, rt: TType)
    requires op != AND_OP && op != ASSIGN_OP
    ensures Combine(g, op, lt, rt).Err? <==>
            if IsFloat(lt) || IsFloat(rt) then !Arithmetic(op) else op == POW_OP
    ensures Combine(g, op, lt, rt).Err? ==>
            Combine(g, op, lt, rt).msg == if IsFloat(lt) || IsFloat(rt) then FloatOpError else PowError
  {
    var single := lt == F32 && rt == F32;
    if IsFloat(lt) || IsFloat(rt) {
      assert FloatOpLine(op, single).Err? <==> !Arithmetic(op);
    } else {
      assert IntOpLines(op).Err? <==> op == POW_OP;
    }
  }

  /** `a ** b` never produces code: either an operand fails or the
      operator is refused. */
  lemma PowerUnsupported(bits: string -> nat, g: Gen, l: Exp, r: Exp)
    ensures GenExp(bits, g, BinaryExp(l, r, POW_OP)).Err?
  {
    var e := BinaryExp(l, r, POW_OP);
    assert GenExp(bits, g, e) == GenGeneral(bits, g, e);
    var g1 := GenExp(bits, g, l);
    if g1.Ok? {
      var g2 := GenExp(bits, Emit(g1.value, [" pushq %rax"]), r);
      if g2.Ok? {
        CombineRefuses(Emit(g2.value, [" movq %rax, %rcx", " popq %rax"]), POW_OP, g1.value.lastType, g2.value.lastType);
      }
    }
  }

  /** A comparison whose left operand is a float is refused whatever the
      right operand is. */
  lemma FloatComparisonUnsupported(bits: string -> nat, g: Gen, l: Exp, r: Exp, op: BinaryOp)
    requires !Arithmetic(op) && op != AND_OP && op != ASSIGN_OP
    requires GenExp(bits, g, l).Ok? && IsFloat(GenExp(bits, g, l).value.lastType)
    ensures GenExp(bits, g, BinaryExp(l, r, op)).Err?
  {
    var e := BinaryExp(l, r, op);
    assert GenExp(bits, g, e) == GenGeneral(bits, g, e);
    var g1 := GenExp(bits, g, l).value;
    var g2 := GenExp(bits, Emit(g1, [" pushq %rax"]), r);
    if g2.Ok? {
      CombineRefuses(Emit(g2.value, [" movq %rax, %rcx", " popq %rax"]), op, g1.lastType, g2.value.lastType);
    }
  }

  /** An assignment whose target is neither a name nor an element is
      refused, and so is one to an element of anything but a named array. */
  lemma BadAssignTarget(bits: string -> nat, g: Gen, l: Exp, r: Exp)
    requires !l.IdExp? && !(l.ArrayAccessExp? && l.base.IdExp?)
    ensures GenExp(bits, g, BinaryExp(l, r, ASSIGN_OP)).Err?
  {
    var e := BinaryExp(l, r, ASSIGN_OP);
    assert GenExp(bits, g, e) == GenAssignExp(bits, g, e);
    if l.ArrayAccessExp? {
      assert GenAssignExp(bits, g, e) == GenStoreElement(bits, g, e);
    }
  }

  // ---------------------------------------------------------------------
  // The subexpression cache around control flow

  predicate ControlFlow(s: Stm) {
    s.IfStm? || s.WhileStm? || s.ForStm?
  }

  /** An `if`, `while` or `for` leaves the cache empty with both counters
      at zero, so nothing computed inside a branch or a loop body is
      reused after it. */
  lemma ControlFlowClearsCache(bits: string -> nat, g: Gen, s: Stm)
    requires ControlFlow(s)
    ensures GenStm(bits, g, s).Ok? ==> GenStm(bits, g, s).value.dag == DagState(map[], 0, 0)
  {
    if s.IfStm? {
      IfClearsCache(bits, g, s);
    }
  }

  lemma IfClearsCache(bits: string -> nat, g: Gen, s: Stm)
    requires s.IfStm?
    ensures GenIf(bits, g, s).Ok? ==> GenIf(bits, g, s).value.dag == DagState(map[], 0, 0)
  {
    var endLabel := LabelText("endif", g.nextLabelId + 1);
    var g1 := GenExp(bits, ClearCache(TakeLabels(g, 2)), s.condition);
    if g1.Ok? {
      var g2 := Guarded(bits, g1.value, [" cmpq $0, %rax", " je " + LabelText("else", g.nextLabelId)], s.thenBlock, [" jmp " + endLabel, LabelText("else", g.nextLabelId) + ":"]);
      if g2.Ok? {
        var r := ElseThenEnd(bits, ClearCache(g2.value), s.elseBlock, endLabel);
        assert GenIf(bits, g, s) == r;
      }
    }
  }

  /** The cache is cleared on entry too, so what was cached before an
      `if`, `while` or `for` cannot change the code generated for it. */
  lemma ControlFlowIgnoresCache(bits: string -> nat, g: Gen, s: Stm, d: DagState)
    requires ControlFlow(s)
    ensures GenStm(bits, g.(dag := d), s) == GenStm(bits, g, s)
  {
    var h := g.(dag := d);
    if s.IfStm? {
      assert ClearCache(TakeLabels(h, 2)) == ClearCache(TakeLabels(g, 2));
      IfIgnoresCache(bits, g, s, d);
    } else if s.WhileStm? {
      assert ClearCache(TakeLabels(h, 2)) == ClearCache(TakeLabels(g, 2));
      WhileIgnoresCache(bits, g, s, d);
    } else {
      assert ClearCache(h.(symbols := h.symbols + [map[]])) == ClearCache(g.(symbols := g.symbols + [map[]]));
      ForIgnoresCache(bits, g, s, d);
    }
  }

  lemma IfIgnoresCache(bits: string -> nat, g: Gen, s: Stm, d: DagState)
    requires s.IfStm? && ClearCache(TakeLabels(g.(dag := d), 2)) == ClearCache(TakeLabels(g, 2))
    ensures GenIf(bits, g.(dag := d), s) == GenIf(bits, g, s)
  {
  }

  lemma WhileIgnoresCache(bits: string -> nat, g: Gen, s: Stm, d: DagState)
    requires s.WhileStm? && ClearCache(TakeLabels(g.(dag := d), 2)) == ClearCache(TakeLabels(g, 2))
    ensures GenWhile(bits, g.(dag := d), s) == GenWhile(bits, g, s)
  {
  }

  lemma ForIgnoresCache(bits: string -> nat, g: Gen, s: Stm, d: DagState)
    requires s.ForStm?
    requires ClearCache(g.(dag := d).(symbols := g.symbols + [map[]])) == ClearCache(g.(symbols := g.symbols + [map[]]))
    ensures GenFor(bits, g.(dag := d), s) == GenFor(bits, g, s)
  {
  }

  /** After `x = e;` no cacheable expression reading `x` is found in the
      cache any more. */
  lemma AssignForgetsReaders(bits: string -> nat, g: Gen, s: Stm, e: Exp)
    requires s.AssignStm? && s.id != "_" && g.config.dag
    requires Cacheable(e) && Reads(e, s.id)
    ensures GenStm(bits, g, s).Ok? ==> Lookup(true, GenStm(bits, g, s).value.dag.cache, Signature(e)).None?
  {
    assert GenStm(bits, g, s) == GenAssign(bits, g, s);
    var g1 := GenExp(bits, g, s.rhs);
    if g1.Ok? {
      assert g1.value.config.dag;
      InvalidatedForgetsReaders(g1.value.dag.cache, s.id, e);
    }
  }

  /** A `let` whose binary initialiser has a signature not yet cached
      records the variable's slot under that signature. */
  lemma LetRemembersInitialiser(bits: string -> nat, g: Gen, x: Exp, info: SymbolInfo, size: int)
    requires g.config.dag && x.BinaryExp? && Signature(x) != ""
    requires Lookup(true, g.dag.cache, Signature(x)).None?
    ensures GenLetInit(bits, g, x, info, size).Ok? ==>
            Lookup(true, GenLetInit(bits, g, x, info, size).value.dag.cache, Signature(x))
            == Some(CacheEntry(info.offset, info.ttype, Signature(x)))
  {
    var g1 := GenExp(bits, g.(dag := g.dag.(misses := g.dag.misses + 1)), x);
    if g1.Ok? {
      assert g1.value.config.dag;
      assert LetValue(bits, g, x, info) == Ok(Remember(g1.value, Signature(x), info));
    }
  }

  /** A `let` whose initialiser is cached does not evaluate it: the hit
      is counted, the recorded slot is reloaded and stored, and nothing
      else is written or changed. */
  lemma LetReusesCachedSlot(bits: string -> nat, g: Gen, x: Exp, info: SymbolInfo, size: int, entry: CacheEntry)
    requires Lookup(g.config.dag, g.dag.cache, Signature(x)) == Some(entry)
    ensures GenLetInit(bits, g, x, info, size).Ok?
    ensures var h := GenLetInit(bits, g, x, info, size).value;
            && h.io.written == g.io.written + ReloadLines(entry) + StoreLines(info.offset, info.ttype, size, g.lastType)
            && h.dag == g.dag.(hits := g.dag.hits + 1)
            && h.nextStackOffset == g.nextStackOffset && h.symbols == g.symbols
  {
    assert LetValue(bits, g, x, info) == Ok(Reload(g, entry));
  }

  /** A cache hit's lines stay within the value numbering's barrier
      lemma: the comment is no line it reads, and the reload names only a
      `%rbp` slot and `%rax`/`%eax`. */
  lemma ReloadSeparable(entry: CacheEntry)
    ensures Separable(ReloadLines(entry))
  {
    var mn := if IsWord(entry.ttype) then " movl " else " movq ";
    var reg := if IsWord(entry.ttype) then ", %eax" else ", %rax";
    var line := mn + Slot(entry.offset) + reg;
    ReloadShape(entry, mn, reg);
    SlotLineAvoids(mn, entry.offset, reg);
    ReloadPair(line);
  }

  lemma ReloadPair(line: string)
    requires Dag.OperandsAvoid(line, ':')
    ensures Separable([ReuseComment, line])
  {
    CommentUnread();
    SeparablePair(ReuseComment, line);
  }

  lemma ReloadShape(entry: CacheEntry, mn: string, reg: string)
    requires mn == (if IsWord(entry.ttype) then " movl " else " movq ")
    requires reg == (if IsWord(entry.ttype) then ", %eax" else ", %rax")
    ensures ReloadLines(entry) == [ReuseComment, mn + Slot(entry.offset) + reg]
  {
  }

  lemma SlotLineAvoids(mn: string, offset: int, reg: string)
    requires NoChar(mn, ':') && NoChar(reg, ':')
    ensures Dag.OperandsAvoid(mn + Slot(offset) + reg, ':')
  {
    IntToStringNoChar(offset, ':');
    NoCharConcat(IntToString(offset), "(%rbp)", ':');
    NoCharConcat(mn, Slot(offset), ':');
    NoCharConcat(mn + Slot(offset), reg, ':');
    Dag.DecodeAvoids(mn + Slot(offset) + reg, ':');
  }

  /** The reuse comment's first word is `#`, which names no move or
      arithmetic instruction. */
  lemma CommentUnread()
    ensures Dag.OperandsAvoid(ReuseComment, ':')
  {
    var rest := " DAG: reutilizando subexpresion";
    assert ReuseComment == " " + "#" + rest;
    WordsCons(" ", "#", rest);
    FirstWordOther(ReuseComment, "#", Words(rest));
  }

  lemma FirstWordOther(line: string, w: string, more: seq<string>)
    requires Words(line) == [w] + more && |w| == 1
    ensures Dag.OperandsAvoid(line, ':')
  {
    assert Peephole.Decode(line).op == w;
  }

  lemma SeparablePair(a: string, b: string)
    requires Dag.OperandsAvoid(a, ':') && Dag.OperandsAvoid(b, ':')
    ensures Separable([a, b])
  {
    assert [a, b][1..] == [b] && [b][1..] == [];
  }

  // ---------------------------------------------------------------------
  // The frame

  /** `declareLocal` gives the name the current slot, moves down by 8, and
      leaves every other name bound as it was. */
  lemma DeclareLocalSlot(g: Gen, name: string, info: SymbolInfo, other: string)
    ensures var h := DeclareLocal(g, name, info);
            && h.nextStackOffset == g.nextStackOffset - 8
            && Find(h.symbols, name) == Some(info.(offset := g.nextStackOffset))
            && (other != name ==> Find(h.symbols, other) == Find(g.symbols, other))
  {
    FindAfterDeclare(g.symbols, name, info.(offset := g.nextStackOffset), other);
  }

  /** A local `let` takes the aligned block just below the previous one:
      its lowest byte is at `LetOffset`, the block holds the variable's
      bytes in a multiple of 8 with less than 8 to spare, and whatever its
      initialiser reserves lies below the block; with no struct literal
      in the initialiser the next block starts right below it. */
  lemma LetTakesAlignedBlock(bits: string -> nat, g: Gen, s: Stm)
    requires s.LetStm? && g.ctx.insideFunction && NaturalLayouts(g.tables.layouts)
    requires StorageSize(g.tables, s.type_name, StringToType(s.type_name)) >= 0
    ensures var size := StorageSize(g.tables, s.type_name, StringToType(s.type_name));
            var r := GenStm(bits, g, s);
            r.Ok? ==>
              && LetOffset(g, s) == g.nextStackOffset - AlignedSize(size) + 8
              && size <= AlignedSize(size) < size + 8 && AlignedSize(size) % 8 == 0
              && r.value.nextStackOffset <= LetOffset(g, s) - 8
              && (s.init.None? || LiteralFree(s.init.value) ==> r.value.nextStackOffset == LetOffset(g, s) - 8)
  {
    AlignedSizeBounds(StorageSize(g.tables, s.type_name, StringToType(s.type_name)));
    assert GenStm(bits, g, s) == GenLocalLet(bits, g, s);
    assert SizedStm(g.tables, s);
    if s.init.None? || LiteralFree(s.init.value) {
      LocalLetMovesDown(bits, g, s);
    }
  }

  /** Two successive local `let`s of positive size take non-empty blocks,
      the second wholly below the first. */
  lemma SuccessiveLetsDisjoint(bits: string -> nat, g: Gen, s1: Stm, s2: Stm)
    requires s1.LetStm? && s2.LetStm? && g.ctx.insideFunction && NaturalLayouts(g.tables.layouts)
    requires StorageSize(g.tables, s1.type_name, StringToType(s1.type_name)) > 0
    requires StorageSize(g.tables, s2.type_name, StringToType(s2.type_name)) > 0
    ensures var r := GenStm(bits, g, s1);
            var size1 := StorageSize(g.tables, s1.type_name, StringToType(s1.type_name));
            var size2 := StorageSize(g.tables, s2.type_name, StringToType(s2.type_name));
            r.Ok? ==>
              && LetOffset(g, s1) < LetOffset(g, s1) + AlignedSize(size1) == g.nextStackOffset + 8
              && LetOffset(r.value, s2) < LetOffset(r.value, s2) + AlignedSize(size2) <= LetOffset(g, s1)
  {
    var r := GenStm(bits, g, s1);
    if r.Ok? {
      LetTakesAlignedBlock(bits, g, s1);
      assert r.value.tables == g.tables;
    }
  }

  /** A `let` whose initialiser is not a binary expression, or has no
      signature, records nothing: the cache only loses entries. */
  lemma LetRecordsOnlyBinary(bits: string -> nat, g: Gen, s: Stm)
    requires s.LetStm?
    requires s.init.Some? ==> !s.init.value.BinaryExp? || Signature(s.init.value) == ""
    ensures GenStm(bits, g, s).Ok? ==> GenStm(bits, g, s).value.dag.cache.Keys <= g.dag.cache.Keys
  {
    assert GenStm(bits, g, s) == GenLet(bits, g, s);
  }

  /** As written: a local of size 0, such as an `i32[0]` array, reserves
      no bytes, so it gets the offset of the 8-byte variable declared just
      before it and, being at most 8 bytes, is zeroed there, overwriting
      that variable. */
  lemma ZeroSizeLetOverwrites(bits: string -> nat, g: Gen, prev: Stm, h: Gen, empty: Stm)
    requires prev.LetStm? && g.ctx.insideFunction && NaturalLayouts(g.tables.layouts)
    requires 0 < StorageSize(g.tables, prev.type_name, StringToType(prev.type_name)) <= 8
    requires prev.init.None? || LiteralFree(prev.init.value)
    requires GenStm(bits, g, prev) == Ok(h)
    requires empty.LetStm? && empty.init.None?
    requires StorageSize(g.tables, empty.type_name, StringToType(empty.type_name)) == 0
    ensures LetOffset(g, prev) == g.nextStackOffset
    ensures LetOffset(h, empty) == LetOffset(g, prev)
    ensures GenStm(bits, h, empty).Ok?
    ensures GenStm(bits, h, empty).value.io.written == h.io.written + [" movq $0, " + Slot(LetOffset(g, prev))]
  {
    LetTakesAlignedBlock(bits, g, prev);
    OneSlot(StorageSize(g.tables, prev.type_name, StringToType(prev.type_name)));
    assert h.tables == g.tables && h.ctx == g.ctx;
    ZeroSizeLet(bits, h, empty);
  }

  /** A value of 1 to 8 bytes takes exactly one slot. */
  lemma OneSlot(size: int)
    requires 0 < size <= 8
    ensures AlignedSize(size) == 8
  {
    assert TruncDiv(size + 7, 8) == 1;
  }

  /** A local of size 0 keeps the offset where it is and zeroes the slot
      above it. */
  lemma ZeroSizeLet(bits: string -> nat, g: Gen, empty: Stm)
    requires g.ctx.insideFunction && empty.LetStm? && empty.init.None?
    requires StorageSize(g.tables, empty.type_name, StringToType(empty.type_name)) == 0
    ensures && LetOffset(g, empty) == g.nextStackOffset + 8
            && GenStm(bits, g, empty).Ok?
            && GenStm(bits, g, empty).value.nextStackOffset == g.nextStackOffset
            && GenStm(bits, g, empty).value.io.written == g.io.written + [" movq $0, " + Slot(g.nextStackOffset + 8)]
  {
    assert GenStm(bits, g, empty) == GenLocalLet(bits, g, empty);
  }

  /** `i32[0]`, when it is not an alias, has size 0. */
  lemma EmptyArraySize(tables: Tables)
    requires "i32[0]" !in tables.aliases
    ensures StorageSize(tables, "i32[0]", StringToType("i32[0]")) == 0
  {
    ParsedArrayCount("i32", "0");
    assert "i32" + "[" + "0" + "]" == "i32[0]";
  }

  /** The bytes a local should reserve: its size rounded up to whole
      slots, and never less than the one slot its zeroing store writes. */
  function ReservedBytes(size: int): (n: int)
    ensures size >= 0 ==> n % 8 == 0 && 8 <= n && size <= n && (size > 0 ==> n < size + 8)
  {
    AlignedSize(if size < 1 then 1 else size)
  }

  /** The lowest byte of a local's block under that reservation. */
  function ReservedLetOffset(g: Gen, s: Stm): int
    requires s.LetStm?
  {
    g.nextStackOffset - ReservedBytes(StorageSize(g.tables, s.type_name, StringToType(s.type_name))) + 8
  }

  /** Corrected: with every local reserving at least one slot, each
      local's 8-byte zeroing store lies within its own block, and the next
      local's block lies wholly below it, whatever the sizes. */
  lemma ReservedLetsDisjoint(g: Gen, s1: Stm, s2: Stm)
    requires s1.LetStm? && s2.LetStm?
    requires StorageSize(g.tables, s1.type_name, StringToType(s1.type_name)) >= 0
    requires StorageSize(g.tables, s2.type_name, StringToType(s2.type_name)) >= 0
    ensures var size1 := StorageSize(g.tables, s1.type_name, StringToType(s1.type_name));
            var size2 := StorageSize(g.tables, s2.type_name, StringToType(s2.type_name));
            var h := g.(nextStackOffset := g.nextStackOffset - ReservedBytes(size1));
            && ReservedLetOffset(g, s1) + 8 <= ReservedLetOffset(g, s1) + ReservedBytes(size1) == g.nextStackOffset + 8
            && ReservedLetOffset(h, s2) + 8 <= ReservedLetOffset(h, s2) + ReservedBytes(size2) <= ReservedLetOffset(g, s1)
  {
  }

  /** A local `let` moves the offset down by the aligned size of its type
      when its initialiser takes no stack of its own. */
  lemma LocalLetMovesDown(bits: string -> nat, g: Gen, s: Stm)
    requires s.LetStm?
    requires s.init.None? || LiteralFree(s.init.value)
    ensures var r := GenLocalLet(bits, g, s);
            r.Ok? ==> r.value.nextStackOffset == g.nextStackOffset - AlignedSize(StorageSize(g.tables, s.type_name, StringToType(s.type_name)))
  {
  }

  /** The scopes after register parameters `idx..` are declared from
      slot `offset` downwards. */
  function ParamScopes(ss: Scopes<SymbolInfo>, offset: int, names: seq<string>, types: seq<string>, idx: nat): Scopes<SymbolInfo>
    requires |names| <= |types| || |ArgRegisters| <= |types|
    decreases |names| - idx
  {
    if idx < RegisterParams(names) then
      ParamScopes(Declared(ss, names[idx], ParamInfo(offset, types[idx])), offset - 8, names, types, idx + 1)
    else ss
  }

  function ParamInfo(offset: int, typeName: string): SymbolInfo {
    SymbolInfo(offset, StringToType(typeName), typeName, false, true)
  }

  /** From parameter `idx` on, each register parameter takes the next
      slot down; the cache and the function stay. */
  lemma {:induction false} DeclareParamsFrame(g: Gen, names: seq<string>, types: seq<string>, idx: nat)
    requires |names| <= |types| || |ArgRegisters| <= |types|
    requires idx <= RegisterParams(names)
    ensures var h := DeclareParams(g, names, types, idx);
            && h.symbols == ParamScopes(g.symbols, g.nextStackOffset, names, types, idx)
            && h.nextStackOffset == g.nextStackOffset - 8 * (RegisterParams(names) - idx)
            && h.dag == g.dag && h.ctx == g.ctx
    decreases |names| - idx
  {
    if idx < RegisterParams(names) {
      var g1 := DeclareLocal(g, names[idx], SymbolInfo(0, StringToType(types[idx]), types[idx], false, true));
      assert g1.symbols == Declared(g.symbols, names[idx], ParamInfo(g.nextStackOffset, types[idx]));
      DeclareParamsFrame(EmitOut(g1, [" movq " + ArgRegisters[idx] + ", " + Slot(g.nextStackOffset)]), names, types, idx + 1);
    }
  }

  /** Register parameter `i` is found at the slot `i - idx` below the
      starting one, with its declared type, unless a later parameter has
      the same name. */
  lemma {:induction false} ParamScopesFind(ss: Scopes<SymbolInfo>, offset: int, names: seq<string>, types: seq<string>, idx: nat, i: nat)
    requires |names| <= |types| || |ArgRegisters| <= |types|
    requires idx <= i < RegisterParams(names)
    requires forall j :: i < j < RegisterParams(names) ==> names[j] != names[i]
    ensures Find(ParamScopes(ss, offset, names, types, idx), names[i]) == Some(ParamInfo(offset - 8 * (i - idx), types[i]))
    decreases |names| - idx
  {
    var ss1 := Declared(ss, names[idx], ParamInfo(offset, types[idx]));
    if i == idx {
      FindAfterDeclare(ss, names[idx], ParamInfo(offset, types[idx]), names[idx]);
      ParamScopesKeep(ss1, offset - 8, names, types, idx + 1, names[idx]);
    } else {
      ParamScopesFind(ss1, offset - 8, names, types, idx + 1, i);
    }
  }

  /** A name that no register parameter from `idx` on declares keeps its
      binding. */
  lemma {:induction false} ParamScopesKeep(ss: Scopes<SymbolInfo>, offset: int, names: seq<string>, types: seq<string>, idx: nat, x: string)
    requires |names| <= |types| || |ArgRegisters| <= |types|
    requires forall j :: idx <= j < RegisterParams(names) ==> names[j] != x
    ensures Find(ParamScopes(ss, offset, names, types, idx), x) == Find(ss, x)
    decreases |names| - idx
  {
    if idx < RegisterParams(names) {
      FindAfterDeclare(ss, names[idx], ParamInfo(offset, types[idx]), x);
      ParamScopesKeep(Declared(ss, names[idx], ParamInfo(offset, types[idx])), offset - 8, names, types, idx + 1, x);
    }
  }

  /** Parameters are declared into the innermost scope: the depth stays. */
  lemma {:induction false} ParamScopesDepth(ss: Scopes<SymbolInfo>, offset: int, names: seq<string>, types: seq<string>, idx: nat)
    requires |names| <= |types| || |ArgRegisters| <= |types|
    requires ss != []
    ensures |ParamScopes(ss, offset, names, types, idx)| == |ss|
    decreases |names| - idx
  {
    if idx < RegisterParams(names) {
      ParamScopesDepth(Declared(ss, names[idx], ParamInfo(offset, types[idx])), offset - 8, names, types, idx + 1);
    }
  }

  /** On entry to a function the cache is empty, there is one scope, the
      register parameters take the slots from -8 downwards with their
      declared types (the last one of a repeated name wins), and the
      slots below are free. */
  lemma FunctionEntry(g: Gen, f: FunDec)
    requires ParamsTyped(f)
    ensures var h := EnterFunction(g, f);
            var k := RegisterParams(f.Nparametros);
            && h.dag == DagState(map[], 0, 0)
            && |h.symbols| == 1
            && h.ctx == Context(true, f.nombre, ".L_return_" + f.nombre)
            && h.nextStackOffset == -8 - 8 * k
            && ParamSlots(h.symbols, f.Nparametros, f.Tparametros)
  {
    var g0 := EmitOut(FreshFrame(g, f.nombre), Prologue(f.nombre, Reserved(g.tables, f.nombre)));
    var k := RegisterParams(f.Nparametros);
    var h := EnterFunction(g, f);
    assert h == DeclareParams(g0, f.Nparametros, f.Tparametros, 0);
    DeclareParamsFrame(g0, f.Nparametros, f.Tparametros, 0);
    ParamScopesDepth(g0.symbols, -8, f.Nparametros, f.Tparametros, 0);
    var ss := ParamScopes(g0.symbols, -8, f.Nparametros, f.Tparametros, 0);
    assert h.symbols == ss;
    ParamScopesSlots(g0.symbols, f.Nparametros, f.Tparametros);
  }

  /** Register parameter `i` is bound to slot `-8 - 8 * i` with its
      declared type, unless a later register parameter has the same name. */
  predicate ParamSlots(ss: Scopes<SymbolInfo>, names: seq<string>, types: seq<string>)
    requires |names| <= |types| || |ArgRegisters| <= |types|
  {
    var k := RegisterParams(names);
    forall i :: 0 <= i < k && (forall j :: i < j < k ==> names[j] != names[i]) ==>
      Find(ss, names[i]) == Some(ParamInfo(-8 - 8 * i, types[i]))
  }

  /** Declaring the register parameters from slot -8 down binds each
      to its own slot. */
  lemma ParamScopesSlots(ss: Scopes<SymbolInfo>, names: seq<string>, types: seq<string>)
    requires |names| <= |types| || |ArgRegisters| <= |types|
    ensures ParamSlots(ParamScopes(ss, -8, names, types, 0), names, types)
  {
    var k := RegisterParams(names);
    forall i | 0 <= i < k && (forall j :: i < j < k ==> names[j] != names[i])
      ensures Find(ParamScopes(ss, -8, names, types, 0), names[i]) == Some(ParamInfo(-8 - 8 * i, types[i]))
    {
      ParamScopesFind(ss, -8, names, types, 0, i);
    }
  }

  /** After the planner's pass a function's reservation is its own count,
      provided no later function has the same name. */
  lemma {:induction false} FramesAfterLookup(aliases: map<string, string>, layouts: map<string, StructLayout>,
                                             frames: map<string, int>, fds: seq<FunDec>, i: nat)
    requires i < |fds| && forall j :: i < j < |fds| ==> fds[j].nombre != fds[i].nombre
    ensures var m := FramesAfter(aliases, layouts, frames, fds);
            fds[i].nombre in m && m[fds[i].nombre] == FunSlots(aliases, layouts, fds[i])
    decreases |fds|
  {
    var next := frames[fds[0].nombre := FunSlots(aliases, layouts, fds[0])];
    if i == 0 {
      FramesAfterKeeps(aliases, layouts, next, fds[1..], fds[0].nombre);
    } else {
      FramesAfterLookup(aliases, layouts, next, fds[1..], i - 1);
    }
  }

  /** A name that no function of `fds` has keeps its reservation. */
  lemma {:induction false} FramesAfterKeeps(aliases: map<string, string>, layouts: map<string, StructLayout>,
                                            frames: map<string, int>, fds: seq<FunDec>, name: string)
    requires name in frames && forall j :: 0 <= j < |fds| ==> fds[j].nombre != name
    ensures var m := FramesAfter(aliases, layouts, frames, fds); name in m && m[name] == frames[name]
    decreases |fds|
  {
    if fds != [] {
      FramesAfterKeeps(aliases, layouts, frames[fds[0].nombre := FunSlots(aliases, layouts, fds[0])], fds[1..], name);
    }
  }

  /** The prologue of a planned function reserves a slot per parameter,
      the body's planned slots, and ten spare slots. */
  lemma PlannedFrame(tables: Tables, p: Program, i: nat)
    requires i < |p.fdlist| && forall j :: i < j < |p.fdlist| ==> p.fdlist[j].nombre != p.fdlist[i].nombre
    ensures var t := Planned(tables, p);
            var f := p.fdlist[i];
            FrameBytes(Reserved(t, f.nombre)) == 8 * |f.Nparametros| + 8 * BodySlots(t.aliases, t.layouts, f.cuerpo) + 80
  {
    var t := Planned(tables, p);
    FramesAfterLookup(t.aliases, t.layouts, map[], p.fdlist, i);
  }

  // ---------------------------------------------------------------------
  // Calls and labels

  /** Pushed arguments and the padding together are a multiple of 16
      bytes, so `%rsp` is 16-byte aligned at the call as section 3.2.2 of
      the System V AMD64 ABI requires; the padding is 8 bytes exactly when
      an odd number of arguments is pushed, and six arguments or fewer
      push nothing. */
  lemma StackAdjustAligned(n: nat)
    ensures StackAdjust(n) % 16 == 0
    ensures StackAdjust(n) - 8 * StackArgs(n) == (if StackArgs(n) % 2 == 1 then 8 else 0)
    ensures StackArgs(n) == (if n > 6 then n - 6 else 0)
  {
    var k := StackArgs(n);
    var q := k / 2;
    assert k == 2 * q + k % 2;
    assert k * 8 == 16 * q + 8 * (k % 2);
  }

  /** Labels of one kind taken at different counter values differ, and
      the counter only grows, so every label is defined once. */
  lemma LabelsDistinct(base: string, i: int, j: int)
    requires i != j
    ensures LabelText(base, i) != LabelText(base, j)
  {
    if LabelText(base, i) == LabelText(base, j) {
      var prefix := ".L_" + base + "_";
      assert LabelText(base, i)[|prefix|..] == IntToString(i);
      assert LabelText(base, j)[|prefix|..] == IntToString(j);
      IntToStringInjective(i, j);
    }
  }

  // ---------------------------------------------------------------------
  // The peephole buffer

  /** Flushing the buffer writes the buffered lines after what was
      written before: unchanged when optimizations are off or nothing was
      buffered, otherwise the optimizer's output for the non-empty lines,
      which fails only when the optimizer does. */
  lemma FlushFeedsBufferedLines(g: Gen)
    requires g.io.buffering
    requires forall k :: 0 <= k < |g.io.written| ==> NoChar(g.io.written[k], '\n')
    ensures var code := g.io.written;
            var r := FlushBuffer(g);
            var outcome := Optimization(g.config.optDag, g.config.optPeephole, ZeroStats, NonEmpty(code));
            && (!g.config.optimizations || code == [] ==> r.Ok? && r.value.io.Out() == g.io.aside + code)
            && (g.config.optimizations && code != [] ==>
                  (r.Ok? <==> outcome.result.Ok?)
                  && (r.Ok? ==> r.value.io.Out() == g.io.aside + outcome.result.value && r.value.stats == outcome.stats))
            && (r.Ok? ==> !r.value.io.buffering)
  {
    SplitJoin(g.io.written);
  }

  // ---------------------------------------------------------------------
  // The data section

  /** Some declaration of `vds` names `x`. */
  predicate DeclaresName(vds: seq<VarDec>, x: string) {
    exists i :: 0 <= i < |vds| && x in vds[i].variables
  }

  /** `var` declarations outside a function write nothing and add their
      names, and only those, to the globals. */
  lemma {:induction false} TopLevelVarDecs(g: Gen, vds: seq<VarDec>)
    requires !g.ctx.insideFunction
    ensures var h := GenVarDecs(g, vds);
            && h.io == g.io && h.ctx == g.ctx
            && forall x :: x in h.globalSymbols <==> x in g.globalSymbols || DeclaresName(vds, x)
    decreases |vds|
  {
    if vds != [] {
      var g1 := GenVarDec(g, vds[0]);
      TopLevelVarDecs(g1, vds[1..]);
      forall x | DeclaresName(vds[1..], x) ensures DeclaresName(vds, x) {
        var i :| 0 <= i < |vds[1..]| && x in vds[1..][i].variables;
        assert x in vds[i + 1].variables;
      }
      forall x | DeclaresName(vds, x) && x !in vds[0].variables ensures DeclaresName(vds[1..], x) {
        var i :| 0 <= i < |vds| && x in vds[i].variables;
        assert i > 0 && x in vds[1..][i - 1].variables;
      }
    }
  }

  /** One zero-initialised quad per name, in order. */
  lemma {:induction false} GlobalLinesShape(order: seq<string>)
    ensures |GlobalLines(order)| == |order|
    ensures forall i :: 0 <= i < |order| ==> GlobalLines(order)[i] == order[i] + ": .quad 0"
    decreases |order|
  {
    if order != [] {
      GlobalLinesShape(order[1..]);
    }
  }

  /** The data section writes the header, one quad for each global of the
      enumeration, and the switch to the text section, and nothing else. */
  lemma DataSectionLines(g: Gen, p: Program, order: seq<string>)
    requires !g.ctx.insideFunction
    ensures var out := DataSection(g, p, order).io.Out();
            && out == g.io.Out() + DataHeader + GlobalLines(order) + [".text"]
            && |GlobalLines(order)| == |order|
            && forall i :: 0 <= i < |order| ==> GlobalLines(order)[i] == order[i] + ": .quad 0"
  {
    var g0 := EmitOut(g, DataHeader);
    TopLevelVarDecs(g0, p.vdlist);
    GlobalLinesShape(order);
    var g1 := GenVarDecs(g0, p.vdlist);
    EmitOutTwice(g1, GlobalLines(order), [".text"]);
    assert g0.io.Out() == g.io.Out() + DataHeader;
  }

  /** The globals listed are the ones declared before plus every name a
      top-level `var` declares. */
  lemma GlobalsListed(g: Gen, p: Program)
    requires !g.ctx.insideFunction
    ensures forall x :: x in GlobalsOf(g, p) <==> x in g.globalSymbols || DeclaresName(p.vdlist, x)
  {
    TopLevelVarDecs(EmitOut(g, DataHeader), p.vdlist);
  }
}
