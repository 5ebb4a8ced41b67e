/** `TypeCheckerVisitor`: before any code is emitted, counts the 8-byte
    stack slots each function needs. Parameters, scalar `let`s, `for`
    iterators and declared variables take one slot each; an array or struct
    `let`, and a struct literal, take as many slots as their bytes need.
    The count only grows over a function body: slots of a finished block
    are not reused. */
module Planner {
  import opened Wrappers
  import opened Text
  import opened Ast
  import opened Layout

  // ---------------------------------------------------------------------
  // The count, as functions of the tree

  /** The slots of `let x: typeName`: enough for the array's elements or
      the struct's bytes with less than one slot to spare, one otherwise. */
  function LetSlots(aliases: map<string, string>, layouts: map<string, StructLayout>, typeName: string): (n: int)
    ensures var t := Resolve(aliases, typeName);
            IsArrayType(t) && ArrayCount(t) >= 0 ==> 4 * ArrayCount(t) <= 8 * n < 4 * ArrayCount(t) + 8
    ensures var t := Resolve(aliases, typeName);
            !IsArrayType(t) && t in layouts && layouts[t].size >= 0 ==> layouts[t].size <= 8 * n < layouts[t].size + 8
    ensures var t := Resolve(aliases, typeName); !IsArrayType(t) && t !in layouts ==> n == 1
    ensures NaturalTables(aliases, layouts) && NaturalType(typeName) ==> n >= 0
  {
    var t := Resolve(aliases, typeName);
    if IsArrayType(t) then SlotsFor(ArrayCount(t) * 4)
    else if t in layouts then SlotsFor(layouts[t].size)
    else 1
  }

  /** The slots of a struct literal of type `name` itself; none when the
      struct is unknown. */
  function LiteralSlots(aliases: map<string, string>, layouts: map<string, StructLayout>, name: string): (n: int)
    ensures var t := Resolve(aliases, name); t in layouts && layouts[t].size >= 0 ==> layouts[t].size <= 8 * n < layouts[t].size + 8
    ensures Resolve(aliases, name) !in layouts ==> n == 0
  {
    var t := Resolve(aliases, name);
    if t in layouts then SlotsFor(layouts[t].size) else 0
  }

  /** Struct literals are the only expressions that take slots. Array
      indexing and field access are not looked into. */
  function ExpSlots(aliases: map<string, string>, layouts: map<string, StructLayout>, e: Exp): (n: int)
    ensures NaturalLayouts(layouts) ==> n >= 0
    decreases e
  {
    match e
    case BinaryExp(l, r, _) => ExpSlots(aliases, layouts, l) + ExpSlots(aliases, layouts, r)
    case FcallExp(_, args) => ArgsSlots(aliases, layouts, args)
    case StructInitExp(name, inits) => LiteralSlots(aliases, layouts, name) + InitsSlots(aliases, layouts, inits)
    case _ => 0
  }

  function ArgsSlots(aliases: map<string, string>, layouts: map<string, StructLayout>, args: seq<Exp>): (n: int)
    ensures NaturalLayouts(layouts) ==> n >= 0
    decreases args
  {
    if args == [] then 0 else ExpSlots(aliases, layouts, args[0]) + ArgsSlots(aliases, layouts, args[1..])
  }

  function InitsSlots(aliases: map<string, string>, layouts: map<string, StructLayout>, inits: seq<FieldInit>): (n: int)
    ensures NaturalLayouts(layouts) ==> n >= 0
    decreases inits
  {
    if inits == [] then 0
    else ExpSlots(aliases, layouts, inits[0].value) + InitsSlots(aliases, layouts, inits[1..])
  }

  function OptExpSlots(aliases: map<string, string>, layouts: map<string, StructLayout>, e: Option<Exp>): (n: int)
    ensures NaturalLayouts(layouts) ==> n >= 0
  {
    match e
    case None => 0
    case Some(x) => ExpSlots(aliases, layouts, x)
  }

  function StmSlots(aliases: map<string, string>, layouts: map<string, StructLayout>, s: Stm): (n: int)
    ensures NaturalTables(aliases, layouts) && NaturalStm(s) ==> n >= 0
    decreases s
  {
    match s
    case BlockStm(ss) => StmsSlots(aliases, layouts, ss)
    case LetStm(_, _, t, init) => LetSlots(aliases, layouts, t) + OptExpSlots(aliases, layouts, init)
    case IfStm(c, thenB, elseB) =>
      ExpSlots(aliases, layouts, c) + StmsSlots(aliases, layouts, thenB) + ElseSlots(aliases, layouts, elseB)
    case WhileStm(c, body) => ExpSlots(aliases, layouts, c) + StmsSlots(aliases, layouts, body)
    case ForStm(_, st, en, body) =>
      1 + ExpSlots(aliases, layouts, st) + ExpSlots(aliases, layouts, en) + StmsSlots(aliases, layouts, body)
    case AssignStm(_, e) => ExpSlots(aliases, layouts, e)
    case PrintStm(e) => OptExpSlots(aliases, layouts, e)
    case ReturnStm(e) => OptExpSlots(aliases, layouts, e)
  }

  function ElseSlots(aliases: map<string, string>, layouts: map<string, StructLayout>, elseB: ElseBlock): (n: int)
    ensures NaturalTables(aliases, layouts) && NaturalElse(elseB) ==> n >= 0
    decreases elseB
  {
    match elseB
    case NoElse => 0
    case Else(b) => StmsSlots(aliases, layouts, b)
  }

  function StmsSlots(aliases: map<string, string>, layouts: map<string, StructLayout>, ss: seq<Stm>): (n: int)
    ensures NaturalTables(aliases, layouts) && NaturalStms(ss) ==> n >= 0
    decreases ss
  {
    if ss == [] then 0 else StmSlots(aliases, layouts, ss[0]) + StmsSlots(aliases, layouts, ss[1..])
  }

  /** One slot per declared variable. */
  function VarDecsSlots(vds: seq<VarDec>): (n: int)
    ensures n >= 0 && (vds != [] ==> n >= |vds[0].variables|)
  {
    if vds == [] then 0 else |vds[0].variables| + VarDecsSlots(vds[1..])
  }

  function BodySlots(aliases: map<string, string>, layouts: map<string, StructLayout>, b: Body): (n: int)
    ensures NaturalTables(aliases, layouts) && NaturalStms(b.stmlist) ==> n >= 0
  {
    VarDecsSlots(b.vdlist) + StmsSlots(aliases, layouts, b.stmlist)
  }

  /** The planned slots of a function: its parameters and its body. */
  function FunSlots(aliases: map<string, string>, layouts: map<string, StructLayout>, f: FunDec): (n: int)
    ensures NaturalTables(aliases, layouts) && NaturalStms(f.cuerpo.stmlist) ==> n >= |f.Nparametros|
  {
    |f.Nparametros| + BodySlots(aliases, layouts, f.cuerpo)
  }

  /** The bytes the prologue reserves for `slots` planned slots: ten more
      slots are kept for cached subexpressions. */
  function FrameBytes(slots: int): (b: int)
    ensures b % 8 == 0 && (slots >= 0 ==> b >= 80)
    ensures b % 16 == 0 <==> slots % 2 == 0
  {
    (slots + 10) * 8
  }

  // ---------------------------------------------------------------------
  // Program-level tables

  /** The aliases after registering `tas` in order: the old aliases and the
      new ones, each new one holding the last target given for it. */
  function AliasesAfter(aliases: map<string, string>, tas: seq<TypeAlias>): (r: map<string, string>)
    ensures forall x :: x in r <==> x in aliases || exists i :: 0 <= i < |tas| && tas[i].alias == x
    ensures tas != [] ==> r[tas[|tas| - 1].alias] == tas[|tas| - 1].target
    decreases |tas|
  {
    if tas == [] then aliases
    else
      var rest := tas[1..];
      assert rest != [] ==> rest[|rest| - 1] == tas[|tas| - 1];
      AliasesAfter(aliases[tas[0].alias := tas[0].target], rest)
  }

  /** Registering aliases overrides the table with the last target given
      for each alias. */
  lemma {:induction false} AliasesAfterOverride(m: map<string, string>, n: map<string, string>, tas: seq<TypeAlias>)
    ensures AliasesAfter(m + n, tas) == m + AliasesAfter(n, tas)
    decreases |tas|
  {
    if tas != [] {
      assert (m + n)[tas[0].alias := tas[0].target] == m + n[tas[0].alias := tas[0].target];
      AliasesAfterOverride(m, n[tas[0].alias := tas[0].target], tas[1..]);
    }
  }

  /** Registering the same aliases again changes nothing: the generator
      re-registers what the planner registered. */
  lemma AliasesAfterTwice(aliases: map<string, string>, tas: seq<TypeAlias>)
    ensures AliasesAfter(AliasesAfter(aliases, tas), tas) == AliasesAfter(aliases, tas)
  {
    var t := AliasesAfter(map[], tas);
    AliasesAfterOverride(aliases, map[], tas);
    assert aliases + map[] == aliases;
    AliasesAfterOverride(aliases + t, map[], tas);
    assert (aliases + t) + map[] == aliases + t;
    assert (aliases + t) + t == aliases + t;
  }

  /** The layouts after the planner registers `sds`: field types are
      resolved through the aliases. */
  function PlannedLayouts(aliases: map<string, string>, layouts: map<string, StructLayout>, sds: seq<StructDec>): (r: map<string, StructLayout>)
    ensures forall x :: x in r <==> x in layouts || exists i :: 0 <= i < |sds| && sds[i].name == x
    ensures var last := |sds| - 1;
            sds != [] ==> r[sds[last].name] == LayoutOf(sds[last].fields, PlannerSizes(aliases, sds[last].fields))
    decreases |sds|
  {
    if sds == [] then layouts
    else
      var rest := sds[1..];
      assert rest != [] ==> rest[|rest| - 1] == sds[|sds| - 1];
      PlannedLayouts(aliases, layouts[sds[0].name := LayoutOf(sds[0].fields, PlannerSizes(aliases, sds[0].fields))], rest)
  }

  /** One declaration of `PlannedLayouts` taken off the front. */
  lemma PlannedLayoutsStep(aliases: map<string, string>, layouts: map<string, StructLayout>, sds: seq<StructDec>, j: nat)
    requires j < |sds|
    ensures PlannedLayouts(aliases, layouts, sds[j..])
            == PlannedLayouts(aliases, layouts[sds[j].name := LayoutOf(sds[j].fields, PlannerSizes(aliases, sds[j].fields))], sds[j + 1..])
  {
    assert sds[j..][1..] == sds[j + 1..];
  }

  /** The planned slots of each function of `fds`, a later function of the
      same name replacing an earlier one. */
  function FramesAfter(aliases: map<string, string>, layouts: map<string, StructLayout>, frames: map<string, int>, fds: seq<FunDec>): (r: map<string, int>)
    ensures forall x :: x in r <==> x in frames || exists i :: 0 <= i < |fds| && fds[i].nombre == x
    ensures fds != [] ==> r[fds[|fds| - 1].nombre] == FunSlots(aliases, layouts, fds[|fds| - 1])
    decreases |fds|
  {
    if fds == [] then frames
    else
      var rest := fds[1..];
      assert rest != [] ==> rest[|rest| - 1] == fds[|fds| - 1];
      FramesAfter(aliases, layouts, frames[fds[0].nombre := FunSlots(aliases, layouts, fds[0])], rest)
  }

  /** One function of `FramesAfter` taken off the front. */
  lemma FramesAfterStep(aliases: map<string, string>, layouts: map<string, StructLayout>, frames: map<string, int>, fds: seq<FunDec>, m: nat)
    requires m < |fds|
    ensures FramesAfter(aliases, layouts, frames, fds[m..])
            == FramesAfter(aliases, layouts, frames[fds[m].nombre := FunSlots(aliases, layouts, fds[m])], fds[m + 1..])
  {
    assert fds[m..][1..] == fds[m + 1..];
  }

  // ---------------------------------------------------------------------
  // Properties of the count

  /** Slots accumulate: a statement list needs what its parts need. */
  lemma {:induction false} StmsSlotsAppend(aliases: map<string, string>, layouts: map<string, StructLayout>, a: seq<Stm>, b: seq<Stm>)
    ensures StmsSlots(aliases, layouts, a + b) == StmsSlots(aliases, layouts, a) + StmsSlots(aliases, layouts, b)
    decreases |a|
  {
    if a != [] {
      assert (a + b)[0] == a[0];
      assert (a + b)[1..] == a[1..] + b;
      StmsSlotsAppend(aliases, layouts, a[1..], b);
    } else {
      assert a + b == b;
    }
  }

  /** A nested block costs what its statements cost: nothing is shared
      between sibling blocks. */
  lemma SiblingBlocksAdd(aliases: map<string, string>, layouts: map<string, StructLayout>, a: seq<Stm>, b: seq<Stm>)
    ensures StmsSlots(aliases, layouts, [BlockStm(a), BlockStm(b)]) ==
            StmsSlots(aliases, layouts, a) + StmsSlots(aliases, layouts, b)
  {
    var two := [BlockStm(a), BlockStm(b)];
    assert two[1..] == [BlockStm(b)] && [BlockStm(b)][1..] == [];
    assert StmsSlots(aliases, layouts, [BlockStm(b)]) == StmsSlots(aliases, layouts, b) + 0;
    assert StmsSlots(aliases, layouts, two) ==
           StmSlots(aliases, layouts, BlockStm(a)) + StmsSlots(aliases, layouts, [BlockStm(b)]);
  }

  /** Sizes are natural when every layout has a non-negative size. */
  ghost predicate NaturalLayouts(layouts: map<string, StructLayout>) {
    forall n :: n in layouts ==> layouts[n].size >= 0
  }

  /** The type's array count, if it has one, is not negative. */
  predicate NaturalType(t: string) {
    ArrayCount(t) >= 0
  }

  ghost predicate NaturalAliases(aliases: map<string, string>) {
    forall n :: n in aliases ==> NaturalType(aliases[n])
  }

  /** Alias chains end at types whose counts are not negative, and struct
      sizes are not negative. */
  ghost predicate NaturalTables(aliases: map<string, string>, layouts: map<string, StructLayout>) {
    Acyclic(aliases) && NaturalAliases(aliases) && NaturalLayouts(layouts)
  }

  /** Every `let` in `s` names a type whose count is not negative, as every
      type the parser reads does. */
  predicate NaturalStm(s: Stm)
    decreases s, 1
  {
    match s
    case BlockStm(ss) => NaturalStms(ss)
    case LetStm(_, _, t, _) => NaturalType(t)
    case IfStm(_, thenB, elseB) => NaturalStms(thenB) && NaturalElse(elseB)
    case WhileStm(_, body) => NaturalStms(body)
    case ForStm(_, _, _, body) => NaturalStms(body)
    case _ => true
  }

  predicate NaturalStms(ss: seq<Stm>)
    decreases ss, 0
  {
    forall i :: 0 <= i < |ss| ==> NaturalStm(ss[i])
  }

  predicate NaturalElse(elseB: ElseBlock)
    decreases elseB, 0
  {
    match elseB
    case NoElse => true
    case Else(b) => NaturalStms(b)
  }

  lemma ResolveNatural(aliases: map<string, string>, t: string)
    requires Acyclic(aliases) && NaturalAliases(aliases) && NaturalType(t)
    ensures NaturalType(Resolve(aliases, t))
  {
    var r := Resolve(aliases, t);
    if r != t {
      var k :| k in aliases && aliases[k] == r;
    }
  }

  /** A `let` takes at least one slot except a zero-length array or an
      empty struct, which take none. */
  lemma LetSlotsBounds(aliases: map<string, string>, layouts: map<string, StructLayout>, typeName: string)
    requires Acyclic(aliases) && NaturalAliases(aliases) && NaturalLayouts(layouts) && NaturalType(typeName)
    ensures LetSlots(aliases, layouts, typeName) >= 0
    ensures var t := Resolve(aliases, typeName);
            !IsArrayType(t) && t !in layouts ==> LetSlots(aliases, layouts, typeName) == 1
  {
    ResolveNatural(aliases, typeName);
  }

  /** An array of `n` elements takes `ceil(4n/8)` slots; a count `stoi`
      cannot hold gives none. */
  lemma ArraySlots(aliases: map<string, string>, layouts: map<string, StructLayout>, name: string, digits: string)
    requires NoChar(name, '[') && NoChar(name, ']') && AllDigits(digits) && digits != []
    requires name + "[" + digits + "]" !in aliases
    ensures LetSlots(aliases, layouts, name + "[" + digits + "]") ==
            (if DigitsValue(digits) <= INT_MAX then (DigitsValue(digits) * 4 + 7) / 8 else 0)
  {
    ParsedArrayCount(name, digits);
  }

  /** The reservation is ten slots more than planned, so it is never
      empty when the plan is not negative. */
  lemma FrameBytesBounds(slots: int)
    requires slots >= 0
    ensures FrameBytes(slots) >= 80 && FrameBytes(slots) % 16 == (if slots % 2 == 0 then 0 else 8)
  {
  }

  // ---------------------------------------------------------------------
  // The visitor

  class TypeCheckerVisitor {
    var frameSlots: map<string, int>
    var currentSlotCount: int
    const globals: Globals

    constructor(g: Globals)
      ensures globals == g && frameSlots == map[] && currentSlotCount == 0
    {
      globals := g;
      frameSlots := map[];
      currentSlotCount := 0;
    }

    /** `analyze`: the aliases and struct layouts of `p` are registered in
        the shared tables, and every function gets its planned slots. */
    method Analyze(p: Program)
      requires Acyclic(AliasesAfter(globals.aliases, p.talist))
      modifies this, globals
      ensures globals.aliases == AliasesAfter(old(globals.aliases), p.talist)
      ensures globals.layouts == PlannedLayouts(globals.aliases, old(globals.layouts), p.sdlist)
      ensures frameSlots == FramesAfter(globals.aliases, globals.layouts, map[], p.fdlist)
      ensures currentSlotCount == if p.fdlist == [] then VarDecsSlots(p.vdlist) else 0
    {
      frameSlots := map[];
      currentSlotCount := 0;
      VisitProgram(p);
    }

    method VisitProgram(p: Program)
      requires Acyclic(AliasesAfter(globals.aliases, p.talist))
      modifies this, globals
      ensures globals.aliases == AliasesAfter(old(globals.aliases), p.talist)
      ensures globals.layouts == PlannedLayouts(globals.aliases, old(globals.layouts), p.sdlist)
      ensures frameSlots == FramesAfter(globals.aliases, globals.layouts, old(frameSlots), p.fdlist)
      ensures currentSlotCount == if p.fdlist == [] then old(currentSlotCount) + VarDecsSlots(p.vdlist) else 0
    {
      VisitTypeAliases(p.talist);
      VisitStructDecs(p.sdlist);
      VisitGlobals(p.vdlist);
      VisitFunDecs(p.fdlist);
    }

    method VisitTypeAliases(tas: seq<TypeAlias>)
      modifies globals
      ensures globals.aliases == AliasesAfter(old(globals.aliases), tas)
      ensures globals.layouts == old(globals.layouts)
    {
      var i := 0;
      while i < |tas|
        invariant 0 <= i <= |tas|
        invariant AliasesAfter(old(globals.aliases), tas) == AliasesAfter(globals.aliases, tas[i..])
        invariant globals.layouts == old(globals.layouts)
      {
        VisitTypeAlias(tas[i]);
        assert tas[i..][1..] == tas[i + 1..];
        i := i + 1;
      }
    }

    method VisitStructDecs(sds: seq<StructDec>)
      requires Acyclic(globals.aliases)
      modifies globals
      ensures globals.aliases == old(globals.aliases)
      ensures globals.layouts == PlannedLayouts(globals.aliases, old(globals.layouts), sds)
    {
      var j := 0;
      while j < |sds|
        invariant 0 <= j <= |sds|
        invariant globals.aliases == old(globals.aliases)
        invariant PlannedLayouts(globals.aliases, old(globals.layouts), sds) ==
                  PlannedLayouts(globals.aliases, globals.layouts, sds[j..])
      {
        ghost var before := globals.layouts;
        VisitStructDec(sds[j]);
        PlannedLayoutsStep(globals.aliases, before, sds, j);
        j := j + 1;
      }
    }

    /** Global declarations are counted too, into a count the first
        function then restarts. */
    method VisitGlobals(vds: seq<VarDec>)
      modifies this
      ensures currentSlotCount == old(currentSlotCount) + VarDecsSlots(vds)
      ensures frameSlots == old(frameSlots)
    {
      var k := 0;
      while k < |vds|
        invariant 0 <= k <= |vds|
        invariant currentSlotCount + VarDecsSlots(vds[k..]) == old(currentSlotCount) + VarDecsSlots(vds)
        invariant frameSlots == old(frameSlots)
      {
        VisitVarDec(vds[k]);
        assert vds[k..][1..] == vds[k + 1..];
        k := k + 1;
      }
    }

    method VisitFunDecs(fds: seq<FunDec>)
      requires Acyclic(globals.aliases)
      modifies this
      ensures frameSlots == FramesAfter(globals.aliases, globals.layouts, old(frameSlots), fds)
      ensures currentSlotCount == if fds == [] then old(currentSlotCount) else 0
    {
      var m := 0;
      while m < |fds|
        invariant 0 <= m <= |fds|
        invariant FramesAfter(globals.aliases, globals.layouts, old(frameSlots), fds) ==
                  FramesAfter(globals.aliases, globals.layouts, frameSlots, fds[m..])
        invariant currentSlotCount == if m == 0 then old(currentSlotCount) else 0
      {
        ghost var before := frameSlots;
        VisitFunDec(fds[m]);
        FramesAfterStep(globals.aliases, globals.layouts, before, fds, m);
        m := m + 1;
      }
    }

    method VisitTypeAlias(ta: TypeAlias)
      modifies globals
      ensures globals.aliases == old(globals.aliases)[ta.alias := ta.target]
      ensures globals.layouts == old(globals.layouts)
    {
      globals.aliases := globals.aliases[ta.alias := ta.target];
    }

    /** The planner's layout of a struct: each field's type is resolved
        through the aliases before it is sized. */
    method VisitStructDec(sd: StructDec)
      requires Acyclic(globals.aliases)
      modifies globals
      ensures globals.aliases == old(globals.aliases)
      ensures globals.layouts == old(globals.layouts)[sd.name := LayoutOf(sd.fields, PlannerSizes(globals.aliases, sd.fields))]
    {
      ghost var sizes := PlannerSizes(globals.aliases, sd.fields);
      var offsets: map<string, int> := map[];
      var types: map<string, string> := map[];
      var currentOffset := 0;
      var i := 0;
      while i < |sd.fields|
        invariant 0 <= i <= |sd.fields|
        invariant globals.aliases == old(globals.aliases) && globals.layouts == old(globals.layouts)
        invariant LayoutOf(sd.fields[..i], sizes[..i]) == StructLayout(currentOffset, offsets, types)
      {
        var field := sd.fields[i];
        offsets := offsets[field.0 := currentOffset];
        types := types[field.0 := field.1];
        var size := FieldSize(field.1);
        currentOffset := currentOffset + size;
        LayoutOfStep(sd.fields, sizes, i);
        i := i + 1;
      }
      assert sd.fields[..i] == sd.fields;
      assert sizes[..i] == sizes;
      globals.layouts := globals.layouts[sd.name := StructLayout(currentOffset, offsets, types)];
    }

    /** The bytes a field of declared type `typeName` takes in the
        planner's layout, its type resolved first. */
    method FieldSize(typeName: string) returns (size: int)
      requires Acyclic(globals.aliases)
      ensures size == FieldBytes(Resolve(globals.aliases, typeName))
    {
      var t := globals.ResolveAlias(typeName);
      size := 8;
      if IsArrayType(t) {
        var count := ArrayCount(t);
        size := count * 4;
      } else if t == "i32" || t == "bool" || t == "u32" || t == "f32" {
        size := 4;
      }
    }

    method VisitVarDec(vd: VarDec)
      modifies this
      ensures currentSlotCount == old(currentSlotCount) + |vd.variables|
      ensures frameSlots == old(frameSlots)
    {
      currentSlotCount := currentSlotCount + |vd.variables|;
    }

    /** A function's count starts at its parameter count and is recorded
        once its body is counted. */
    method VisitFunDec(f: FunDec)
      requires Acyclic(globals.aliases)
      modifies this
      ensures frameSlots == old(frameSlots)[f.nombre := FunSlots(globals.aliases, globals.layouts, f)]
      ensures currentSlotCount == 0
    {
      currentSlotCount := |f.Nparametros|;
      VisitBody(f.cuerpo);
      frameSlots := frameSlots[f.nombre := currentSlotCount];
      currentSlotCount := 0;
    }

    method VisitBody(b: Body)
      requires Acyclic(globals.aliases)
      modifies this
      ensures currentSlotCount == old(currentSlotCount) + BodySlots(globals.aliases, globals.layouts, b)
      ensures frameSlots == old(frameSlots)
    {
      var i := 0;
      while i < |b.vdlist|
        invariant 0 <= i <= |b.vdlist|
        invariant currentSlotCount + VarDecsSlots(b.vdlist[i..]) == old(currentSlotCount) + VarDecsSlots(b.vdlist)
        invariant frameSlots == old(frameSlots)
      {
        VisitVarDec(b.vdlist[i]);
        assert b.vdlist[i..][1..] == b.vdlist[i + 1..];
        i := i + 1;
      }
      VisitStms(b.stmlist);
    }

    /** The statements of a block, in order. */
    method VisitStms(ss: seq<Stm>)
      requires Acyclic(globals.aliases)
      modifies this
      ensures currentSlotCount == old(currentSlotCount) + StmsSlots(globals.aliases, globals.layouts, ss)
      ensures frameSlots == old(frameSlots)
      decreases ss
    {
      var i := 0;
      while i < |ss|
        invariant 0 <= i <= |ss|
        invariant currentSlotCount + StmsSlots(globals.aliases, globals.layouts, ss[i..]) ==
                  old(currentSlotCount) + StmsSlots(globals.aliases, globals.layouts, ss)
        invariant frameSlots == old(frameSlots)
      {
        VisitStm(ss[i]);
        assert ss[i..][1..] == ss[i + 1..];
        i := i + 1;
      }
    }

    method VisitStm(s: Stm)
      requires Acyclic(globals.aliases)
      modifies this
      ensures currentSlotCount == old(currentSlotCount) + StmSlots(globals.aliases, globals.layouts, s)
      ensures frameSlots == old(frameSlots)
      decreases s
    {
      match s
      case BlockStm(ss) =>
        VisitStms(ss);
      case LetStm(_, _, t, init) =>
        VisitLet(s);
      case IfStm(c, thenB, elseB) =>
        VisitExp(c);
        VisitStms(thenB);
        VisitElse(elseB);
      case WhileStm(c, body) =>
        VisitExp(c);
        VisitStms(body);
      case ForStm(_, st, en, body) =>
        currentSlotCount := currentSlotCount + 1;
        VisitExp(st);
        VisitExp(en);
        VisitStms(body);
      case AssignStm(_, e) =>
        VisitExp(e);
      case PrintStm(e) =>
        if e.Some? {
          VisitExp(e.value);
        }
      case ReturnStm(e) =>
        if e.Some? {
          VisitExp(e.value);
        }
    }

    method VisitElse(elseB: ElseBlock)
      requires Acyclic(globals.aliases)
      modifies this
      ensures currentSlotCount == old(currentSlotCount) + ElseSlots(globals.aliases, globals.layouts, elseB)
      ensures frameSlots == old(frameSlots)
      decreases elseB
    {
      if elseB.Else? {
        VisitStms(elseB.block);
      }
    }

    /** A `let`: the slots of its type, then those of its initialiser. */
    method VisitLet(s: Stm)
      requires s.LetStm? && Acyclic(globals.aliases)
      modifies this
      ensures currentSlotCount == old(currentSlotCount) + StmSlots(globals.aliases, globals.layouts, s)
      ensures frameSlots == old(frameSlots)
      decreases s, 0
    {
      var slots := 1;
      var t := globals.ResolveAlias(s.type_name);
      if IsArrayType(t) {
        var count := ArrayCount(t);
        var sizeBytes := count * 4;
        slots := SlotsFor(sizeBytes);
      } else if t in globals.layouts {
        var sizeBytes := globals.layouts[t].size;
        slots := SlotsFor(sizeBytes);
      }
      currentSlotCount := currentSlotCount + slots;
      if s.init.Some? {
        VisitExp(s.init.value);
      }
    }

    method VisitExp(e: Exp)
      requires Acyclic(globals.aliases)
      modifies this
      ensures currentSlotCount == old(currentSlotCount) + ExpSlots(globals.aliases, globals.layouts, e)
      ensures frameSlots == old(frameSlots)
      decreases e
    {
      match e
      case BinaryExp(l, r, _) =>
        VisitExp(l);
        VisitExp(r);
      case FcallExp(_, args) =>
        var i := 0;
        while i < |args|
          invariant 0 <= i <= |args|
          invariant currentSlotCount + ArgsSlots(globals.aliases, globals.layouts, args[i..]) ==
                    old(currentSlotCount) + ArgsSlots(globals.aliases, globals.layouts, args)
          invariant frameSlots == old(frameSlots)
        {
          VisitExp(args[i]);
          assert args[i..][1..] == args[i + 1..];
          i := i + 1;
        }
      case StructInitExp(name, inits) =>
        var t := globals.ResolveAlias(name);
        if t in globals.layouts {
          var size := globals.layouts[t].size;
          var slots := SlotsFor(size);
          currentSlotCount := currentSlotCount + slots;
        }
        var i := 0;
        while i < |inits|
          invariant 0 <= i <= |inits|
          invariant currentSlotCount + InitsSlots(globals.aliases, globals.layouts, inits[i..]) ==
                    old(currentSlotCount) + ExpSlots(globals.aliases, globals.layouts, e)
          invariant frameSlots == old(frameSlots)
        {
          VisitExp(inits[i].value);
          assert inits[i..][1..] == inits[i + 1..];
          i := i + 1;
        }
      case _ =>
    }
  }
}
