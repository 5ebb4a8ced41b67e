/** The peephole optimizer: up to five passes over the instruction list,
    trying five local rewrite rules at each position. An instruction line is
    read the way `istringstream >> op >> src >> dst` reads it; an exception
    thrown by `std::stoll` while folding constants is an `Err`. */
module Peephole {
  import opened Wrappers
  import opened Text

  /** The mnemonics the rules look at; every other one is `OTHER`. */
  datatype Opcode = MOVQ | MOVL | MOVB | MOVW | ADDQ | ADDL | SUBQ | SUBL | IMULQ | IMULL | CMPQ | CMPL | OTHER

  /** The mnemonic `op` names, compared letter by letter (`OpcodeNames`
      states the comparison with the mnemonic strings). */
  function OpcodeOf(op: string): (c: Opcode) {
    if |op| == 4 && op[0] == 'm' && op[1] == 'o' && op[2] == 'v' then
      (if op[3] == 'q' then MOVQ else if op[3] == 'l' then MOVL
       else if op[3] == 'b' then MOVB else if op[3] == 'w' then MOVW else OTHER)
    else if |op| == 4 && op[0] == 'a' && op[1] == 'd' && op[2] == 'd' then
      (if op[3] == 'q' then ADDQ else if op[3] == 'l' then ADDL else OTHER)
    else if |op| == 4 && op[0] == 's' && op[1] == 'u' && op[2] == 'b' then
      (if op[3] == 'q' then SUBQ else if op[3] == 'l' then SUBL else OTHER)
    else if |op| == 4 && op[0] == 'c' && op[1] == 'm' && op[2] == 'p' then
      (if op[3] == 'q' then CMPQ else if op[3] == 'l' then CMPL else OTHER)
    else if |op| == 5 && op[0] == 'i' && op[1] == 'm' && op[2] == 'u' && op[3] == 'l' then
      (if op[4] == 'q' then IMULQ else if op[4] == 'l' then IMULL else OTHER)
    else OTHER
  }

  /** Each opcode but `OTHER` is exactly one mnemonic. */
  lemma OpcodeNames(op: string)
    ensures OpcodeOf(op) == MOVQ <==> op == "movq"
    ensures OpcodeOf(op) == MOVL <==> op == "movl"
    ensures OpcodeOf(op) == MOVB <==> op == "movb"
    ensures OpcodeOf(op) == MOVW <==> op == "movw"
    ensures OpcodeOf(op) == ADDQ <==> op == "addq"
    ensures OpcodeOf(op) == ADDL <==> op == "addl"
    ensures OpcodeOf(op) == SUBQ <==> op == "subq"
    ensures OpcodeOf(op) == SUBL <==> op == "subl"
    ensures OpcodeOf(op) == IMULQ <==> op == "imulq"
    ensures OpcodeOf(op) == IMULL <==> op == "imull"
    ensures OpcodeOf(op) == CMPQ <==> op == "cmpq"
    ensures OpcodeOf(op) == CMPL <==> op == "cmpl"
  {
    if |op| == 4 {
      FourLetterNames(op);
    } else {
      assert OpcodeOf(op) == IMULQ <==> op == "imulq";
    }
  }

  lemma FourLetterNames(op: string)
    requires |op| == 4
    ensures OpcodeOf(op) == MOVQ <==> op == "movq"
    ensures OpcodeOf(op) == MOVL <==> op == "movl"
    ensures OpcodeOf(op) == MOVB <==> op == "movb"
    ensures OpcodeOf(op) == MOVW <==> op == "movw"
    ensures OpcodeOf(op) == ADDQ <==> op == "addq"
    ensures OpcodeOf(op) == ADDL <==> op == "addl"
    ensures OpcodeOf(op) == SUBQ <==> op == "subq"
    ensures OpcodeOf(op) == SUBL <==> op == "subl"
    ensures OpcodeOf(op) == CMPQ <==> op == "cmpq"
    ensures OpcodeOf(op) == CMPL <==> op == "cmpl"
  {
  }

  /** `isMovInstruction`. */
  predicate IsMov(c: Opcode) { c == MOVQ || c == MOVL || c == MOVB || c == MOVW }
  predicate IsMovQL(c: Opcode) { c == MOVQ || c == MOVL }
  predicate IsAdd(c: Opcode) { c == ADDQ || c == ADDL }
  predicate IsSub(c: Opcode) { c == SUBQ || c == SUBL }
  predicate IsMul(c: Opcode) { c == IMULQ || c == IMULL }
  /** `isArithmeticInstruction`. */
  predicate IsArithmetic(c: Opcode) { IsAdd(c) || IsSub(c) || IsMul(c) }

  /** The first three words of an instruction line, as
      `istringstream >> op >> src >> dst` reads them (empty when missing),
      and the mnemonic they start with. */
  datatype Instr = Instr(code: Opcode, op: string, src: string, dst: string)

  function Decode(line: string): (f: Instr)
    ensures f.code == OpcodeOf(f.op)
    ensures NoSpace(f.op) && NoSpace(f.src) && NoSpace(f.dst)
    ensures f.op == "" ==> f.src == "" && f.dst == ""
  {
    FromWords(Words(line))
  }

  function FromWords(ws: seq<string>): (f: Instr) {
    var op := if |ws| > 0 then ws[0] else "";
    Instr(OpcodeOf(op), op, if |ws| > 1 then ws[1] else "", if |ws| > 2 then ws[2] else "")
  }

  /** `if (w.back() == ',') w.pop_back();` An empty word has no comma to
      drop. */
  function StripComma(w: string): (r: string)
    ensures r == w || r + "," == w
  {
    if EndsWith(w, ',') then w[..|w| - 1] else w
  }

  predicate IsImmediate(operand: string) { |operand| > 0 && operand[0] == '$' }

  /** `getImmediateValue`: 0 for an operand without `$`, otherwise `stoll`
      of the text after it; `None` is the exception `stoll` throws. */
  function ImmediateValue(operand: string): (r: Option<int>)
    ensures r.Some? ==> LLONG_MIN <= r.value <= LLONG_MAX
  {
    if !IsImmediate(operand) then Some(0) else Stoll(operand[1..])
  }

  /** The line shape the code generator writes: `" op src, dst"`. */
  function Line(op: string, src: string, dst: string): string {
    " " + op + " " + src + ", " + dst
  }

  /** `instructions.erase(instructions.begin() + i)`. */
  function Erase(ins: seq<string>, i: nat): (r: seq<string>)
    requires i < |ins|
    ensures |r| == |ins| - 1
    ensures forall k :: 0 <= k < i ==> r[k] == ins[k]
    ensures forall k :: i <= k < |r| ==> r[k] == ins[k + 1]
  {
    ins[..i] + ins[i + 1..]
  }

  /** What a rule does to the lines at `i` and `i + 1`. */
  datatype Action =
    | Skip                      // the rule does not apply
    | Drop                      // erase line i
    | Fuse(line: string)        // line i := line, erase line i + 1
    | ReplaceFirst(line: string)
    | ReplaceSecond(line: string)
    | Throw                     // an exception escapes

  // ---------------------------------------------------------------------
  // The five rules, in the order `optimize` tries them. `a` is the line
  // at the current position and `b` the one after it.

  /** `movq X, X` / `movl X, X` is erased. */
  function RedundantMove(a: Instr): (r: Action)
    ensures r == Skip || r == Drop
  {
    if IsMovQL(a.code) && a.src != "" && a.dst != "" && StripComma(a.src) == a.dst then Drop else Skip
  }

  /** `mov $x, D` then `add $y, D` (or `sub $y, D`) becomes
      `mov $(x+y), D` (or `mov $(x-y), D`). */
  function CombineConstants(a: Instr, b: Instr): (r: Action)
    ensures r == Skip || r == Throw || r.Fuse?
    ensures r.Fuse? ==> IsMovQL(a.code) && (IsAdd(b.code) || IsSub(b.code))
  {
    if IsMovQL(a.code) && IsImmediate(a.src) && (IsAdd(b.code) || IsSub(b.code)) && IsImmediate(b.src)
       && StripComma(a.dst) == StripComma(b.dst)
    then Fold(a, b)
    else Skip
  }

  /** The folding step of `CombineConstants`, once both lines matched. */
  function Fold(a: Instr, b: Instr): (r: Action)
    ensures r == Throw || r.Fuse?
  {
    match (ImmediateValue(StripComma(a.src)), ImmediateValue(StripComma(b.src)))
    case (Some(x), Some(y)) =>
      Fuse(Folded(a.op, if IsAdd(b.code) then x + y else x - y, StripComma(a.dst)))
    case _ => Throw
  }

  /** Of two adjacent moves with textually equal destinations the first is
      erased; nothing checks whether the second reads the first. */
  function DeadMove(a: Instr, b: Instr): (r: Action)
    ensures r == Skip || r == Drop
  {
    if IsMov(a.code) && IsMov(b.code) && StripComma(a.dst) == StripComma(b.dst) then Drop else Skip
  }

  /** `src == "$c"` for a single character `c`. */
  predicate IsSmallImmediate(src: string, c: char) {
    |src| == 2 && src[0] == '$' && src[1] == c
  }

  lemma SmallImmediateText(src: string, c: char)
    ensures IsSmallImmediate(src, c) <==> src == "$" + [c]
  {
  }

  /** `add $1, D` becomes `inc D`, `sub $1, D` becomes `dec D` and
      `imul $2, D` becomes `shl $1, D`, in place. */
  function StrengthReduction(a: Instr): (r: Action)
    ensures r == Skip || r.ReplaceFirst?
  {
    var src := StripComma(a.src);
    if ((IsAdd(a.code) || IsSub(a.code)) && IsSmallImmediate(src, '1')) || (IsMul(a.code) && IsSmallImmediate(src, '2'))
    then ReplaceFirst(ReducedLine(a.code, a.dst))
    else Skip
  }

  /** The line strength reduction writes for an `add`, `sub` or `imul`
      into `d`. */
  function ReducedLine(code: Opcode, d: string): string {
    match code
    case ADDQ => " incq " + d
    case ADDL => " incl " + d
    case SUBQ => " decq " + d
    case SUBL => " decl " + d
    case IMULQ => " shlq $1, " + d
    case _ => " shll $1, " + d
  }

  /** After `mov $0, D`, the comparison `cmp $0, D` becomes `test D, D`;
      the move is kept. */
  function ZeroComparison(a: Instr, b: Instr): (r: Action)
    ensures r == Skip || r.ReplaceSecond?
  {
    var d := StripComma(a.dst);
    if IsMovQL(a.code) && IsSmallImmediate(StripComma(a.src), '0') && (b.code == CMPQ || b.code == CMPL)
       && IsSmallImmediate(StripComma(b.src), '0') && d == StripComma(b.dst)
    then ReplaceSecond(TestLine(b.code, d))
    else Skip
  }

  /** `" testq D, D"` for `cmpq`, `" testl D, D"` for `cmpl`. */
  function TestLine(code: Opcode, d: string): string {
    " " + (if code == CMPQ then "testq" else "testl") + " " + d + ", " + d
  }

  /** The first rule that applies, in the source's order; the rules that
      look at two lines do not apply at the last line. */
  function Decide(a: Instr, b: Option<Instr>): (r: Action)
    ensures b.None? ==> r == Skip || r == Drop || r.ReplaceFirst?
  {
    var r1 := RedundantMove(a);
    if r1 != Skip then r1 else
    var r2 := if b.Some? then CombineConstants(a, b.value) else Skip;
    if r2 != Skip then r2 else
    var r3 := if b.Some? then DeadMove(a, b.value) else Skip;
    if r3 != Skip then r3 else
    var r4 := StrengthReduction(a);
    if r4 != Skip then r4 else
    if b.Some? then ZeroComparison(a, b.value) else Skip
  }

  /** What one rule does at one position: nothing, a rewrite of the list,
      or an exception. */
  datatype Outcome = NoMatch | Rewritten(code: seq<string>) | Threw

  /** The list surgery an action stands for. */
  function Perform(ins: seq<string>, i: nat, act: Action): (r: Outcome)
    requires i < |ins|
    requires (act.Fuse? || act.ReplaceSecond?) ==> i + 1 < |ins|
    ensures r.Rewritten? ==> |ins| - 1 <= |r.code| <= |ins|
    ensures r.Rewritten? && act.Drop? ==> r.code == Erase(ins, i)
    ensures r.Rewritten? && act.Fuse? ==>
              |r.code| == |ins| - 1 && r.code[i] == act.line && r.code[..i] == ins[..i] && r.code[i + 1..] == ins[i + 2..]
  {
    match act
    case Skip => NoMatch
    case Throw => Threw
    case Drop => Rewritten(Erase(ins, i))
    case Fuse(l) =>
      var code := ins[..i] + [l] + ins[i + 2..];
      assert code[i + 1..] == ins[i + 2..];
      Rewritten(code)
    case ReplaceFirst(l) => Rewritten(ins[i := l])
    case ReplaceSecond(l) => Rewritten(ins[i + 1 := l])
  }

  /** The lines at `i` and `i + 1` decoded, and what the rules make of them. */
  function ApplyRules(ins: seq<string>, i: nat): (r: Outcome)
    ensures r.Rewritten? ==> i < |ins| && |ins| - 1 <= |r.code| <= |ins|
  {
    if i >= |ins| then NoMatch
    else Perform(ins, i, Decide(Decode(ins[i]), if i + 1 < |ins| then Some(Decode(ins[i + 1])) else None))
  }

  // ---------------------------------------------------------------------
  // Passes

  /** The list after one pass and whether a rule fired in it. */
  datatype Swept = Swept(code: seq<string>, changed: bool)

  /** The rest of a pass from position `i`. After a rule fires the loop
      moves on to `i + 1`, so the line that slid into position `i` is not
      looked at again in this pass. */
  function Sweep(ins: seq<string>, i: nat, changed: bool): (r: Result<Swept>)
    requires i <= |ins| + 1
    ensures r.Ok? ==> |r.value.code| <= |ins|
    ensures r.Ok? && !r.value.changed ==> r.value.code == ins && !changed
    ensures r.Ok? && changed ==> r.value.changed
    ensures r.Err? ==> r.msg == StollError
    decreases |ins| + 1 - i, 1
  {
    if i >= |ins| then Ok(Swept(ins, changed)) else SweepOn(ins, i, changed, ApplyRules(ins, i))
  }

  /** The pass after the rules produced `o` at position `i`. */
  function SweepOn(ins: seq<string>, i: nat, changed: bool, o: Outcome): (r: Result<Swept>)
    requires i < |ins|
    requires o.Rewritten? ==> |ins| - 1 <= |o.code| <= |ins|
    ensures r.Ok? ==> |r.value.code| <= |ins|
    ensures r.Ok? && !r.value.changed ==> o == NoMatch && r.value.code == ins && !changed
    ensures r.Ok? && changed ==> r.value.changed
    ensures r.Err? ==> r.msg == StollError
    decreases |ins| + 1 - i, 0
  {
    match o
    case Threw => Err(StollError)
    case NoMatch => Sweep(ins, i + 1, changed)
    case Rewritten(code) => Sweep(code, i + 1, true)
  }

  /** `what()` of the exception `std::stoll` throws. */
  const StollError := "stoll"

  const MaxPasses: nat := 5

  /** The list after the passes still to run and the number of passes run. */
  datatype Optimized = Optimized(code: seq<string>, passes: nat)

  /** The pass loop from `done` passes with the flag `changed`. */
  function Passes(ins: seq<string>, done: nat, changed: bool): (r: Result<Optimized>)
    requires done <= MaxPasses
    ensures r.Ok? ==> done <= r.value.passes <= MaxPasses && |r.value.code| <= |ins|
    ensures r.Ok? && changed && done < MaxPasses ==> done < r.value.passes
    ensures !changed ==> r == Ok(Optimized(ins, done))
    ensures r.Ok? && changed && r.value.passes < MaxPasses ==>
              Sweep(r.value.code, 0, false) == Ok(Swept(r.value.code, false))
    ensures r.Err? ==> r.msg == StollError
    decreases MaxPasses - done
  {
    if !(changed && done < MaxPasses) then Ok(Optimized(ins, done))
    else
      var p :- Sweep(ins, 0, false);
      Passes(p.code, done + 1, p.changed)
  }

  /** `PeepholeOptimizer::optimize`, with the number of passes it ran. */
  function Optimization(ins: seq<string>): (r: Result<Optimized>)
    ensures r.Ok? ==> 1 <= r.value.passes <= MaxPasses && |r.value.code| <= |ins|
    ensures r.Ok? && r.value.passes < MaxPasses ==>
              Sweep(r.value.code, 0, false) == Ok(Swept(r.value.code, false))
    ensures r.Err? ==> r.msg == StollError
  {
    Passes(ins, 0, true)
  }

  /** `PeepholeOptimizer::optimize`: the result is never longer than the
      input, and when fewer than five passes ran, one more pass would
      change nothing. */
  method Optimize(instructions: seq<string>) returns (r: Result<seq<string>>)
    ensures Optimization(instructions).Ok? <==> r.Ok?
    ensures r.Ok? ==> r.value == Optimization(instructions).value.code
    ensures r.Ok? ==> |r.value| <= |instructions|
    ensures r.Err? ==> r.msg == StollError
  {
    var result := instructions;
    var changed := true;
    var passes := 0;
    while changed && passes < MaxPasses
      invariant passes <= MaxPasses
      invariant Passes(instructions, 0, true) == Passes(result, passes, changed)
      decreases MaxPasses - passes
    {
      passes := passes + 1;
      var p := Pass(result);
      if p.Err? {
        return Err(p.msg);
      }
      result, changed := p.value.code, p.value.changed;
    }
    r := Ok(result);
  }

  /** One pass of the `for` loop in `optimize`: each position in turn, the
      first rule that fires wins and the loop moves on. */
  method Pass(instructions: seq<string>) returns (r: Result<Swept>)
    ensures r == Sweep(instructions, 0, false)
  {
    var result := instructions;
    var changed := false;
    var i := 0;
    while i < |result|
      invariant i <= |result| + 1
      invariant Sweep(instructions, 0, false) == Sweep(result, i, changed)
      decreases |result| + 1 - i
    {
      var o := ApplyRules(result, i);
      if o.Threw? {
        return Err(StollError);
      } else if o.Rewritten? {
        result := o.code;
        changed := true;
      }
      i := i + 1;
    }
    r := Ok(Swept(result, changed));
  }

  // ---------------------------------------------------------------------
  // The rules on the lines the code generator writes

  lemma DecodeLine(op: string, src: string, dst: string)
    requires op != [] && NoSpace(op) && NoSpace(src) && dst != [] && NoSpace(dst)
    ensures Decode(Line(op, src, dst)) == Instr(OpcodeOf(op), op, src + ",", dst)
  {
    assert NoSpace(src + ",");
    WordsOfThree(op, src + ",", dst);
    assert Line(op, src, dst) == " " + op + " " + (src + ",") + " " + dst;
  }

  lemma StripCommaOf(w: string)
    ensures StripComma(w + ",") == w
  {
    assert (w + ",")[..|w|] == w;
  }

  /** The rules at position `i` depend on the list only through the two
      decoded lines there. */
  lemma RulesAt(ins: seq<string>, i: nat, a: Instr, b: Option<Instr>)
    requires i < |ins| && Decode(ins[i]) == a
    requires b == if i + 1 < |ins| then Some(Decode(ins[i + 1])) else None
    ensures ApplyRules(ins, i) == Perform(ins, i, Decide(a, b))
  {
  }

  /** The rules at `i` when the lines there are `l1` and `l2`. */
  lemma PairAt(ins: seq<string>, i: nat, l1: string, l2: string, act: Action)
    requires i + 1 < |ins| && ins[i] == l1 && ins[i + 1] == l2
    requires Decide(Decode(l1), Some(Decode(l2))) == act
    ensures ApplyRules(ins, i) == Perform(ins, i, act)
  {
    RulesAt(ins, i, Decode(l1), Some(Decode(l2)));
  }

  /** The rules at `i` when the line there is `l1`, whatever follows it. */
  lemma SingleAt(ins: seq<string>, i: nat, l1: string, act: Action)
    requires i < |ins| && ins[i] == l1 && !act.Fuse? && !act.ReplaceSecond?
    requires forall b :: Decide(Decode(l1), b) == act
    ensures ApplyRules(ins, i) == Perform(ins, i, act)
  {
    RulesAt(ins, i, Decode(l1), if i + 1 < |ins| then Some(Decode(ins[i + 1])) else None);
  }

  /** A mnemonic the rules recognise is one word. */
  lemma KnownOpcodeWord(op: string)
    requires OpcodeOf(op) != OTHER
    ensures op != [] && NoSpace(op)
  {
  }

  /** `movq X, X` is erased whatever the surrounding lines. */
  lemma RedundantMoveErased(ins: seq<string>, i: nat, op: string, x: string)
    requires i < |ins| && IsMovQL(OpcodeOf(op)) && x != [] && NoSpace(x)
    requires ins[i] == Line(op, x, x)
    ensures ApplyRules(ins, i) == Rewritten(Erase(ins, i))
  {
    forall b ensures Decide(Decode(Line(op, x, x)), b) == Drop {
      KnownOpcodeWord(op);
      DecodeLine(op, x, x);
      StripCommaOf(x);
    }
    SingleAt(ins, i, Line(op, x, x), Drop);
  }

  /** Two moves into the same destination: the first is erased, also when
      the destination is memory or the second move reads the first. */
  lemma DeadMoveErased(ins: seq<string>, i: nat, op1: string, s1: string, op2: string, s2: string, d: string)
    requires i + 1 < |ins| && IsMov(OpcodeOf(op1)) && IsMov(OpcodeOf(op2))
    requires NoSpace(s1) && NoSpace(s2) && d != [] && NoSpace(d) && s1 != d
    requires ins[i] == Line(op1, s1, d) && ins[i + 1] == Line(op2, s2, d)
    ensures ApplyRules(ins, i) == Rewritten(Erase(ins, i))
  {
    DeadMoveLines(op1, s1, op2, s2, d);
    PairAt(ins, i, Line(op1, s1, d), Line(op2, s2, d), Drop);
  }

  lemma DeadMoveLines(op1: string, s1: string, op2: string, s2: string, d: string)
    requires IsMov(OpcodeOf(op1)) && IsMov(OpcodeOf(op2))
    requires NoSpace(s1) && NoSpace(s2) && d != [] && NoSpace(d) && s1 != d
    ensures Decide(Decode(Line(op1, s1, d)), Some(Decode(Line(op2, s2, d)))) == Drop
  {
    KnownOpcodeWord(op1);
    KnownOpcodeWord(op2);
    DecodeLine(op1, s1, d);
    DecodeLine(op2, s2, d);
    DeadMoveDecided(Instr(OpcodeOf(op1), op1, s1 + ",", d), Instr(OpcodeOf(op2), op2, s2 + ",", d), s1);
  }

  lemma DeadMoveDecided(a: Instr, b: Instr, s1: string)
    requires IsMov(a.code) && IsMov(b.code) && a.src == s1 + "," && a.dst != [] && a.dst == b.dst && s1 != a.dst
    ensures Decide(a, Some(b)) == Drop
  {
    StripCommaOf(s1);
  }

  /** The folded line `mov $n, D`. */
  function Folded(op: string, n: int, d: string): (r: string)
    ensures r == Line(op, "$" + IntToString(n), d)
    ensures op != [] && NoSpace(op) && d != [] && NoSpace(d) ==>
              Decode(r) == Instr(OpcodeOf(op), op, "$" + IntToString(n) + ",", d)
  {
    var r := Line(op, "$" + IntToString(n), d);
    if op != [] && NoSpace(op) && d != [] && NoSpace(d) then
      ImmediateNoSpace(n);
      DecodeLine(op, "$" + IntToString(n), d);
      r
    else r
  }

  /** `mov $x, D; add $y, D` folds to `mov $(x+y), D`, and with `sub`
      to `mov $(x-y), D`. */
  lemma ConstantsCombined(ins: seq<string>, i: nat, op1: string, x: int, op2: string, y: int, d: string)
    requires i + 1 < |ins| && IsMovQL(OpcodeOf(op1)) && (IsAdd(OpcodeOf(op2)) || IsSub(OpcodeOf(op2)))
    requires LLONG_MIN <= x <= LLONG_MAX && LLONG_MIN <= y <= LLONG_MAX
    requires d != [] && NoSpace(d) && d[0] != '$' && !EndsWith(d, ',')
    requires ins[i] == Line(op1, "$" + IntToString(x), d)
    requires ins[i + 1] == Line(op2, "$" + IntToString(y), d)
    ensures ApplyRules(ins, i) ==
      Rewritten(ins[..i] + [Folded(op1, if IsAdd(OpcodeOf(op2)) then x + y else x - y, d)] + ins[i + 2..])
  {
    var f := Folded(op1, if IsAdd(OpcodeOf(op2)) then x + y else x - y, d);
    ConstantsLines(op1, x, op2, y, d);
    PairAt(ins, i, Line(op1, "$" + IntToString(x), d), Line(op2, "$" + IntToString(y), d), Fuse(f));
  }

  lemma ConstantsLines(op1: string, x: int, op2: string, y: int, d: string)
    requires IsMovQL(OpcodeOf(op1)) && (IsAdd(OpcodeOf(op2)) || IsSub(OpcodeOf(op2)))
    requires LLONG_MIN <= x <= LLONG_MAX && LLONG_MIN <= y <= LLONG_MAX
    requires d != [] && NoSpace(d) && d[0] != '$' && !EndsWith(d, ',')
    ensures Decide(Decode(Line(op1, "$" + IntToString(x), d)), Some(Decode(Line(op2, "$" + IntToString(y), d))))
            == Fuse(Folded(op1, if IsAdd(OpcodeOf(op2)) then x + y else x - y, d))
  {
    var sx := "$" + IntToString(x);
    var sy := "$" + IntToString(y);
    KnownOpcodeWord(op1);
    KnownOpcodeWord(op2);
    ImmediateNoSpace(x);
    ImmediateNoSpace(y);
    DecodeLine(op1, sx, d);
    DecodeLine(op2, sy, d);
    ConstantsDecided(Instr(OpcodeOf(op1), op1, sx + ",", d), Instr(OpcodeOf(op2), op2, sy + ",", d), x, y);
  }

  lemma ConstantsDecided(a: Instr, b: Instr, x: int, y: int)
    requires IsMovQL(a.code) && (IsAdd(b.code) || IsSub(b.code))
    requires LLONG_MIN <= x <= LLONG_MAX && LLONG_MIN <= y <= LLONG_MAX
    requires a.src == "$" + IntToString(x) + "," && b.src == "$" + IntToString(y) + ","
    requires a.dst != [] && a.dst[0] != '$' && !EndsWith(a.dst, ',') && b.dst == a.dst
    ensures Decide(a, Some(b)) == Fuse(Folded(a.op, if IsAdd(b.code) then x + y else x - y, a.dst))
  {
    ImmediateOperand(a.src, x);
    ImmediateOperand(b.src, y);
    assert StripComma(a.dst) == a.dst;
    ConstantsFolded(a, b, x, y);
    assert RedundantMove(a) == Skip by {
      assert StripComma(a.src)[0] == '$';
    }
  }

  lemma ConstantsFolded(a: Instr, b: Instr, x: int, y: int)
    requires IsMovQL(a.code) && (IsAdd(b.code) || IsSub(b.code))
    requires IsImmediate(a.src) && ImmediateValue(StripComma(a.src)) == Some(x)
    requires IsImmediate(b.src) && ImmediateValue(StripComma(b.src)) == Some(y)
    requires StripComma(a.dst) == a.dst && b.dst == a.dst
    ensures CombineConstants(a, b) == Fuse(Folded(a.op, if IsAdd(b.code) then x + y else x - y, a.dst))
  {
  }

  /** The source operand `$n,` is an immediate whose value is `n`. */
  lemma ImmediateOperand(w: string, n: int)
    requires LLONG_MIN <= n <= LLONG_MAX && w == "$" + IntToString(n) + ","
    ensures IsImmediate(w) && IsImmediate(StripComma(w)) && ImmediateValue(StripComma(w)) == Some(n)
  {
    StripCommaOf("$" + IntToString(n));
    ImmediateOf(n);
  }

  lemma ImmediateNoSpace(n: int)
    ensures NoSpace("$" + IntToString(n))
  {
    IntToStringNoSpace(n);
  }

  /** `$n` is an immediate whose value is `n`. */
  lemma ImmediateOf(n: int)
    requires LLONG_MIN <= n <= LLONG_MAX
    ensures ImmediateValue("$" + IntToString(n)) == Some(n)
  {
    IntToStringParses(n, []);
    assert IntToString(n) + [] == IntToString(n);
    assert ("$" + IntToString(n))[1..] == IntToString(n);
  }

  lemma IntToStringNoSpace(n: int)
    ensures NoSpace(IntToString(n))
  {
    var s := IntToString(n);
    NatToStringDigits(if n < 0 then -n else n);
    forall k | 0 <= k < |s| ensures !IsSpace(s[k]) {
      if n < 0 && k > 0 {
        assert s[k] == NatToString(-n)[k - 1];
      }
    }
  }

  /** `add $1, D`, `sub $1, D` and `imul $2, D` are strength-reduced in
      place: `addq $1, %rax` becomes `incq %rax` and `imulq $2, %rax`
      becomes `shlq $1, %rax`. */
  lemma StrengthReduced(ins: seq<string>, i: nat, op: string, d: string)
    requires i < |ins| && d != [] && NoSpace(d)
    requires IsArithmetic(OpcodeOf(op))
    requires ins[i] == Line(op, if IsMul(OpcodeOf(op)) then "$2" else "$1", d)
    ensures ApplyRules(ins, i) == Rewritten(ins[i := ReducedLine(OpcodeOf(op), d)])
  {
    var c := if IsMul(OpcodeOf(op)) then "$2" else "$1";
    var act := ReplaceFirst(ReducedLine(OpcodeOf(op), d));
    forall b ensures Decide(Decode(Line(op, c, d)), b) == act {
      KnownOpcodeWord(op);
      DecodeLine(op, c, d);
      ReductionDecided(Instr(OpcodeOf(op), op, c + ",", d), b, c);
    }
    SingleAt(ins, i, Line(op, c, d), act);
  }

  lemma ReductionDecided(a: Instr, b: Option<Instr>, c: string)
    requires IsArithmetic(a.code) && c == (if IsMul(a.code) then "$2" else "$1") && a.src == c + ","
    ensures Decide(a, b) == ReplaceFirst(ReducedLine(a.code, a.dst))
  {
    assert StripComma(a.src) == c by {
      StripCommaOf(c);
    }
    assert StrengthReduction(a) == ReplaceFirst(ReducedLine(a.code, a.dst));
    NotMoveSkips(a, b);
  }

  /** The rules that start with a move do not apply to another line. */
  lemma NotMoveSkips(a: Instr, b: Option<Instr>)
    requires !IsMov(a.code)
    ensures RedundantMove(a) == Skip
    ensures b.Some? ==> CombineConstants(a, b.value) == Skip && DeadMove(a, b.value) == Skip
  {
  }

  /** `mov $0, D; cmp $0, D` keeps the move and turns the comparison into
      `test D, D`. */
  lemma ZeroComparisonTested(ins: seq<string>, i: nat, op1: string, op2: string, d: string)
    requires i + 1 < |ins| && IsMovQL(OpcodeOf(op1)) && (OpcodeOf(op2) == CMPQ || OpcodeOf(op2) == CMPL)
    requires d != [] && NoSpace(d) && d != "$0" && !EndsWith(d, ',')
    requires ins[i] == Line(op1, "$0", d) && ins[i + 1] == Line(op2, "$0", d)
    ensures ApplyRules(ins, i) == Rewritten(ins[i + 1 := TestLine(OpcodeOf(op2), d)])
  {
    ZeroLines(op1, op2, d);
    PairAt(ins, i, Line(op1, "$0", d), Line(op2, "$0", d), ReplaceSecond(TestLine(OpcodeOf(op2), d)));
  }

  lemma ZeroLines(op1: string, op2: string, d: string)
    requires IsMovQL(OpcodeOf(op1)) && (OpcodeOf(op2) == CMPQ || OpcodeOf(op2) == CMPL)
    requires d != [] && NoSpace(d) && d != "$0" && !EndsWith(d, ',')
    ensures Decide(Decode(Line(op1, "$0", d)), Some(Decode(Line(op2, "$0", d))))
            == ReplaceSecond(TestLine(OpcodeOf(op2), d))
  {
    var a := Instr(OpcodeOf(op1), op1, "$0,", d);
    var b := Instr(OpcodeOf(op2), op2, "$0,", d);
    assert Decode(Line(op1, "$0", d)) == a by {
      KnownOpcodeWord(op1);
      DecodeLine(op1, "$0", d);
    }
    assert Decode(Line(op2, "$0", d)) == b by {
      KnownOpcodeWord(op2);
      DecodeLine(op2, "$0", d);
    }
    ZeroDecided(a, b);
  }

  lemma ZeroDecided(a: Instr, b: Instr)
    requires IsMovQL(a.code) && (b.code == CMPQ || b.code == CMPL)
    requires a.src == "$0," && b.src == "$0," && a.dst != [] && a.dst != "$0" && !EndsWith(a.dst, ',') && b.dst == a.dst
    ensures Decide(a, Some(b)) == ReplaceSecond(TestLine(b.code, a.dst))
  {
    StripCommaOf("$0");
    assert RedundantMove(a) == Skip;
    assert DeadMove(a, b) == Skip;
  }

  /** A list no rule touches is returned unchanged after a single pass. */
  lemma {:induction false} QuietSweep(ins: seq<string>, i: nat)
    requires i <= |ins| + 1
    requires forall k :: i <= k < |ins| ==> ApplyRules(ins, k) == NoMatch
    ensures Sweep(ins, i, false) == Ok(Swept(ins, false))
    decreases |ins| + 1 - i
  {
    if i < |ins| {
      QuietSweep(ins, i + 1);
    }
  }

  lemma QuietListKept(ins: seq<string>)
    requires forall k :: 0 <= k < |ins| ==> ApplyRules(ins, k) == NoMatch
    ensures Optimization(ins) == Ok(Optimized(ins, 1))
  {
    QuietSweep(ins, 0);
  }
}
