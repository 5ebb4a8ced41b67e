/** Splitting an instruction list into basic blocks: a label line opens a
    block, a jump, call or return closes one, and empty lines are dropped. */
module BasicBlocks {
  import opened Text

  /** `BasicBlock`: its lines, the label line that opened it (or empty),
      and two flags that the analyzer never sets. */
  datatype BasicBlock = BasicBlock(instructions: seq<string>, labelName: string, isEntry: bool, isExit: bool)

  /** A default-constructed `BasicBlock`. */
  const Fresh := BasicBlock([], "", false, false)

  /** `isLabel` on a trimmed line. */
  predicate IsLabel(t: string) { EndsWith(t, ':') }

  /** `isBranch`: the first word is a jump or a call. */
  predicate IsBranch(t: string) { IsBranchWord(Word(t, 0)) }

  /** `isReturn`: the first word is `ret` or `leave`. */
  predicate IsReturn(t: string) { IsReturnWord(Word(t, 0)) }

  /** `jmp`, `je`, `jne`, `jl`, `jg`, `jle`, `jge` or `call`, compared letter
      by letter (`BranchWords` states the comparison with the strings). */
  predicate IsBranchWord(w: string) {
    || (|w| == 2 && w[0] == 'j' && (w[1] == 'e' || w[1] == 'l' || w[1] == 'g'))
    || (|w| == 3 && w[0] == 'j' && ((w[1] == 'm' && w[2] == 'p') || (w[1] == 'n' && w[2] == 'e')
                                    || ((w[1] == 'l' || w[1] == 'g') && w[2] == 'e')))
    || (|w| == 4 && w[0] == 'c' && w[1] == 'a' && w[2] == 'l' && w[3] == 'l')
  }

  predicate IsReturnWord(w: string) {
    || (|w| == 3 && w[0] == 'r' && w[1] == 'e' && w[2] == 't')
    || (|w| == 5 && w[0] == 'l' && w[1] == 'e' && w[2] == 'a' && w[3] == 'v' && w[4] == 'e')
  }

  lemma BranchWords(w: string)
    ensures IsBranchWord(w) <==>
      w == "jmp" || w == "je" || w == "jne" || w == "jl" || w == "jg" || w == "jle" || w == "jge" || w == "call"
    ensures IsReturnWord(w) <==> w == "ret" || w == "leave"
  {
  }

  predicate Closes(t: string) { IsBranch(t) || IsReturn(t) }

  /** A line after which the analyzer closes the current block: a jump,
      call or return that is not a label. */
  predicate Closer(t: string) { !IsLabel(t) && Closes(t) }

  /** The blocks the loop of `identifyBasicBlocks` still produces from
      `lines`, with `cur` the block under construction. */
  function Segment(lines: seq<string>, cur: BasicBlock): (bs: seq<BasicBlock>)
    ensures forall j :: 0 <= j < |bs| ==> bs[j].instructions != []
    ensures |bs| <= |lines| + (if cur.instructions != [] then 1 else 0)
    decreases |lines|
  {
    if lines == [] then (if cur.instructions != [] then [cur] else [])
    else
      var instr := lines[0];
      var t := TrimLeft(instr);
      if t == [] then Segment(lines[1..], cur)
      else if IsLabel(t) then
        var start := if cur.instructions != [] then Fresh else cur;
        (if cur.instructions != [] then [cur] else [])
          + Segment(lines[1..], start.(labelName := t, instructions := start.instructions + [instr]))
      else
        var c := cur.(instructions := cur.instructions + [instr]);
        if Closes(t) then [c] + Segment(lines[1..], Fresh) else Segment(lines[1..], c)
  }

  /** `BasicBlockAnalyzer::identifyBasicBlocks`. */
  function Blocks(all: seq<string>): (bs: seq<BasicBlock>)
    ensures forall j :: 0 <= j < |bs| ==> WellFormed(bs[j])
    ensures Flatten(bs) == NonEmpty(all)
  {
    SegmentShape(all, Fresh);
    Segment(all, Fresh)
  }

  method IdentifyBasicBlocks(allInstructions: seq<string>) returns (blocks: seq<BasicBlock>)
    ensures blocks == Blocks(allInstructions)
  {
    blocks := [];
    var cur := Fresh;
    var k := 0;
    while k < |allInstructions|
      invariant k <= |allInstructions|
      invariant blocks + Segment(allInstructions[k..], cur) == Blocks(allInstructions)
    {
      var instr := allInstructions[k];
      var trimmed := TrimLeft(instr);
      ghost var before, cur0 := blocks, cur;
      if trimmed == [] {
      } else if IsLabel(trimmed) {
        if cur.instructions != [] {
          blocks := blocks + [cur];
          cur := Fresh;
        }
        cur := cur.(labelName := trimmed, instructions := cur.instructions + [instr]);
      } else {
        cur := cur.(instructions := cur.instructions + [instr]);
        if Closes(trimmed) {
          blocks := blocks + [cur];
          cur := Fresh;
        }
      }
      ghost var step := Advance(cur0, instr);
      assert blocks == before + step.0 && cur == step.1;
      SegmentAdvance(allInstructions[k..], cur0);
      assert allInstructions[k..][1..] == allInstructions[k + 1..];
      AppendAssoc(before, step.0, Segment(allInstructions[k + 1..], cur));
      k := k + 1;
    }
    if cur.instructions != [] {
      blocks := blocks + [cur];
    }
  }

  /** What one line adds to the finished blocks, and the block under
      construction after it. */
  function Advance(cur: BasicBlock, instr: string): (seq<BasicBlock>, BasicBlock) {
    var t := TrimLeft(instr);
    if t == [] then ([], cur)
    else if IsLabel(t) then
      var start := if cur.instructions != [] then Fresh else cur;
      (if cur.instructions != [] then [cur] else [],
       start.(labelName := t, instructions := start.instructions + [instr]))
    else
      var c := cur.(instructions := cur.instructions + [instr]);
      if Closes(t) then ([c], Fresh) else ([], c)
  }

  lemma SegmentAdvance(lines: seq<string>, cur: BasicBlock)
    requires lines != []
    ensures var step := Advance(cur, lines[0]);
      Segment(lines, cur) == step.0 + Segment(lines[1..], step.1)
  {
  }

  // ---------------------------------------------------------------------
  // What a block looks like

  function Flatten(bs: seq<BasicBlock>): seq<string> {
    if bs == [] then [] else bs[0].instructions + Flatten(bs[1..])
  }

  function Last(b: BasicBlock): string
    requires b.instructions != []
  {
    b.instructions[|b.instructions| - 1]
  }

  /** A label line can only be the first line of its block. */
  predicate LabelFirst(b: BasicBlock) {
    forall k :: 0 < k < |b.instructions| ==> !IsLabel(TrimLeft(b.instructions[k]))
  }

  /** A jump, call or return can only be the last line of its block. */
  predicate CloserLast(b: BasicBlock) {
    forall k :: 0 <= k < |b.instructions| - 1 ==> !Closer(TrimLeft(b.instructions[k]))
  }

  /** The `label` field (`labelName`, `label` being a Dafny keyword) is the first line, trimmed, when that is a label. */
  predicate Labelled(b: BasicBlock)
    requires b.instructions != []
  {
    var t := TrimLeft(b.instructions[0]);
    b.labelName == if IsLabel(t) then t else ""
  }

  predicate NoEmptyLine(b: BasicBlock) {
    forall k :: 0 <= k < |b.instructions| ==> b.instructions[k] != []
  }

  predicate WellFormed(b: BasicBlock) {
    && b.instructions != []
    && NoEmptyLine(b) && LabelFirst(b) && CloserLast(b) && Labelled(b)
    && !b.isEntry && !b.isExit
  }

  /** The block under construction: fresh, or well formed and not yet
      closed by its last line. */
  predicate Open(cur: BasicBlock) {
    cur == Fresh || (WellFormed(cur) && !Closer(TrimLeft(Last(cur))))
  }

  /** Block `a` may end before block `b`: its last line closes it, or `b`
      starts with a label. */
  predicate Joined(a: BasicBlock, b: BasicBlock)
    requires a.instructions != [] && b.instructions != []
  {
    Closer(TrimLeft(Last(a))) || IsLabel(TrimLeft(b.instructions[0]))
  }

  /** Each block ends where it must: every two neighbours are `Joined`. */
  predicate Maximal(bs: seq<BasicBlock>)
    requires forall j :: 0 <= j < |bs| ==> bs[j].instructions != []
  {
    |bs| <= 1 || (Joined(bs[0], bs[1]) && Maximal(bs[1..]))
  }

  /** The shape of what `Segment` produces: well-formed, maximal blocks
      whose lines, in order, are the input's non-empty lines. */
  predicate Shaped(bs: seq<BasicBlock>, cur: BasicBlock, lines: seq<string>) {
    && (forall j :: 0 <= j < |bs| ==> WellFormed(bs[j]))
    && Flatten(bs) == cur.instructions + NonEmpty(lines)
    && Maximal(bs)
    && (cur.instructions != [] ==> |bs| > 0 && cur.instructions <= bs[0].instructions)
  }

  lemma {:induction false} SegmentShape(lines: seq<string>, cur: BasicBlock)
    requires Open(cur)
    ensures Shaped(Segment(lines, cur), cur, lines)
    decreases |lines|
  {
    if lines == [] {
      assert NonEmpty(lines) == [];
    } else {
      var instr := lines[0];
      var t := TrimLeft(instr);
      var rest := lines[1..];
      if t == [] {
        SegmentShape(rest, cur);
        SkipEmpty(lines, cur);
      } else if IsLabel(t) {
        var next := BasicBlock([instr], t, false, false);
        SegmentShape(rest, next);
        LabelStep(lines, cur);
      } else if Closes(t) {
        SegmentShape(rest, Fresh);
        CloseStep(lines, cur);
      } else {
        var c := cur.(instructions := cur.instructions + [instr]);
        ExtendOpen(cur, instr, t);
        SegmentShape(rest, c);
        ExtendStep(lines, cur);
      }
    }
  }

  /** `identifyBasicBlocks` on a whole list: the blocks are well formed and
      maximal, and concatenated they give back every non-empty line in
      order. */
  lemma BlocksShape(all: seq<string>)
    ensures Shaped(Blocks(all), Fresh, all)
    ensures Flatten(Blocks(all)) == NonEmpty(all)
  {
    SegmentShape(all, Fresh);
  }

  lemma SkipEmpty(lines: seq<string>, cur: BasicBlock)
    requires lines != [] && TrimLeft(lines[0]) == []
    requires Shaped(Segment(lines[1..], cur), cur, lines[1..])
    ensures Shaped(Segment(lines, cur), cur, lines)
  {
    assert lines[0] == [];
    assert NonEmpty(lines) == NonEmpty(lines[1..]);
  }

  lemma LabelStep(lines: seq<string>, cur: BasicBlock)
    requires lines != [] && Open(cur)
    requires var t := TrimLeft(lines[0]); t != [] && IsLabel(t)
    requires var next := BasicBlock([lines[0]], TrimLeft(lines[0]), false, false);
      Shaped(Segment(lines[1..], next), next, lines[1..])
    ensures Shaped(Segment(lines, cur), cur, lines)
  {
    var instr := lines[0];
    var next := BasicBlock([instr], TrimLeft(instr), false, false);
    assert NonEmpty(lines) == [instr] + NonEmpty(lines[1..]);
    if cur.instructions != [] {
      LabelFlushes(lines, cur, next);
    } else {
      assert cur.(labelName := TrimLeft(instr), instructions := cur.instructions + [instr]) == next;
      assert Segment(lines, cur) == Segment(lines[1..], next);
    }
  }

  /** A label after a non-empty block closes that block. */
  lemma LabelFlushes(lines: seq<string>, cur: BasicBlock, next: BasicBlock)
    requires lines != [] && Open(cur) && cur.instructions != []
    requires var t := TrimLeft(lines[0]); t != [] && IsLabel(t)
    requires next == BasicBlock([lines[0]], TrimLeft(lines[0]), false, false)
    requires Shaped(Segment(lines[1..], next), next, lines[1..])
    requires NonEmpty(lines) == [lines[0]] + NonEmpty(lines[1..])
    ensures Shaped(Segment(lines, cur), cur, lines)
  {
    var tail := Segment(lines[1..], next);
    assert Fresh.(labelName := TrimLeft(lines[0]), instructions := Fresh.instructions + [lines[0]]) == next;
    assert Segment(lines, cur) == [cur] + tail;
    FlattenCons(cur, tail);
    MaximalCons(cur, tail);
  }

  lemma CloseStep(lines: seq<string>, cur: BasicBlock)
    requires lines != [] && Open(cur)
    requires var t := TrimLeft(lines[0]); t != [] && !IsLabel(t) && Closes(t)
    requires Shaped(Segment(lines[1..], Fresh), Fresh, lines[1..])
    ensures Shaped(Segment(lines, cur), cur, lines)
  {
    var instr := lines[0];
    var t := TrimLeft(instr);
    var c := cur.(instructions := cur.instructions + [instr]);
    ExtendOpen(cur, instr, t);
    var tail := Segment(lines[1..], Fresh);
    assert Segment(lines, cur) == [c] + tail;
    assert Flatten([c] + tail) == cur.instructions + NonEmpty(lines) by {
      assert NonEmpty(lines) == [instr] + NonEmpty(lines[1..]);
      assert Flatten(tail) == NonEmpty(lines[1..]) by {
        assert Fresh.instructions + NonEmpty(lines[1..]) == NonEmpty(lines[1..]);
      }
      FlattenCons(c, tail);
      AppendAssoc(cur.instructions, [instr], NonEmpty(lines[1..]));
    }
    AllWellFormedCons(c, tail);
    MaximalCons(c, tail);
  }

  lemma AllWellFormedCons(b: BasicBlock, tail: seq<BasicBlock>)
    requires WellFormed(b) && forall j :: 0 <= j < |tail| ==> WellFormed(tail[j])
    ensures forall j :: 0 <= j < |[b] + tail| ==> WellFormed(([b] + tail)[j])
  {
  }

  lemma ExtendStep(lines: seq<string>, cur: BasicBlock)
    requires lines != []
    requires var t := TrimLeft(lines[0]); t != [] && !IsLabel(t) && !Closes(t)
    requires var c := cur.(instructions := cur.instructions + [lines[0]]);
      Shaped(Segment(lines[1..], c), c, lines[1..])
    ensures Shaped(Segment(lines, cur), cur, lines)
  {
    var instr := lines[0];
    var c := cur.(instructions := cur.instructions + [instr]);
    var bs := Segment(lines[1..], c);
    SegmentAdvance(lines, cur);
    assert Advance(cur, instr) == ([], c);
    assert Segment(lines, cur) == bs;
    assert Flatten(bs) == cur.instructions + NonEmpty(lines) by {
      assert NonEmpty(lines) == [instr] + NonEmpty(lines[1..]);
      AppendAssoc(cur.instructions, [instr], NonEmpty(lines[1..]));
    }
    PrefixTrans(cur.instructions, c.instructions, bs[0].instructions);
  }

  lemma PrefixTrans<X>(a: seq<X>, b: seq<X>, c: seq<X>)
    requires a <= b && b <= c
    ensures a <= c
  {
    assert c[..|a|] == c[..|b|][..|a|];
  }

  lemma AppendAssoc<X>(a: seq<X>, b: seq<X>, c: seq<X>)
    ensures a + b + c == a + (b + c)
  {
  }

  lemma OpenLabel(next: BasicBlock, instr: string, t: string)
    requires next == BasicBlock([instr], t, false, false) && t == TrimLeft(instr) && t != [] && IsLabel(t)
    ensures Open(next)
  {
  }

  lemma ExtendOpen(cur: BasicBlock, instr: string, t: string)
    requires Open(cur) && t == TrimLeft(instr) && t != [] && !IsLabel(t)
    ensures var c := cur.(instructions := cur.instructions + [instr]);
      WellFormed(c) && (!Closer(t) ==> Open(c)) && Last(c) == instr
  {
    var c := cur.(instructions := cur.instructions + [instr]);
    var n := |cur.instructions|;
    assert c.instructions[n] == instr;
    assert forall k :: 0 <= k < n ==> c.instructions[k] == cur.instructions[k];
    assert NoEmptyLine(c);
    assert LabelFirst(c) by {
      forall k | 0 < k < |c.instructions|
        ensures !IsLabel(TrimLeft(c.instructions[k]))
      {
        if k < n {
          assert !IsLabel(TrimLeft(cur.instructions[k]));
        }
      }
    }
    assert CloserLast(c) by {
      forall k | 0 <= k < |c.instructions| - 1
        ensures !Closer(TrimLeft(c.instructions[k]))
      {
        if k < n - 1 {
          assert !Closer(TrimLeft(cur.instructions[k]));
        } else {
          assert c.instructions[k] == Last(cur);
        }
      }
    }
    assert Labelled(c);
  }

  lemma FlattenCons(b: BasicBlock, tail: seq<BasicBlock>)
    ensures Flatten([b] + tail) == b.instructions + Flatten(tail)
  {
    assert ([b] + tail)[1..] == tail;
  }

  lemma MaximalCons(b: BasicBlock, tail: seq<BasicBlock>)
    requires b.instructions != [] && forall j :: 0 <= j < |tail| ==> tail[j].instructions != []
    requires Maximal(tail)
    requires tail != [] ==> Joined(b, tail[0])
    ensures forall j :: 0 <= j < |[b] + tail| ==> ([b] + tail)[j].instructions != []
    ensures Maximal([b] + tail)
  {
    assert ([b] + tail)[1..] == tail;
  }
}
