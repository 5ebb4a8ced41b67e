/** The optimizer driver: the peephole pass over the whole list, then
    value numbering over each run of plain instructions inside each basic
    block, with instruction counts kept in `Stats`. */
module CodeOptimization {
  import opened Wrappers
  import opened Text
  import Peephole
  import BasicBlocks
  import Dag

  /** `CodeOptimizer::Stats`. */
  datatype Stats = Stats(originalInstructions: int, optimizedInstructions: int,
                         dagReductions: int, peepholeReductions: int)

  const ZeroStats := Stats(0, 0, 0, 0)

  /** A line the value numbering never touches: empty after trimming, a
      directive, a label, or one starting with one of `BarrierWords`. */
  predicate IsBarrier(instr: string) {
    var t := TrimLeft(instr);
    t == [] || t[0] == '.' || t[|t| - 1] == ':' || StartsWithAny(t, BarrierWords)
  }

  const BarrierWords: seq<string> :=
    ["pushq", "popq", "call", "cmpq", "testq", "j", "leave", "ret", "leaq"]

  predicate StartsWithAny(t: string, words: seq<string>)
    decreases |words|
  {
    words != [] && (StartsWith(t, words[0]) || StartsWithAny(t, words[1..]))
  }

  /** `dagOpt.clear(); dagOpt.buildDAG(run); dagOpt.generateOptimizedCode()`. */
  function DagRun(run: seq<string>): (r: seq<string>)
    ensures PlainRun(run) ==> NoBarrierIn(r)
  {
    Dag.EmptyInv();
    Dag.BuildInv(Dag.Empty, run);
    var r := Dag.Generate(Dag.Build(Dag.Empty, run).nodes);
    assert PlainRun(run) ==> NoBarrierIn(r) by {
      if PlainRun(run) {
        DagRunPlain(run);
      }
    }
    r
  }

  predicate NoBarrierIn(lines: seq<string>) {
    forall k :: 0 <= k < |lines| ==> !IsBarrier(lines[k])
  }

  /** What a run of plain lines becomes: its value-numbered form when that
      is non-empty and strictly shorter, otherwise the run itself. */
  function Replace(run: seq<string>): (r: seq<string>)
    ensures |r| <= |run|
    ensures r == run || (r == DagRun(run) && r != [] && |r| < |run|)
  {
    var optimized := DagRun(run);
    if optimized != [] && |optimized| < |run| then optimized else run
  }

  /** The output so far and the running `dagReductions`. */
  datatype Acc = Acc(out: seq<string>, saved: int)

  /** A pending run is replaced and counted; an empty one adds nothing. */
  function Flush(acc: Acc, run: seq<string>): Acc {
    if run == [] then acc
    else
      var r := Replace(run);
      Acc(acc.out + r, acc.saved + (|run| - |r|))
  }

  /** The inner loop of `optimizeCode` over the lines of one block, with
      `run` the plain lines gathered since the last barrier. */
  function BlockPass(lines: seq<string>, run: seq<string>, acc: Acc): (a: Acc)
    ensures |a.out| + a.saved == |acc.out| + acc.saved + |run| + |lines|
    ensures |a.out| <= |acc.out| + |run| + |lines|
    decreases |lines|
  {
    if lines == [] then Flush(acc, run)
    else if IsBarrier(lines[0]) then
      var a := Flush(acc, run);
      BlockPass(lines[1..], [], a.(out := a.out + [lines[0]]))
    else BlockPass(lines[1..], run + [lines[0]], acc)
  }

  /** The outer loop over the blocks. */
  function BlocksPass(bs: seq<BasicBlocks.BasicBlock>, acc: Acc): Acc
    decreases |bs|
  {
    if bs == [] then acc else BlocksPass(bs[1..], BlockPass(bs[0].instructions, [], acc))
  }

  /** The value-numbering stage over a whole list, starting from the
      current `dagReductions`. */
  function DagStage(lines: seq<string>, saved: int): (a: Acc)
    ensures |a.out| <= |NonEmpty(lines)| && a.saved - saved == |NonEmpty(lines)| - |a.out|
  {
    BlocksPassCount(BasicBlocks.Blocks(lines), Acc([], saved));
    BlocksPass(BasicBlocks.Blocks(lines), Acc([], saved))
  }

  /** What `optimizeCode` returns (or throws) and the statistics after it.
      `originalInstructions` is set before the peephole pass can throw. */
  datatype Outcome = Outcome(result: Result<seq<string>>, stats: Stats)

  /** The list after the peephole stage, when it is enabled. */
  function Peeped(enablePeephole: bool, code: seq<string>): (r: Result<seq<string>>)
    ensures r.Ok? ==> |r.value| <= |code|
    ensures !enablePeephole ==> r == Ok(code)
  {
    if !enablePeephole then Ok(code)
    else match Peephole.Optimization(code)
      case Ok(o) => Ok(o.code)
      case Err(m) => Err(m)
  }

  function Optimization(enableDag: bool, enablePeephole: bool, stats: Stats, code: seq<string>): (o: Outcome)
    ensures o.stats.originalInstructions == |code|
    ensures o.result.Err? <==> Peeped(enablePeephole, code).Err?
    ensures o.result.Ok? ==>
              var peep := Peeped(enablePeephole, code).value;
              && |o.result.value| <= |peep| <= |code|
              && o.stats.optimizedInstructions == |o.result.value|
              && o.stats.peepholeReductions == (if enablePeephole then |code| - |peep| else stats.peepholeReductions)
              && o.stats.dagReductions - stats.dagReductions == (if enableDag then |NonEmpty(peep)| - |o.result.value| else 0)
  {
    var s1 := stats.(originalInstructions := |code|);
    match Peeped(enablePeephole, code)
    case Err(m) => Outcome(Err(m), s1)
    case Ok(peep) =>
      Finish(enableDag, if enablePeephole then s1.(peepholeReductions := |code| - |peep|) else s1, peep)
  }

  /** The value-numbering stage, when enabled, and the final count. */
  function Finish(enableDag: bool, stats: Stats, peep: seq<string>): Outcome {
    var a := if enableDag then DagStage(peep, stats.dagReductions) else Acc(peep, stats.dagReductions);
    Outcome(Ok(a.out), stats.(dagReductions := a.saved, optimizedInstructions := |a.out|))
  }

  // ---------------------------------------------------------------------
  // Counting

  lemma FlushCount(acc: Acc, run: seq<string>)
    ensures var a := Flush(acc, run);
            |a.out| + a.saved == |acc.out| + acc.saved + |run| && |a.out| <= |acc.out| + |run|
            && acc.out <= a.out
  {
  }

  lemma {:induction false} BlocksPassCount(bs: seq<BasicBlocks.BasicBlock>, acc: Acc)
    ensures var a := BlocksPass(bs, acc);
            |a.out| + a.saved == |acc.out| + acc.saved + |BasicBlocks.Flatten(bs)|
            && |a.out| <= |acc.out| + |BasicBlocks.Flatten(bs)|
    decreases |bs|
  {
    if bs != [] {
      var a := BlockPass(bs[0].instructions, [], acc);
      BlocksPassCount(bs[1..], a);
    }
  }

  /** With value numbering off the result is the peephole output, and with
      both passes off it is the input itself. */
  lemma DisabledPasses(enablePeephole: bool, stats: Stats, code: seq<string>)
    ensures var o := Optimization(false, enablePeephole, stats, code);
            o.result == Peeped(enablePeephole, code)
            && o.stats.dagReductions == stats.dagReductions
    ensures Optimization(false, false, stats, code)
            == Outcome(Ok(code), stats.(originalInstructions := |code|, optimizedInstructions := |code|))
  {
  }

  // ---------------------------------------------------------------------
  // CodeOptimizer

  // ---------------------------------------------------------------------
  // Barriers

  /** The barrier lines of a list, in order. */
  function Barriers(xs: seq<string>): (r: seq<string>)
    ensures |r| <= |xs|
  {
    if xs == [] then []
    else (if IsBarrier(xs[0]) then [xs[0]] else []) + Barriers(xs[1..])
  }

  lemma {:induction false} BarriersAppend(a: seq<string>, b: seq<string>)
    ensures Barriers(a + b) == Barriers(a) + Barriers(b)
    decreases |a|
  {
    if a != [] {
      var c := a + b;
      assert c[0] == a[0] && c[1..] == a[1..] + b;
      BarriersAppend(a[1..], b);
      var h := if IsBarrier(a[0]) then [a[0]] else [];
      assert Barriers(c) == h + Barriers(a[1..] + b);
      assert Barriers(a) == h + Barriers(a[1..]);
      BasicBlocks.AppendAssoc(h, Barriers(a[1..]), Barriers(b));
    } else {
      assert a + b == b;
    }
  }

  /** Every move or arithmetic line that is not a barrier has operands
      free of `:`. A label is always a barrier, but a `:` inside an operand
      value numbering reads would reach a register name. Comments and other
      lines it does not read may hold `:`. */
  predicate Separable(lines: seq<string>)
    decreases |lines|
  {
    lines == [] || ((IsBarrier(lines[0]) || Dag.OperandsAvoid(lines[0], ':')) && Separable(lines[1..]))
  }

  /** Lines of a run: no barrier, and no `:` in an operand that is read. */
  predicate PlainRun(run: seq<string>) {
    forall k :: 0 <= k < |run| ==> !IsBarrier(run[k]) && Dag.OperandsAvoid(run[k], ':')
  }

  lemma {:induction false} NoBarriers(xs: seq<string>)
    requires forall k :: 0 <= k < |xs| ==> !IsBarrier(xs[k])
    ensures Barriers(xs) == []
    decreases |xs|
  {
    if xs != [] {
      NoBarriers(xs[1..]);
    }
  }

  /** A line written by the value numbering is never a barrier. */
  lemma GeneratedNotBarrier(l: string)
    requires Dag.GeneratedLine(l)
    ensures !IsBarrier(l)
  {
    var t := l[1..];
    TrimOneBlank(l);
    FirstNotIn(t, BarrierWords);
    assert t[|t| - 1] == l[|l| - 1];
  }

  lemma TrimOneBlank(l: string)
    requires |l| >= 2 && l[0] == ' ' && !IsBlankOrTab(l[1])
    ensures TrimLeft(l) == l[1..]
  {
    assert DropBlanks(l[1..]) == l[1..];
    assert DropBlanks(l) == l[1..];
  }

  /** No word of `words` begins with the first character of `t`. */
  lemma {:induction false} FirstNotIn(t: string, words: seq<string>)
    requires t != [] && (t[0] == 'm' || t[0] == 'a' || t[0] == 's')
    requires forall k :: 0 <= k < |words| ==> words[k] != [] && words[k][0] !in {'m', 'a', 's'}
    ensures !StartsWithAny(t, words)
    decreases |words|
  {
    if words != [] {
      FirstDiffers(t, words[0]);
      FirstNotIn(t, words[1..]);
    }
  }

  lemma FirstDiffers(t: string, p: string)
    requires t != [] && p != [] && t[0] != p[0]
    ensures !StartsWith(t, p)
  {
    if |p| <= |t| {
      assert t[..|p|][0] == t[0];
    }
  }

  /** A run without `:` is value-numbered into lines that are not
      barriers. */
  lemma DagRunPlain(run: seq<string>)
    requires PlainRun(run)
    ensures Dag.Inv(Dag.Build(Dag.Empty, run))
    ensures NoBarrierIn(Dag.Generate(Dag.Build(Dag.Empty, run).nodes))
  {
    Dag.EmptyInv();
    Dag.BuildInv(Dag.Empty, run);
    Dag.BuildClean(Dag.Empty, run, ':');
    var nodes := Dag.Build(Dag.Empty, run).nodes;
    Dag.GenerateShape(nodes, |nodes|);
    var lines := Dag.Generate(nodes);
    forall k | 0 <= k < |lines| ensures !IsBarrier(lines[k]) {
      GeneratedNotBarrier(lines[k]);
    }
  }

  lemma FlushBarriers(acc: Acc, run: seq<string>)
    requires PlainRun(run)
    ensures Barriers(Flush(acc, run).out) == Barriers(acc.out)
  {
    if run != [] {
      var r := Replace(run);
      if r == run {
        NoBarriers(run);
      } else {
        NoBarriers(r);
      }
      BarriersAppend(acc.out, r);
    }
  }

  lemma {:induction false} BlockPassBarriers(lines: seq<string>, run: seq<string>, acc: Acc)
    requires PlainRun(run) && Separable(lines)
    ensures Barriers(BlockPass(lines, run, acc).out) == Barriers(acc.out) + Barriers(lines)
    decreases |lines|
  {
    if lines == [] {
      FlushBarriers(acc, run);
    } else {
      var l, rest := lines[0], lines[1..];
      assert Separable(rest);
      if IsBarrier(l) {
        var a := Flush(acc, run);
        BlockPassBarriers(rest, [], a.(out := a.out + [l]));
        BarrierStep(lines, run, acc);
      } else {
        assert PlainRun(run + [l]);
        BlockPassBarriers(rest, run + [l], acc);
        PlainStep(lines, run, acc);
      }
    }
  }

  lemma BarrierStep(lines: seq<string>, run: seq<string>, acc: Acc)
    requires lines != [] && IsBarrier(lines[0]) && PlainRun(run)
    requires var a := Flush(acc, run);
             Barriers(BlockPass(lines[1..], [], a.(out := a.out + [lines[0]])).out)
               == Barriers(a.out + [lines[0]]) + Barriers(lines[1..])
    ensures Barriers(BlockPass(lines, run, acc).out) == Barriers(acc.out) + Barriers(lines)
  {
    BlockPassBarrier(lines, run, acc);
    BarriersCons(lines);
    BarrierFlush(acc, run, lines[0]);
    BasicBlocks.AppendAssoc(Barriers(acc.out), [lines[0]], Barriers(lines[1..]));
  }

  lemma PlainStep(lines: seq<string>, run: seq<string>, acc: Acc)
    requires lines != [] && !IsBarrier(lines[0])
    requires Barriers(BlockPass(lines[1..], run + [lines[0]], acc).out) == Barriers(acc.out) + Barriers(lines[1..])
    ensures Barriers(BlockPass(lines, run, acc).out) == Barriers(acc.out) + Barriers(lines)
  {
    var x := BlockPass(lines[1..], run + [lines[0]], acc);
    BlockPassPlain(lines, run, acc);
    BarriersCons(lines);
    assert [] + Barriers(lines[1..]) == Barriers(lines[1..]);
  }

  lemma BarriersCons(xs: seq<string>)
    requires xs != []
    ensures Barriers(xs) == (if IsBarrier(xs[0]) then [xs[0]] else []) + Barriers(xs[1..])
  {
  }

  lemma BlockPassPlain(lines: seq<string>, run: seq<string>, acc: Acc)
    requires lines != [] && !IsBarrier(lines[0])
    ensures BlockPass(lines, run, acc) == BlockPass(lines[1..], run + [lines[0]], acc)
  {
  }

  lemma BlockPassBarrier(lines: seq<string>, run: seq<string>, acc: Acc)
    requires lines != [] && IsBarrier(lines[0])
    ensures var a := Flush(acc, run);
            BlockPass(lines, run, acc) == BlockPass(lines[1..], [], a.(out := a.out + [lines[0]]))
  {
  }

  /** A barrier after a flushed run is the next barrier of the output. */
  lemma BarrierFlush(acc: Acc, run: seq<string>, l: string)
    requires PlainRun(run) && IsBarrier(l)
    ensures var a := Flush(acc, run); Barriers(a.out + [l]) == Barriers(acc.out) + [l]
  {
    var a := Flush(acc, run);
    FlushBarriers(acc, run);
    BarriersAppend(a.out, [l]);
    assert Barriers([l]) == [l];
  }

  lemma {:induction false} BlocksPassBarriers(bs: seq<BasicBlocks.BasicBlock>, acc: Acc)
    requires Separable(BasicBlocks.Flatten(bs))
    ensures Barriers(BlocksPass(bs, acc).out) == Barriers(acc.out) + Barriers(BasicBlocks.Flatten(bs))
    decreases |bs|
  {
    if bs != [] {
      var first, rest := bs[0].instructions, BasicBlocks.Flatten(bs[1..]);
      assert BasicBlocks.Flatten(bs) == first + rest;
      SeparableSplit(first, rest);
      BlockPassBarriers(first, [], acc);
      BlocksPassBarriers(bs[1..], BlockPass(first, [], acc));
      BlocksStep(bs, acc);
    }
  }

  lemma BlocksStep(bs: seq<BasicBlocks.BasicBlock>, acc: Acc)
    requires bs != []
    requires var a := BlockPass(bs[0].instructions, [], acc);
             && Barriers(a.out) == Barriers(acc.out) + Barriers(bs[0].instructions)
             && Barriers(BlocksPass(bs[1..], a).out) == Barriers(a.out) + Barriers(BasicBlocks.Flatten(bs[1..]))
    ensures Barriers(BlocksPass(bs, acc).out) == Barriers(acc.out) + Barriers(BasicBlocks.Flatten(bs))
  {
    var first, rest := bs[0].instructions, BasicBlocks.Flatten(bs[1..]);
    assert BasicBlocks.Flatten(bs) == first + rest;
    BarriersAppend(first, rest);
    BasicBlocks.AppendAssoc(Barriers(acc.out), Barriers(first), Barriers(rest));
    assert BlocksPass(bs, acc) == BlocksPass(bs[1..], BlockPass(first, [], acc));
  }

  lemma {:induction false} SeparableSplit(a: seq<string>, b: seq<string>)
    requires Separable(a + b)
    ensures Separable(a) && Separable(b)
    decreases |a|
  {
    if a != [] {
      assert (a + b)[1..] == a[1..] + b;
      SeparableSplit(a[1..], b);
    } else {
      assert a + b == b;
    }
  }

  lemma {:induction false} NonEmptySeparable(lines: seq<string>)
    requires Separable(lines)
    ensures Separable(NonEmpty(lines))
    decreases |lines|
  {
    if lines != [] {
      NonEmptySeparable(lines[1..]);
    }
  }

  /** The value numbering passes every barrier line through, in order:
      labels, directives, jumps, calls, pushes and pops stay exactly where
      they were relative to each other; only empty lines are dropped. */
  lemma BarriersKept(lines: seq<string>, saved: int)
    requires Separable(lines)
    ensures Barriers(DagStage(lines, saved).out) == Barriers(NonEmpty(lines))
  {
    NonEmptySeparable(lines);
    BlocksFromEmpty(BasicBlocks.Blocks(lines), Acc([], saved));
  }

  lemma BlocksFromEmpty(bs: seq<BasicBlocks.BasicBlock>, acc: Acc)
    requires Separable(BasicBlocks.Flatten(bs)) && acc.out == []
    ensures Barriers(BlocksPass(bs, acc).out) == Barriers(BasicBlocks.Flatten(bs))
  {
    var x := Barriers(BasicBlocks.Flatten(bs));
    BlocksPassBarriers(bs, acc);
    assert Barriers(acc.out) == [];
    assert [] + x == x;
  }

  /** `CodeOptimizer`: the two switches, the statistics and the value
      numbering object it reuses for every run. */
  class CodeOptimizer {
    var enableDag: bool
    var enablePeephole: bool
    var stats: Stats
    const dagOpt: Dag.DagOptimizer

    /** Both passes start enabled, with all counters 0. */
    constructor()
      ensures enableDag && enablePeephole && stats == ZeroStats
      ensures fresh(dagOpt)
    {
      enableDag, enablePeephole, stats := true, true, ZeroStats;
      dagOpt := new Dag.DagOptimizer();
    }

    method SetDagOptimization(enable: bool)
      modifies this
      ensures enableDag == enable
      ensures enablePeephole == old(enablePeephole) && stats == old(stats)
    {
      enableDag := enable;
    }

    method SetPeepholeOptimization(enable: bool)
      modifies this
      ensures enablePeephole == enable
      ensures enableDag == old(enableDag) && stats == old(stats)
    {
      enablePeephole := enable;
    }

    method GetStats() returns (s: Stats)
      ensures s == stats
    {
      s := stats;
    }

    method ResetStats()
      modifies this
      ensures stats == ZeroStats
      ensures enableDag == old(enableDag) && enablePeephole == old(enablePeephole)
    {
      stats := ZeroStats;
    }

    /** One run of plain lines through a cleared value-numbering object. */
    method OptimizeRun(optimizable: seq<string>) returns (lines: seq<string>)
      modifies dagOpt
      ensures lines == Replace(optimizable)
    {
      dagOpt.Clear();
      dagOpt.BuildDag(optimizable);
      var optimized := dagOpt.GenerateOptimizedCode();
      if optimized != [] && |optimized| < |optimizable| {
        lines := optimized;
      } else {
        lines := optimizable;
      }
    }

    /** A pending run, when there is one, is replaced and its saving added
        to `dagReductions`. */
    method FlushRun(optimizable: seq<string>, out: seq<string>) returns (result: seq<string>)
      modifies this, dagOpt
      ensures enableDag == old(enableDag) && enablePeephole == old(enablePeephole)
      ensures stats == old(stats).(dagReductions := stats.dagReductions)
      ensures Acc(result, stats.dagReductions) == Flush(Acc(out, old(stats.dagReductions)), optimizable)
    {
      result := out;
      if optimizable != [] {
        var lines := OptimizeRun(optimizable);
        result := result + lines;
        stats := stats.(dagReductions := stats.dagReductions + (|optimizable| - |lines|));
      }
    }

    /** `optimizeCode`. */
    method OptimizeCode(code: seq<string>) returns (r: Result<seq<string>>)
      modifies this, dagOpt
      ensures enableDag == old(enableDag) && enablePeephole == old(enablePeephole)
      ensures Outcome(r, stats) == Optimization(enableDag, enablePeephole, old(stats), code)
    {
      stats := stats.(originalInstructions := |code|);
      var result := code;
      if enablePeephole {
        var before := |result|;
        var p := Peephole.Optimize(result);
        if p.Err? {
          return Err(p.msg);
        }
        result := p.value;
        stats := stats.(peepholeReductions := before - |result|);
      }
      assert Peeped(enablePeephole, code) == Ok(result);
      ghost var peep, s2 := result, stats;
      if enableDag {
        result := DagStageOf(result);
      }
      stats := stats.(optimizedInstructions := |result|);
      r := Ok(result);
      assert Outcome(r, stats) == Finish(enableDag, s2, peep);
    }

    /** The loop over the basic blocks of `optimizeCode`. */
    method DagStageOf(code: seq<string>) returns (result: seq<string>)
      modifies this, dagOpt
      ensures enableDag == old(enableDag) && enablePeephole == old(enablePeephole)
      ensures stats == old(stats).(dagReductions := stats.dagReductions)
      ensures Acc(result, stats.dagReductions) == DagStage(code, old(stats.dagReductions))
    {
      var blocks := BasicBlocks.IdentifyBasicBlocks(code);
      result := [];
      var i := 0;
      while i < |blocks|
        invariant i <= |blocks|
        invariant enableDag == old(enableDag) && enablePeephole == old(enablePeephole)
        invariant stats == old(stats).(dagReductions := stats.dagReductions)
        invariant DagStage(code, old(stats.dagReductions)) == BlocksPass(blocks[i..], Acc(result, stats.dagReductions))
      {
        assert blocks[i..][1..] == blocks[i + 1..];
        result := BlockStage(blocks[i].instructions, result);
        i := i + 1;
      }
    }

    /** The loop over the lines of one block: barriers are copied, runs of
        other lines are gathered and flushed through `OptimizeRun`. */
    method BlockStage(instrs: seq<string>, out: seq<string>) returns (result: seq<string>)
      modifies this, dagOpt
      ensures enableDag == old(enableDag) && enablePeephole == old(enablePeephole)
      ensures stats == old(stats).(dagReductions := stats.dagReductions)
      ensures Acc(result, stats.dagReductions) == BlockPass(instrs, [], Acc(out, old(stats.dagReductions)))
    {
      result := out;
      var optimizable := [];
      var j := 0;
      while j < |instrs|
        invariant j <= |instrs|
        invariant enableDag == old(enableDag) && enablePeephole == old(enablePeephole)
        invariant stats == old(stats).(dagReductions := stats.dagReductions)
        invariant BlockPass(instrs, [], Acc(out, old(stats.dagReductions)))
                  == BlockPass(instrs[j..], optimizable, Acc(result, stats.dagReductions))
      {
        var instr := instrs[j];
        ghost var rest, acc := instrs[j..], Acc(result, stats.dagReductions);
        assert rest[0] == instr && rest[1..] == instrs[j + 1..];
        if IsBarrier(instr) {
          BlockPassBarrier(rest, optimizable, acc);
          result := FlushRun(optimizable, result);
          optimizable := [];
          result := result + [instr];
        } else {
          BlockPassPlain(rest, optimizable, acc);
          optimizable := optimizable + [instr];
        }
        j := j + 1;
      }
      result := FlushRun(optimizable, result);
    }
  }
}
