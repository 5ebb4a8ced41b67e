/** Local value numbering over a run of straight-line instructions: each
    immediate, register and arithmetic result becomes a node, equal
    operations share one node, and each register is mapped to the node that
    holds its current value. Node pointers are positions in the node list. */
module Dag {
  import opened Wrappers
  import opened Text
  import opened Peephole

  datatype NodeKind = CONSTANT | REGISTER | OPERATION

  /** A `DAGNode`: what it is, its text, its operation name, the positions
      of its operands and the registers it is assigned to. */
  datatype Node = Node(kind: NodeKind, value: string, operation: string, children: seq<nat>, labels: seq<string>)

  /** `DAGNode::operator==`: same kind, same operation and the same operands
      one by one; value and labels are not compared. */
  predicate SameNode(a: Node, b: Node) {
    && a.kind == b.kind && a.operation == b.operation
    && |a.children| == |b.children|
    && forall i :: 0 <= i < |a.children| ==> a.children[i] == b.children[i]
  }

  /** The state of a `DAGOptimizer`. */
  datatype Graph = Graph(nodes: seq<Node>, registerMap: map<string, nat>, constantMap: map<string, nat>)

  const Empty := Graph([], map[], map[])

  // ---------------------------------------------------------------------
  // Operands

  /** `extractRegister`: drop a leading `%`; for an indirect operand keep
      what is between the first `(` and the first `)` after it, without its
      own leading `%`. When no `)` follows the `(` (none at all, or only one
      before it), `substr` runs to the end of the operand. */
  function ExtractRegister(operand: string): (reg: string)
    ensures |reg| <= |operand|
  {
    var r := StripPercent(operand);
    match IndexOf(r, '(')
    case None => r
    case Some(p) => StripPercent(Bracketed(r, p))
  }

  /** Drop one leading `%`. */
  function StripPercent(s: string): (r: string)
    ensures |r| <= |s|
  {
    if s != [] && s[0] == '%' then s[1..] else s
  }

  /** What follows the `(` at `p`: up to the first `)` when that comes after
      it, otherwise to the end. */
  function Bracketed(r: string, p: nat): (inner: string)
    requires p < |r|
    ensures |inner| < |r|
  {
    match IndexOf(r, ')')
    case Some(q) => if q > p then r[p + 1..q] else r[p + 1..]
    case None => r[p + 1..]
  }

  /** A plain register operand loses its `%` and nothing else. */
  lemma ExtractPlainRegister(name: string)
    requires name != [] && name[0] != '%' && NoChar(name, '(')
    ensures ExtractRegister("%" + name) == name
    ensures ExtractRegister(name) == name
  {
    assert ("%" + name)[1..] == name;
  }

  /** A memory operand `off(%base)` names its base register, so a store to
      the stack frame counts as a write to `rbp`. */
  lemma ExtractBaseRegister(off: string, base: string, rest: string)
    requires NoChar(off, '(') && NoChar(off, ')') && NoChar(base, ')')
    requires off == [] || off[0] != '%'
    ensures ExtractRegister(off + "(%" + base + ")" + rest) == base
  {
    var s := off + "(%" + base + ")" + rest;
    Parens(off, base, rest);
    assert StripPercent(s) == s;
    var t := "%" + base;
    assert s == (off + "(") + t + (")" + rest);
    assert forall i :: 0 <= i < |t| ==> s[|off| + 1 + i] == t[i];
    assert Bracketed(s, |off|) == t;
    assert t[1..] == base;
  }

  lemma Parens(off: string, base: string, rest: string)
    requires NoChar(off, '(') && NoChar(off, ')') && NoChar(base, ')')
    ensures var s := off + "(%" + base + ")" + rest;
            IndexOf(s, '(') == Some(|off|) && IndexOf(s, ')') == Some(|off| + 2 + |base|)
  {
    var s := off + "(%" + base + ")" + rest;
    assert s == off + ("(%" + base + ")" + rest);
    IndexOfAfter(off, "(%" + base + ")" + rest, '(');
    assert s == (off + "(%" + base) + (")" + rest);
    assert NoChar(off + "(%" + base, ')');
    IndexOfAfter(off + "(%" + base, ")" + rest, ')');
  }

  /** Without a closing parenthesis the base runs to the end. */
  lemma ExtractUnclosed(off: string, base: string)
    requires NoChar(off, '(') && NoChar(off, ')') && NoChar(base, ')')
    requires off == [] || off[0] != '%'
    ensures ExtractRegister(off + "(%" + base) == base
  {
    var s := off + "(%" + base;
    assert StripPercent(s) == s;
    assert s == off + ("(%" + base);
    IndexOfAfter(off, "(%" + base, '(');
    assert NoChar(s, ')');
    assert Bracketed(s, |off|) == "%" + base;
    assert ("%" + base)[1..] == base;
  }

  lemma StackSlotIsRbp()
    ensures ExtractRegister("-8(%rbp)") == "rbp"
  {
    assert "-8(%rbp)" == "-8" + "(%" + "rbp" + ")" + "";
    ExtractBaseRegister("-8", "rbp", "");
  }

  lemma {:induction false} IndexOfAfter(a: string, b: string, c: char)
    requires NoChar(a, c) && b != [] && b[0] == c
    ensures IndexOf(a + b, c) == Some(|a|)
    decreases |a|
  {
    if a != [] {
      assert (a + b)[1..] == a[1..] + b;
      IndexOfAfter(a[1..], b, c);
    }
  }

  // ---------------------------------------------------------------------
  // Finding and creating nodes

  ghost predicate InRange(g: Graph) {
    && (forall r :: r in g.registerMap ==> g.registerMap[r] < |g.nodes|)
    && (forall v :: v in g.constantMap ==> g.constantMap[v] < |g.nodes|)
  }

  /** `getConstantNode`: the node of an immediate, created on first use. */
  function ConstantNode(g: Graph, value: string): (r: (Graph, nat))
    requires InRange(g)
    ensures InRange(r.0) && r.1 < |r.0.nodes| && |g.nodes| <= |r.0.nodes|
  {
    if value in g.constantMap then (g, g.constantMap[value])
    else
      var n := |g.nodes|;
      (g.(nodes := g.nodes + [Node(CONSTANT, value, "", [], [])],
          constantMap := g.constantMap[value := n]), n)
  }

  /** `getRegisterNode`: the node a register currently holds; a register
      not seen before gets a node of its own, labelled with its name. */
  function RegisterNode(g: Graph, reg: string): (r: (Graph, nat))
    requires InRange(g)
    ensures InRange(r.0) && r.1 < |r.0.nodes| && |g.nodes| <= |r.0.nodes|
  {
    if reg in g.registerMap then (g, g.registerMap[reg])
    else
      var n := |g.nodes|;
      (g.(nodes := g.nodes + [Node(REGISTER, reg, "", [], [reg])],
          registerMap := g.registerMap[reg := n]), n)
  }

  /** The source operand: an immediate or a register. */
  function OperandNode(g: Graph, src: string): (r: (Graph, nat))
    requires InRange(g)
    ensures InRange(r.0) && r.1 < |r.0.nodes| && |g.nodes| <= |r.0.nodes|
  {
    if IsImmediate(src) then ConstantNode(g, src) else RegisterNode(g, ExtractRegister(src))
  }

  predicate IsOperation(n: Node, op: string, children: seq<nat>) {
    n.kind == OPERATION && n.operation == op && n.children == children
  }

  /** `findOperationNode` from position `k` on: the first operation node
      with that name and those operands. */
  function FindOperation(nodes: seq<Node>, op: string, children: seq<nat>, k: nat): (r: Option<nat>)
    requires k <= |nodes|
    ensures r.Some? ==> k <= r.value < |nodes| && IsOperation(nodes[r.value], op, children)
    ensures r.Some? ==> forall j :: k <= j < r.value ==> !IsOperation(nodes[j], op, children)
    ensures r.None? ==> forall j :: k <= j < |nodes| ==> !IsOperation(nodes[j], op, children)
    decreases |nodes| - k
  {
    if k == |nodes| then None
    else if IsOperation(nodes[k], op, children) then Some(k)
    else FindOperation(nodes, op, children, k + 1)
  }

  /** Node equality compares the kind, the operation and the operands in
      order, and nothing else: the value and the labels of either node can
      be anything. */
  lemma SameNodeCompares(a: Node, b: Node, value: string, labels: seq<string>)
    ensures SameNode(a, b) <==> a.kind == b.kind && a.operation == b.operation && a.children == b.children
    ensures SameNode(a, b) <==> SameNode(a.(value := value, labels := labels), b)
    ensures SameNode(a, b) <==> SameNode(b, a)
  {
  }

  /** The test `findOperationNode` applies to each node is node equality
      with the operation node `createOperationNode` would make, whatever
      its value and labels. */
  lemma FindOperationSameNode(n: Node, op: string, children: seq<nat>, value: string, labels: seq<string>)
    ensures IsOperation(n, op, children) <==> SameNode(n, Node(OPERATION, value, op, children, labels))
  {
    SameNodeCompares(n, Node(OPERATION, value, op, children, labels), value, labels);
  }

  /** The operation node for `op` over `children`: the existing one, or
      a new unlabelled one (`createOperationNode`). */
  function OperationNode(g: Graph, op: string, children: seq<nat>): (r: (Graph, nat))
    requires InRange(g)
    ensures InRange(r.0) && r.1 < |r.0.nodes| && |g.nodes| <= |r.0.nodes|
  {
    match FindOperation(g.nodes, op, children, 0)
    case Some(k) => (g, k)
    case None => (g.(nodes := g.nodes + [Node(OPERATION, "", op, children, [])]), |g.nodes|)
  }

  /** `registerMap[reg] = node` and, unless already there, `reg` appended
      to the node's labels. */
  function Attach(g: Graph, n: nat, reg: string): (h: Graph)
    requires InRange(g) && n < |g.nodes|
    ensures InRange(h) && |h.nodes| == |g.nodes|
  {
    var node := g.nodes[n];
    var labels := if reg in node.labels then node.labels else node.labels + [reg];
    g.(nodes := g.nodes[n := node.(labels := labels)], registerMap := g.registerMap[reg := n])
  }

  /** The operation an arithmetic mnemonic names: the mnemonic without its
      size letter, with `imul` renamed `mul`. */
  function OpName(c: Opcode): (name: string)
    requires IsArithmetic(c)
  {
    if IsAdd(c) then "add" else if IsSub(c) then "sub" else "mul"
  }

  lemma OpNameOfMnemonic(op: string)
    requires IsArithmetic(OpcodeOf(op))
    ensures var stem := op[..|op| - 1];
            OpName(OpcodeOf(op)) == if stem == "imul" then "mul" else stem
  {
    OpcodeNames(op);
  }

  // ---------------------------------------------------------------------
  // parseInstruction and buildDAG

  /** `parseInstruction` on a decoded line: labels and directives are
      skipped; `movq`/`movl` maps the destination register to the source's
      node; `add`/`sub`/`imul` (q or l) maps it to the operation node over
      its previous value and the source. Any other line changes nothing. */
  function Step(g: Graph, ins: Instr): (h: Graph)
    requires InRange(g)
    ensures InRange(h)
  {
    var op := ins.op;
    if op == [] || op[0] == '.' || op[|op| - 1] == ':' then g
    else if IsMovQL(ins.code) then
      var (g1, s) := OperandNode(g, StripComma(ins.src));
      Attach(g1, s, ExtractRegister(ins.dst))
    else if IsArithmetic(ins.code) then
      var d := ExtractRegister(ins.dst);
      var (g1, dn) := RegisterNode(g, d);
      var (g2, sn) := OperandNode(g1, StripComma(ins.src));
      var (g3, r) := OperationNode(g2, OpName(ins.code), [dn, sn]);
      Attach(g3, r, d)
    else g
  }

  function Parse(g: Graph, instr: string): (h: Graph)
    requires InRange(g)
    ensures InRange(h)
  {
    Step(g, Decode(instr))
  }

  /** `buildDAG`: every line in order. */
  function Build(g: Graph, lines: seq<string>): (h: Graph)
    requires InRange(g)
    ensures InRange(h)
    decreases |lines|
  {
    if lines == [] then g else Build(Parse(g, lines[0]), lines[1..])
  }

  // ---------------------------------------------------------------------
  // generateOptimizedCode

  /** Every operand points to an earlier node. */
  ghost predicate Acyclic(nodes: seq<Node>) {
    forall k, j :: 0 <= k < |nodes| && 0 <= j < |nodes[k].children| ==> nodes[k].children[j] < k
  }

  /** Every node other than `skip` that is not a constant carries a label. */
  ghost predicate LabelledBut(nodes: seq<Node>, skip: int) {
    forall k :: 0 <= k < |nodes| && k != skip && nodes[k].kind != CONSTANT ==> nodes[k].labels != []
  }

  /** The line a node is materialised as, if any: a labelled constant is
      moved into its last label, a labelled two-operand operation applies
      its 64-bit form to its last label with the second operand as source. */
  function Emit(nodes: seq<Node>, k: nat): (r: seq<string>)
    requires k < |nodes| && Acyclic(nodes) && LabelledBut(nodes, -1)
    ensures |r| <= 1
  {
    var node := nodes[k];
    if node.labels == [] then []
    else
      var main := node.labels[|node.labels| - 1];
      if node.kind == CONSTANT then [" movq " + node.value + ", %" + main]
      else if node.kind == OPERATION && |node.children| == 2 then
        var right := nodes[node.children[1]];
        var rightOp := if right.kind == CONSTANT then right.value
                       else "%" + right.labels[|right.labels| - 1];
        [" " + node.operation + "q " + rightOp + ", %" + main]
      else []
  }

  /** The lines of the first `n` nodes, in node order. */
  function GenerateUpTo(nodes: seq<Node>, n: nat): (r: seq<string>)
    requires n <= |nodes| && Acyclic(nodes) && LabelledBut(nodes, -1)
  {
    if n == 0 then [] else GenerateUpTo(nodes, n - 1) + Emit(nodes, n - 1)
  }

  /** `generateOptimizedCode`: one line per labelled constant or
      operation node, so never more lines than nodes. */
  function Generate(nodes: seq<Node>): (r: seq<string>)
    requires Acyclic(nodes) && LabelledBut(nodes, -1)
    ensures |r| == CountMaterialised(nodes, |nodes|) <= |nodes|
  {
    GenerateCount(nodes, |nodes|);
    GenerateUpTo(nodes, |nodes|)
  }

  /** A node that yields a line. */
  predicate Materialised(n: Node) {
    n.labels != [] && (n.kind == CONSTANT || (n.kind == OPERATION && |n.children| == 2))
  }

  function CountMaterialised(nodes: seq<Node>, n: nat): nat
    requires n <= |nodes|
  {
    if n == 0 then 0 else CountMaterialised(nodes, n - 1) + (if Materialised(nodes[n - 1]) then 1 else 0)
  }

  /** One line per labelled constant or operation node, none for register
      nodes and unlabelled nodes; so never more lines than nodes. */
  lemma {:induction false} GenerateCount(nodes: seq<Node>, n: nat)
    requires n <= |nodes| && Acyclic(nodes) && LabelledBut(nodes, -1)
    ensures |GenerateUpTo(nodes, n)| == CountMaterialised(nodes, n) <= n
  {
    if n > 0 {
      GenerateCount(nodes, n - 1);
    }
  }

  /** The lines name only the last label of each node: a node assigned to
      several registers is written to the last of them alone. */
  lemma LastLabelWritten(nodes: seq<Node>, k: nat, v: string, a: string, b: string)
    requires k < |nodes| && Acyclic(nodes) && LabelledBut(nodes, -1)
    requires nodes[k] == Node(CONSTANT, v, "", [], [a, b])
    ensures Emit(nodes, k) == [" movq " + v + ", %" + b]
  {
  }

  // ---------------------------------------------------------------------
  // Invariant of the node graph

  ghost predicate Binary(nodes: seq<Node>) {
    forall k :: 0 <= k < |nodes| ==> (nodes[k].kind == OPERATION <==> |nodes[k].children| == 2)
  }

  /** Each register is among the labels of the node it is mapped to. */
  ghost predicate Tracked(g: Graph) {
    forall r :: r in g.registerMap && g.registerMap[r] < |g.nodes| ==> r in g.nodes[g.registerMap[r]].labels
  }

  /** Each immediate has exactly one node, the one `constantMap` gives. */
  ghost predicate ConstantsShared(g: Graph) {
    && (forall v :: v in g.constantMap && g.constantMap[v] < |g.nodes| ==>
          g.nodes[g.constantMap[v]].kind == CONSTANT && g.nodes[g.constantMap[v]].value == v)
    && (forall k :: 0 <= k < |g.nodes| && g.nodes[k].kind == CONSTANT ==>
          g.nodes[k].value in g.constantMap && g.constantMap[g.nodes[k].value] == k)
  }

  /** No two operation nodes are equal under `operator==`. */
  ghost predicate HashConsed(nodes: seq<Node>) {
    forall i, j :: 0 <= i < j < |nodes| && nodes[i].kind == OPERATION ==> !SameNode(nodes[i], nodes[j])
  }

  ghost predicate DistinctLabels(nodes: seq<Node>) {
    forall k, a, b :: 0 <= k < |nodes| && 0 <= a < b < |nodes[k].labels| ==> nodes[k].labels[a] != nodes[k].labels[b]
  }

  /** The invariant of the node list alone; node `skip` may lack a label. */
  ghost predicate Numbered(nodes: seq<Node>, skip: int) {
    Acyclic(nodes) && Binary(nodes) && LabelledBut(nodes, skip) && HashConsed(nodes) && DistinctLabels(nodes)
  }

  ghost predicate InvBut(g: Graph, skip: int) {
    Numbered(g.nodes, skip) && InRange(g) && Tracked(g) && ConstantsShared(g)
  }

  ghost predicate Inv(g: Graph) { InvBut(g, -1) }

  lemma EmptyInv()
    ensures Inv(Empty)
  {
  }

  /** Appending a constant or register node with at most one label keeps
      the node-list invariant. */
  lemma AppendLeaf(nodes: seq<Node>, x: Node)
    requires Numbered(nodes, -1) && x.children == [] && x.kind != OPERATION && |x.labels| <= 1
    requires x.kind == REGISTER ==> x.labels != []
    ensures Numbered(nodes + [x], -1)
  {
    var ns := nodes + [x];
    assert forall k :: 0 <= k < |nodes| ==> ns[k] == nodes[k];
    assert HashConsed(ns) by {
      forall i, j | 0 <= i < j < |ns| && ns[i].kind == OPERATION
        ensures !SameNode(ns[i], ns[j])
      {
        if j < |nodes| {
          assert !SameNode(nodes[i], nodes[j]);
        }
      }
    }
  }

  /** Appending an operation that no node has yet keeps the node-list
      invariant, except that the new node has no label yet. */
  lemma AppendOperation(nodes: seq<Node>, op: string, a: nat, b: nat)
    requires Numbered(nodes, -1) && a < |nodes| && b < |nodes|
    requires forall j :: 0 <= j < |nodes| ==> !IsOperation(nodes[j], op, [a, b])
    ensures Numbered(nodes + [Node(OPERATION, "", op, [a, b], [])], |nodes|)
  {
    var ns := nodes + [Node(OPERATION, "", op, [a, b], [])];
    assert forall k :: 0 <= k < |nodes| ==> ns[k] == nodes[k];
    assert HashConsed(ns) by {
      forall i, j | 0 <= i < j < |ns| && ns[i].kind == OPERATION
        ensures !SameNode(ns[i], ns[j])
      {
        if j < |nodes| {
          assert !SameNode(nodes[i], nodes[j]);
        } else {
          assert !IsOperation(nodes[i], op, [a, b]);
        }
      }
    }
  }

  /** Adding a label not yet there keeps the node-list invariant and gives
      the node a label. */
  lemma AddLabel(nodes: seq<Node>, n: nat, labels: seq<string>)
    requires Numbered(nodes, n) && n < |nodes| && labels != []
    requires forall a, b :: 0 <= a < b < |labels| ==> labels[a] != labels[b]
    ensures Numbered(nodes[n := nodes[n].(labels := labels)], -1)
  {
    var ns := nodes[n := nodes[n].(labels := labels)];
    assert forall k :: 0 <= k < |nodes| ==> SameNode(ns[k], nodes[k]) && ns[k].kind == nodes[k].kind;
    assert forall k :: 0 <= k < |nodes| ==> ns[k].children == nodes[k].children;
    assert HashConsed(ns) by {
      forall i, j | 0 <= i < j < |ns| && ns[i].kind == OPERATION
        ensures !SameNode(ns[i], ns[j])
      {
        assert !SameNode(nodes[i], nodes[j]);
      }
    }
  }

  lemma ConstantNodeInv(g: Graph, value: string)
    requires Inv(g)
    ensures var (h, n) := ConstantNode(g, value);
            Inv(h) && h.nodes[n].kind == CONSTANT && h.nodes[n].value == value
  {
    if value !in g.constantMap {
      var (h, n) := ConstantNode(g, value);
      AppendLeaf(g.nodes, h.nodes[n]);
      assert forall k :: 0 <= k < |g.nodes| ==> h.nodes[k] == g.nodes[k];
    }
  }

  lemma RegisterNodeInv(g: Graph, reg: string)
    requires Inv(g)
    ensures var (h, n) := RegisterNode(g, reg);
            Inv(h) && reg in h.registerMap && h.registerMap[reg] == n && h.constantMap == g.constantMap
  {
    if reg !in g.registerMap {
      var (h, n) := RegisterNode(g, reg);
      AppendLeaf(g.nodes, h.nodes[n]);
      assert forall k :: 0 <= k < |g.nodes| ==> h.nodes[k] == g.nodes[k];
    }
  }

  lemma OperandNodeInv(g: Graph, src: string)
    requires Inv(g)
    ensures Inv(OperandNode(g, src).0)
  {
    if IsImmediate(src) {
      ConstantNodeInv(g, src);
    } else {
      RegisterNodeInv(g, ExtractRegister(src));
    }
  }

  /** An operation is looked up before it is created, so a new operation
      node equals no earlier one; it is unlabelled until `Attach`. */
  lemma OperationNodeInv(g: Graph, op: string, a: nat, b: nat)
    requires Inv(g) && a < |g.nodes| && b < |g.nodes|
    ensures var (h, n) := OperationNode(g, op, [a, b]);
            InvBut(h, n) && IsOperation(h.nodes[n], op, [a, b])
  {
    var found := FindOperation(g.nodes, op, [a, b], 0);
    if found.None? {
      var (h, n) := OperationNode(g, op, [a, b]);
      AppendOperation(g.nodes, op, a, b);
      assert forall k :: 0 <= k < |g.nodes| ==> h.nodes[k] == g.nodes[k];
    } else {
      assert Numbered(g.nodes, found.value);
    }
  }

  lemma AttachInv(g: Graph, n: nat, reg: string)
    requires InvBut(g, n) && n < |g.nodes|
    ensures Inv(Attach(g, n, reg))
  {
    var h := Attach(g, n, reg);
    var labels := h.nodes[n].labels;
    assert forall a, b :: 0 <= a < b < |labels| ==> labels[a] != labels[b] by {
      assert forall a, b :: 0 <= a < b < |g.nodes[n].labels| ==> g.nodes[n].labels[a] != g.nodes[n].labels[b];
    }
    AddLabel(g.nodes, n, labels);
    assert forall k :: 0 <= k < |g.nodes| ==> h.nodes[k].kind == g.nodes[k].kind && h.nodes[k].value == g.nodes[k].value;
    assert Tracked(h) by {
      forall r | r in h.registerMap && h.registerMap[r] < |h.nodes|
        ensures r in h.nodes[h.registerMap[r]].labels
      {
        if r != reg {
          var m := g.registerMap[r];
          assert r in g.nodes[m].labels;
          assert g.nodes[m].labels <= h.nodes[m].labels;
        }
      }
    }
  }

  /** `parseInstruction` keeps the invariant. */
  lemma StepInv(g: Graph, ins: Instr)
    requires Inv(g)
    ensures Inv(Step(g, ins))
  {
    var op := ins.op;
    if op == [] || op[0] == '.' || op[|op| - 1] == ':' {
    } else if IsMovQL(ins.code) {
      var (g1, s) := OperandNode(g, StripComma(ins.src));
      OperandNodeInv(g, StripComma(ins.src));
      AttachInv(g1, s, ExtractRegister(ins.dst));
    } else if IsArithmetic(ins.code) {
      var d := ExtractRegister(ins.dst);
      var (g1, dn) := RegisterNode(g, d);
      RegisterNodeInv(g, d);
      var (g2, sn) := OperandNode(g1, StripComma(ins.src));
      OperandNodeInv(g1, StripComma(ins.src));
      var (g3, r) := OperationNode(g2, OpName(ins.code), [dn, sn]);
      OperationNodeInv(g2, OpName(ins.code), dn, sn);
      AttachInv(g3, r, d);
    }
  }

  /** `buildDAG` from a cleared optimizer keeps the invariant, so the code
      generator always finds a label on every operand it names. */
  lemma {:induction false} BuildInv(g: Graph, lines: seq<string>)
    requires Inv(g)
    ensures Inv(Build(g, lines))
    decreases |lines|
  {
    if lines != [] {
      StepInv(g, Decode(lines[0]));
      BuildInv(Parse(g, lines[0]), lines[1..]);
    }
  }

  /** After a register move or arithmetic line the destination register is
      mapped to a node that carries it as a label; after an arithmetic line
      that node is the operation over the register's previous node and the
      source's node. */
  lemma ArithmeticNumbered(g: Graph, ins: Instr)
    requires Inv(g) && IsArithmetic(ins.code) && ins.op != [] && ins.op[0] != '.' && ins.op[|ins.op| - 1] != ':'
    ensures var d := ExtractRegister(ins.dst);
            var (g1, dn) := RegisterNode(g, d);
            var (g2, sn) := OperandNode(g1, StripComma(ins.src));
            var h := Step(g, ins);
            d in h.registerMap && IsOperation(h.nodes[h.registerMap[d]], OpName(ins.code), [dn, sn])
  {
  }

  /** The same operation over the same operand nodes is numbered once:
      when it already exists no operation node is added. */
  lemma OperationShared(g: Graph, op: string, a: nat, b: nat, k: nat)
    requires Inv(g) && k < |g.nodes| && IsOperation(g.nodes[k], op, [a, b])
    ensures OperationNode(g, op, [a, b]) == (g, k)
  {
    var found := FindOperation(g.nodes, op, [a, b], 0);
    if found != Some(k) {
      var m := found.value;
      assert IsOperation(g.nodes[m], op, [a, b]);
      if m < k {
        assert SameNode(g.nodes[m], g.nodes[k]);
      } else {
        assert SameNode(g.nodes[k], g.nodes[m]);
      }
    }
  }

  /** Node `k` of `h` is node `k` of `g` with possibly more labels. */
  predicate Grown(a: Node, b: Node) {
    a.kind == b.kind && a.value == b.value && a.operation == b.operation
    && a.children == b.children && a.labels <= b.labels
  }

  /** Nodes are never removed or changed except by new labels, constants
      keep their nodes and registers stay mapped. */
  ghost predicate Extends(g: Graph, h: Graph) {
    && |g.nodes| <= |h.nodes|
    && (forall k :: 0 <= k < |g.nodes| ==> Grown(g.nodes[k], h.nodes[k]))
    && (forall v :: v in g.constantMap ==> v in h.constantMap && h.constantMap[v] == g.constantMap[v])
    && (forall r :: r in g.registerMap ==> r in h.registerMap)
  }

  lemma StepExtends(g: Graph, ins: Instr)
    requires InRange(g)
    ensures Extends(g, Step(g, ins))
  {
    var op := ins.op;
    if op == [] || op[0] == '.' || op[|op| - 1] == ':' {
      ExtendsRefl(g);
    } else if IsMovQL(ins.code) {
      var (g1, s) := OperandNode(g, StripComma(ins.src));
      OperandExtends(g, StripComma(ins.src));
      AttachExtends(g1, s, ExtractRegister(ins.dst));
      ExtendsTrans(g, g1, Step(g, ins));
    } else if IsArithmetic(ins.code) {
      var d := ExtractRegister(ins.dst);
      var (g1, dn) := RegisterNode(g, d);
      var (g2, sn) := OperandNode(g1, StripComma(ins.src));
      var (g3, r) := OperationNode(g2, OpName(ins.code), [dn, sn]);
      ExtendsRegister(g, d);
      OperandExtends(g1, StripComma(ins.src));
      AppendExtends(g2, g3);
      AttachExtends(g3, r, d);
      ExtendsTrans(g, g1, g2);
      ExtendsTrans(g, g2, g3);
      ExtendsTrans(g, g3, Step(g, ins));
    } else {
      ExtendsRefl(g);
    }
  }

  lemma ExtendsRefl(g: Graph)
    ensures Extends(g, g)
  {
  }

  lemma ExtendsTrans(g: Graph, h: Graph, i: Graph)
    requires Extends(g, h) && Extends(h, i)
    ensures Extends(g, i)
  {
    forall k | 0 <= k < |g.nodes|
      ensures Grown(g.nodes[k], i.nodes[k])
    {
      assert Grown(g.nodes[k], h.nodes[k]) && Grown(h.nodes[k], i.nodes[k]);
    }
  }

  lemma ExtendsRegister(g: Graph, reg: string)
    requires InRange(g)
    ensures Extends(g, RegisterNode(g, reg).0)
  {
  }

  lemma OperandExtends(g: Graph, src: string)
    requires InRange(g)
    ensures Extends(g, OperandNode(g, src).0)
  {
  }

  lemma AppendExtends(g: Graph, h: Graph)
    requires |g.nodes| <= |h.nodes| && g.nodes == h.nodes[..|g.nodes|]
    requires g.registerMap == h.registerMap && g.constantMap == h.constantMap
    ensures Extends(g, h)
  {
    forall k | 0 <= k < |g.nodes|
      ensures Grown(g.nodes[k], h.nodes[k])
    {
      assert g.nodes[k] == h.nodes[k];
    }
  }

  lemma AttachExtends(g: Graph, n: nat, reg: string)
    requires InRange(g) && n < |g.nodes|
    ensures Extends(g, Attach(g, n, reg))
  {
  }

  lemma {:induction false} BuildExtends(g: Graph, lines: seq<string>)
    requires InRange(g)
    ensures Extends(g, Build(g, lines))
    decreases |lines|
  {
    if lines != [] {
      var g1 := Parse(g, lines[0]);
      StepExtends(g, Decode(lines[0]));
      BuildExtends(g1, lines[1..]);
      var h := Build(g, lines);
      forall k | 0 <= k < |g.nodes|
        ensures Grown(g.nodes[k], h.nodes[k])
      {
        assert Grown(g.nodes[k], g1.nodes[k]) && Grown(g1.nodes[k], h.nodes[k]);
      }
    }
  }

  // ---------------------------------------------------------------------
  // What the generated lines look like

  /** No label of any node holds `c`. */
  ghost predicate LabelsAvoid(nodes: seq<Node>, c: char) {
    forall k, j :: 0 <= k < |nodes| && 0 <= j < |nodes[k].labels| ==> NoChar(nodes[k].labels[j], c)
  }

  predicate IsOpName(op: string) { op == "add" || op == "sub" || op == "mul" }

  /** Every operation node is an `add`, `sub` or `mul`. */
  ghost predicate OpsNamed(nodes: seq<Node>) {
    forall k :: 0 <= k < |nodes| && nodes[k].kind == OPERATION ==> IsOpName(nodes[k].operation)
  }

  ghost predicate Clean(g: Graph, c: char) {
    LabelsAvoid(g.nodes, c) && OpsNamed(g.nodes)
  }

  lemma ExtractAvoids(operand: string, c: char)
    requires NoChar(operand, c)
    ensures NoChar(ExtractRegister(operand), c)
  {
    var r := StripPercent(operand);
    assert NoChar(r, c);
    match IndexOf(r, '(')
    case None =>
    case Some(p) =>
      assert NoChar(Bracketed(r, p), c);
  }

  lemma ConstantClean(g: Graph, value: string, c: char)
    requires InRange(g) && Clean(g, c)
    ensures Clean(ConstantNode(g, value).0, c)
  {
  }

  lemma RegisterClean(g: Graph, reg: string, c: char)
    requires InRange(g) && Clean(g, c) && NoChar(reg, c)
    ensures Clean(RegisterNode(g, reg).0, c)
  {
    if reg !in g.registerMap {
      var h := RegisterNode(g, reg).0;
      assert forall k :: 0 <= k < |g.nodes| ==> h.nodes[k] == g.nodes[k];
    }
  }

  lemma OperandClean(g: Graph, src: string, c: char)
    requires InRange(g) && Clean(g, c) && NoChar(src, c)
    ensures Clean(OperandNode(g, src).0, c)
  {
    if IsImmediate(src) {
      ConstantClean(g, src, c);
    } else {
      ExtractAvoids(src, c);
      RegisterClean(g, ExtractRegister(src), c);
    }
  }

  lemma OperationClean(g: Graph, op: string, children: seq<nat>, c: char)
    requires InRange(g) && Clean(g, c) && IsOpName(op)
    ensures Clean(OperationNode(g, op, children).0, c)
  {
  }

  lemma AttachClean(g: Graph, n: nat, reg: string, c: char)
    requires InRange(g) && n < |g.nodes| && Clean(g, c) && NoChar(reg, c)
    ensures Clean(Attach(g, n, reg), c)
  {
    var h := Attach(g, n, reg);
    assert forall k :: 0 <= k < |g.nodes| && k != n ==> h.nodes[k] == g.nodes[k];
  }

  /** The operands value numbering reads from a line avoid `c`: only a
      move or an arithmetic line has its operands read. */
  predicate OperandsAvoid(line: string, c: char) {
    var ins := Decode(line);
    (IsMovQL(ins.code) || IsArithmetic(ins.code)) ==> NoChar(ins.src, c) && NoChar(ins.dst, c)
  }

  /** A line whose operands avoid `c` gives labels without `c`, and every
      operation is an `add`, `sub` or `mul`. */
  lemma StepClean(g: Graph, ins: Instr, c: char)
    requires InRange(g) && Clean(g, c)
    requires (IsMovQL(ins.code) || IsArithmetic(ins.code)) ==> NoChar(ins.src, c) && NoChar(ins.dst, c)
    ensures Clean(Step(g, ins), c)
  {
    var op := ins.op;
    var src := StripComma(ins.src);
    if op == [] || op[0] == '.' || op[|op| - 1] == ':' {
    } else if IsMovQL(ins.code) {
      var (g1, s) := OperandNode(g, src);
      OperandClean(g, src, c);
      ExtractAvoids(ins.dst, c);
      AttachClean(g1, s, ExtractRegister(ins.dst), c);
    } else if IsArithmetic(ins.code) {
      var d := ExtractRegister(ins.dst);
      ExtractAvoids(ins.dst, c);
      var (g1, dn) := RegisterNode(g, d);
      RegisterClean(g, d, c);
      var (g2, sn) := OperandNode(g1, src);
      OperandClean(g1, src, c);
      var (g3, r) := OperationNode(g2, OpName(ins.code), [dn, sn]);
      OperationClean(g2, OpName(ins.code), [dn, sn], c);
      AttachClean(g3, r, d, c);
    }
  }

  lemma DecodeAvoids(line: string, c: char)
    requires NoChar(line, c)
    ensures NoChar(Decode(line).src, c) && NoChar(Decode(line).dst, c)
    ensures OperandsAvoid(line, c)
  {
    WordsAvoid(line, c);
  }

  lemma {:induction false} BuildClean(g: Graph, lines: seq<string>, c: char)
    requires InRange(g) && Clean(g, c)
    requires forall k :: 0 <= k < |lines| ==> OperandsAvoid(lines[k], c)
    ensures Clean(Build(g, lines), c)
    decreases |lines|
  {
    if lines != [] {
      assert OperandsAvoid(lines[0], c);
      StepClean(g, Decode(lines[0]), c);
      BuildClean(Parse(g, lines[0]), lines[1..], c);
    }
  }

  /** A generated line: a blank, a mnemonic starting with `m`, `a` or `s`,
      and a last character that is not `:`. */
  predicate GeneratedLine(l: string) {
    |l| >= 2 && l[0] == ' ' && (l[1] == 'm' || l[1] == 'a' || l[1] == 's') && l[|l| - 1] != ':'
  }

  lemma EmitShape(nodes: seq<Node>, k: nat)
    requires k < |nodes| && Acyclic(nodes) && LabelledBut(nodes, -1)
    requires LabelsAvoid(nodes, ':') && OpsNamed(nodes)
    ensures forall j :: 0 <= j < |Emit(nodes, k)| ==> GeneratedLine(Emit(nodes, k)[j])
  {
    var node := nodes[k];
    if node.labels != [] {
      var main := node.labels[|node.labels| - 1];
      assert NoChar(main, ':');
      assert main == [] || main[|main| - 1] != ':';
    }
  }

  lemma {:induction false} GenerateShape(nodes: seq<Node>, n: nat)
    requires n <= |nodes| && Acyclic(nodes) && LabelledBut(nodes, -1)
    requires LabelsAvoid(nodes, ':') && OpsNamed(nodes)
    ensures forall j :: 0 <= j < |GenerateUpTo(nodes, n)| ==> GeneratedLine(GenerateUpTo(nodes, n)[j])
  {
    if n > 0 {
      GenerateShape(nodes, n - 1);
      EmitShape(nodes, n - 1);
    }
  }

  // ---------------------------------------------------------------------
  // DAGOptimizer

  /** `DAGOptimizer`: the node list and the two maps, changed in place. */
  class DagOptimizer {
    var nodes: seq<Node>
    var registerMap: map<string, nat>
    var constantMap: map<string, nat>

    function State(): Graph
      reads this
    {
      Graph(nodes, registerMap, constantMap)
    }

    ghost predicate Valid()
      reads this
    {
      Inv(State())
    }

    constructor()
      ensures State() == Empty && Valid()
    {
      nodes, registerMap, constantMap := [], map[], map[];
    }

    /** `clear`. */
    method Clear()
      modifies this
      ensures State() == Empty && Valid()
    {
      nodes, registerMap, constantMap := [], map[], map[];
    }

    method GetConstantNode(value: string) returns (n: nat)
      requires Valid()
      modifies this
      ensures (State(), n) == ConstantNode(old(State()), value)
      ensures Valid() && nodes[n].kind == CONSTANT && nodes[n].value == value
    {
      ConstantNodeInv(State(), value);
      if value in constantMap {
        n := constantMap[value];
      } else {
        n := |nodes|;
        nodes := nodes + [Node(CONSTANT, value, "", [], [])];
        constantMap := constantMap[value := n];
      }
    }

    method GetRegisterNode(reg: string) returns (n: nat)
      requires Valid()
      modifies this
      ensures (State(), n) == RegisterNode(old(State()), reg)
      ensures Valid() && reg in registerMap && registerMap[reg] == n
    {
      RegisterNodeInv(State(), reg);
      if reg in registerMap {
        n := registerMap[reg];
      } else {
        n := |nodes|;
        nodes := nodes + [Node(REGISTER, reg, "", [], [reg])];
        registerMap := registerMap[reg := n];
      }
    }

    /** `findOperationNode`: the first matching operation node. */
    method FindOperationNode(op: string, operands: seq<nat>) returns (r: Option<nat>)
      ensures r == FindOperation(nodes, op, operands, 0)
      ensures r.Some? ==> r.value < |nodes| && IsOperation(nodes[r.value], op, operands)
      ensures r.None? ==> forall j :: 0 <= j < |nodes| ==> !IsOperation(nodes[j], op, operands)
    {
      var k := 0;
      while k < |nodes|
        invariant k <= |nodes|
        invariant FindOperation(nodes, op, operands, 0) == FindOperation(nodes, op, operands, k)
      {
        if nodes[k].kind == OPERATION && nodes[k].operation == op && nodes[k].children == operands {
          return Some(k);
        }
        k := k + 1;
      }
      r := None;
    }

    /** `createOperationNode`: a new, unlabelled operation node. */
    method CreateOperationNode(op: string, operands: seq<nat>) returns (n: nat)
      modifies this
      ensures nodes == old(nodes) + [Node(OPERATION, "", op, operands, [])] && n == |old(nodes)|
      ensures registerMap == old(registerMap) && constantMap == old(constantMap)
    {
      n := |nodes|;
      nodes := nodes + [Node(OPERATION, "", op, operands, [])];
    }

    method SourceNode(src: string) returns (n: nat)
      requires Valid()
      modifies this
      ensures (State(), n) == OperandNode(old(State()), src) && Valid()
    {
      if IsImmediate(src) {
        n := GetConstantNode(src);
      } else {
        n := GetRegisterNode(ExtractRegister(src));
      }
    }

    method Label(n: nat, reg: string)
      requires InRange(State()) && n < |nodes|
      modifies this
      ensures State() == Attach(old(State()), n, reg)
    {
      registerMap := registerMap[reg := n];
      if reg !in nodes[n].labels {
        nodes := nodes[n := nodes[n].(labels := nodes[n].labels + [reg])];
      }
    }

    /** `parseInstruction`. */
    method ParseInstruction(instr: string)
      requires Valid()
      modifies this
      ensures State() == Parse(old(State()), instr) && Valid()
    {
      StepInv(State(), Decode(instr));
      var ins := Decode(instr);
      var op := ins.op;
      if op == [] || op[0] == '.' || op[|op| - 1] == ':' {
        return;
      }
      if IsMovQL(ins.code) {
        var s := SourceNode(StripComma(ins.src));
        Label(s, ExtractRegister(ins.dst));
      } else if IsArithmetic(ins.code) {
        var d := ExtractRegister(ins.dst);
        var dn := GetRegisterNode(d);
        var sn := SourceNode(StripComma(ins.src));
        ghost var g2 := State();
        var found := FindOperationNode(OpName(ins.code), [dn, sn]);
        var r: nat;
        if found.Some? {
          r := found.value;
        } else {
          r := CreateOperationNode(OpName(ins.code), [dn, sn]);
        }
        assert (State(), r) == OperationNode(g2, OpName(ins.code), [dn, sn]);
        Label(r, d);
      }
    }

    /** `buildDAG`. */
    method BuildDag(instructions: seq<string>)
      requires Valid()
      modifies this
      ensures State() == Build(old(State()), instructions) && Valid()
    {
      var i := 0;
      while i < |instructions|
        invariant i <= |instructions| && Valid()
        invariant Build(old(State()), instructions) == Build(State(), instructions[i..])
      {
        assert instructions[i..][1..] == instructions[i + 1..];
        ParseInstruction(instructions[i]);
        i := i + 1;
      }
    }

    /** `generateOptimizedCode`: one line per labelled constant or
        operation node, in node order. */
    method GenerateOptimizedCode() returns (result: seq<string>)
      requires Acyclic(nodes) && LabelledBut(nodes, -1)
      ensures result == Generate(nodes)
      ensures |result| <= |nodes|
    {
      result := [];
      var k := 0;
      while k < |nodes|
        invariant k <= |nodes| && result == GenerateUpTo(nodes, k)
      {
        assert GenerateUpTo(nodes, k + 1) == result + Emit(nodes, k);
        var node := nodes[k];
        if node.labels != [] {
          var main := node.labels[|node.labels| - 1];
          if node.kind == CONSTANT {
            result := result + [" movq " + node.value + ", %" + main];
          } else if node.kind == OPERATION && |node.children| == 2 {
            var right := nodes[node.children[1]];
            var rightOp := if right.kind == CONSTANT then right.value
                           else "%" + right.labels[|right.labels| - 1];
            result := result + [" " + node.operation + "q " + rightOp + ", %" + main];
          }
        }
        k := k + 1;
      }
      GenerateCount(nodes, |nodes|);
    }
  }
}
