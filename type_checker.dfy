/** The prototype type checker. Every error it finds ends the process
    (`exit(0)`); here a visit reports that as `false` (or `None` for an
    expression's type). Variables map to type tags in a scoped
    environment; functions map to their return tags. */
module TypeChecking {
  import opened Wrappers
  import opened SemanticTypes
  import opened Environments
  import opened ProtoAst

  type Functions = map<string, TType>

  predicate IsArith(op: BinaryOp) {
    op == PLUS_OP || op == MINUS_OP || op == MUL_OP || op == DIV_OP || op == POW_OP
  }

  /** The type of an expression, or `None` when checking it is fatal.
      Literals are i32 and bool; an identifier has its innermost
      declaration's type; a call has the callee's return type (its
      arguments are not looked at). */
  function TypeOf(ss: Scopes<TType>, fs: Functions, e: Exp): (r: Option<TType>)
    ensures e.BinaryExp? && r.Some? ==> if IsArith(e.op) then IsNumeric(r.value) else r.value == BOOL
    ensures e.FcallExp? ==> (r.Some? <==> e.nombre in fs)
    ensures e.IdExp? ==> r == Find(ss, e.name)
    decreases e
  {
    match e
    case NumberExp(_) => Some(I32)
    case BoolExp(_) => Some(BOOL)
    case IdExp(x) => Find(ss, x)
    case FcallExp(f, _) => if f in fs then Some(fs[f]) else None
    case BinaryExp(l, r, op) =>
      var lt :- TypeOf(ss, fs, l);
      var rt :- TypeOf(ss, fs, r);
      if IsArith(op) then
        if IsNumeric(lt) && IsNumeric(rt) && lt == rt then Some(lt) else None
      else if op == LE_OP then
        if IsNumeric(lt) && IsNumeric(rt) && lt == rt then Some(BOOL) else None
      else
        if lt == BOOL && rt == BOOL then Some(BOOL) else None
  }

  /** Whether checking a statement succeeds. */
  predicate StmOk(ss: Scopes<TType>, fs: Functions, s: Stm) {
    match s
    case PrintStm(e) =>
      var t := TypeOf(ss, fs, e);
      t.Some? && (t.value == I32 || t.value == BOOL)
    case AssignStm(id, e) =>
      var v := Find(ss, id);
      var t := TypeOf(ss, fs, e);
      v.Some? && t.Some? && v.value == t.value
    case ReturnStm(None) => true
    case ReturnStm(Some(e)) =>
      var t := TypeOf(ss, fs, e);
      t.Some? && (IsNumeric(t.value) || t.value == BOOL || t.value == VOID)
  }

  /** The scopes after declaring `vars` with tag `t`, one at a time, or
      `None` when a name is already visible in any scope. */
  function DeclareVars(ss: Scopes<TType>, t: TType, vars: seq<string>): (r: Option<Scopes<TType>>)
    ensures r.Some? && ss != [] ==> |r.value| == |ss| && r.value[..|ss| - 1] == ss[..|ss| - 1]
    decreases |vars|
  {
    if vars == [] then Some(ss)
    else if Find(ss, vars[0]).Some? then None
    else DeclareVars(Declared(ss, vars[0], t), t, vars[1..])
  }

  function CheckVarDec(ss: Scopes<TType>, v: VarDec): Option<Scopes<TType>> {
    var t := StringToType(v.tipo);
    if t == NOTYPE then None else DeclareVars(ss, t, v.variables)
  }

  function CheckVarDecs(ss: Scopes<TType>, vds: seq<VarDec>): Option<Scopes<TType>>
    decreases |vds|
  {
    if vds == [] then Some(ss)
    else
      var ss' :- CheckVarDec(ss, vds[0]);
      CheckVarDecs(ss', vds[1..])
  }

  predicate StmsOk(ss: Scopes<TType>, fs: Functions, stms: seq<Stm>) {
    forall i :: 0 <= i < |stms| ==> StmOk(ss, fs, stms[i])
  }

  /** A body is checked in a scope of its own. */
  predicate BodyOk(ss: Scopes<TType>, fs: Functions, b: Body) {
    var inner := CheckVarDecs(ss + [map[]], b.vdlist);
    inner.Some? && StmsOk(inner.value, fs, b.stmlist)
  }

  /** Parameters are declared without checking for earlier names; an
      invalid parameter type is fatal. */
  function DeclareParams(ss: Scopes<TType>, ps: seq<Param>): Option<Scopes<TType>>
    decreases |ps|
  {
    if ps == [] then Some(ss)
    else
      var t := StringToType(ps[0].tipo);
      if t == NOTYPE then None else DeclareParams(Declared(ss, ps[0].nombre, t), ps[1..])
  }

  predicate FunDecOk(ss: Scopes<TType>, fs: Functions, f: FunDec) {
    var withParams := DeclareParams(ss + [map[]], f.params);
    withParams.Some? && BodyOk(withParams.value, fs, f.cuerpo)
  }

  /** The function table after `add_function` on each declaration, or
      `None` on a repeated name or an invalid return type. */
  function RegisterFunctions(fs: Functions, fds: seq<FunDec>): (r: Option<Functions>)
    ensures r.Some? ==> forall f :: f in fs ==> f in r.value && r.value[f] == fs[f]
    ensures r.Some? ==> forall i :: 0 <= i < |fds| ==> fds[i].nombre !in fs
    decreases |fds|
  {
    if fds == [] then Some(fs)
    else
      var t := StringToType(fds[0].tipo);
      if fds[0].nombre in fs || t == NOTYPE then None
      else RegisterFunctions(fs[fds[0].nombre := t], fds[1..])
  }

  predicate ProgramOk(p: Program) {
    var fs := RegisterFunctions(map[], p.fdlist);
    fs.Some? &&
    var globals := CheckVarDecs([map[]], p.vdlist);
    globals.Some? &&
    forall i :: 0 <= i < |p.fdlist| ==> FunDecOk(globals.value, fs.value, p.fdlist[i])
  }

  class TypeChecker {
    var env: Environment<TType>
    var functions: Functions

    constructor ()
      ensures fresh(env) && env.scopes == [] && functions == map[]
    {
      env := new Environment<TType>();
      functions := map[];
    }

    /** `add_function`. */
    method AddFunction(fd: FunDec) returns (ok: bool)
      modifies this
      ensures env == old(env)
      ensures ok <==> fd.nombre !in old(functions) && StringToType(fd.tipo) != NOTYPE
      ensures ok ==> functions == old(functions)[fd.nombre := StringToType(fd.tipo)]
    {
      if fd.nombre in functions {
        return false;
      }
      var returnType := new Type();
      var valid := returnType.SetBasicType(fd.tipo);
      if !valid {
        return false;
      }
      functions := functions[fd.nombre := returnType.ttype];
      return true;
    }

    /** Checks one statement; the environment is only read. */
    method VisitStm(s: Stm) returns (ok: bool)
      ensures ok == StmOk(env.scopes, functions, s)
    {
      match s
      case PrintStm(e) =>
        var t := TypeOf(env.scopes, functions, e);
        ok := t.Some? && (t.value == I32 || t.value == BOOL);
      case AssignStm(id, e) =>
        var declared := env.Contains(id);
        if !declared {
          return false;
        }
        var entry := env.Lookup(id);
        var expType := TypeOf(env.scopes, functions, e);
        ok := entry.Some? && expType.Some? && entry.value == expType.value;
      case ReturnStm(ret) =>
        if ret.Some? {
          var t := TypeOf(env.scopes, functions, ret.value);
          ok := t.Some? && (IsNumeric(t.value) || t.value == BOOL || t.value == VOID);
        } else {
          ok := true;
        }
    }

    /** Declares each variable of a declaration in the innermost scope;
        a name visible in any scope is fatal. */
    method VisitVarDec(v: VarDec) returns (ok: bool)
      modifies env
      ensures ok <==> CheckVarDec(old(env.scopes), v).Some?
      ensures ok ==> env.scopes == CheckVarDec(old(env.scopes), v).value
    {
      var t := new Type();
      var valid := t.SetBasicType(v.tipo);
      if !valid {
        return false;
      }
      var tt := t.ttype;
      var i := 0;
      while i < |v.variables|
        invariant 0 <= i <= |v.variables|
        invariant DeclareVars(old(env.scopes), tt, v.variables)
               == DeclareVars(env.scopes, tt, v.variables[i..])
      {
        var id := v.variables[i];
        assert v.variables[i..][0] == id;
        var seen := env.Contains(id);
        if seen {
          assert Find(env.scopes, id).Some?;
          return false;
        }
        var _ := env.Declare(id, tt);
        assert v.variables[i..][1..] == v.variables[i + 1..];
        i := i + 1;
      }
      assert v.variables[i..] == [];
      return true;
    }

    method VisitVarDecs(vds: seq<VarDec>) returns (ok: bool)
      modifies env
      ensures ok <==> CheckVarDecs(old(env.scopes), vds).Some?
      ensures ok ==> env.scopes == CheckVarDecs(old(env.scopes), vds).value
    {
      var i := 0;
      while i < |vds|
        invariant 0 <= i <= |vds|
        invariant CheckVarDecs(old(env.scopes), vds) == CheckVarDecs(env.scopes, vds[i..])
      {
        ok := VisitVarDec(vds[i]);
        if !ok {
          return false;
        }
        assert vds[i..][1..] == vds[i + 1..];
        i := i + 1;
      }
      return true;
    }

    method VisitBody(b: Body) returns (ok: bool)
      modifies env
      ensures ok == BodyOk(old(env.scopes), functions, b)
      ensures ok ==> env.scopes == old(env.scopes)
    {
      env.PushScope();
      ok := VisitVarDecs(b.vdlist);
      if !ok {
        return false;
      }
      var i := 0;
      while i < |b.stmlist|
        invariant 0 <= i <= |b.stmlist|
        invariant env.scopes == CheckVarDecs(old(env.scopes) + [map[]], b.vdlist).value
        invariant forall k :: 0 <= k < i ==> StmOk(env.scopes, functions, b.stmlist[k])
      {
        ok := VisitStm(b.stmlist[i]);
        if !ok {
          return false;
        }
        i := i + 1;
      }
      var _ := env.PopScope();
      RestoreAfterDecls(old(env.scopes), b.vdlist);
      return true;
    }

    method VisitFunDec(f: FunDec) returns (ok: bool)
      modifies env
      ensures ok == FunDecOk(old(env.scopes), functions, f)
      ensures ok ==> env.scopes == old(env.scopes)
    {
      env.PushScope();
      var i := 0;
      while i < |f.params|
        invariant 0 <= i <= |f.params|
        invariant DeclareParams(old(env.scopes) + [map[]], f.params) == DeclareParams(env.scopes, f.params[i..])
        invariant |env.scopes| == |old(env.scopes)| + 1
        invariant env.scopes[..|old(env.scopes)|] == old(env.scopes)
      {
        var pt := new Type();
        var valid := pt.SetBasicType(f.params[i].tipo);
        if !valid {
          return false;
        }
        var _ := env.Declare(f.params[i].nombre, pt.ttype);
        assert f.params[i..][1..] == f.params[i + 1..];
        i := i + 1;
      }
      ok := VisitBody(f.cuerpo);
      if !ok {
        return false;
      }
      var _ := env.PopScope();
      return true;
    }

    /** Registers every function first, then checks the globals and each
        function in a scope of their own. */
    method VisitProgram(p: Program) returns (ok: bool)
      requires env.scopes == [] && functions == map[]
      modifies this, env
      ensures ok == ProgramOk(p)
    {
      ok := AddFunctions(p.fdlist);
      if !ok {
        return false;
      }
      env.PushScope();
      assert env.scopes == [map[]];
      ok := VisitVarDecs(p.vdlist);
      if !ok {
        return false;
      }
      ok := VisitFunDecs(p.fdlist);
      if !ok {
        return false;
      }
      var _ := env.PopScope();
    }

    method AddFunctions(fds: seq<FunDec>) returns (ok: bool)
      modifies this
      ensures env == old(env)
      ensures ok <==> RegisterFunctions(old(functions), fds).Some?
      ensures ok ==> functions == RegisterFunctions(old(functions), fds).value
    {
      var i := 0;
      while i < |fds|
        invariant 0 <= i <= |fds|
        invariant env == old(env)
        invariant RegisterFunctions(old(functions), fds) == RegisterFunctions(functions, fds[i..])
      {
        assert fds[i..][0] == fds[i];
        ok := AddFunction(fds[i]);
        if !ok {
          return false;
        }
        assert fds[i..][1..] == fds[i + 1..];
        i := i + 1;
      }
      assert fds[i..] == [];
      return true;
    }

    method VisitFunDecs(fds: seq<FunDec>) returns (ok: bool)
      modifies env
      ensures ok <==> forall k :: 0 <= k < |fds| ==> FunDecOk(old(env.scopes), functions, fds[k])
      ensures ok ==> env.scopes == old(env.scopes)
    {
      var j := 0;
      while j < |fds|
        invariant 0 <= j <= |fds|
        invariant env.scopes == old(env.scopes)
        invariant forall k :: 0 <= k < j ==> FunDecOk(old(env.scopes), functions, fds[k])
      {
        ok := VisitFunDec(fds[j]);
        if !ok {
          return false;
        }
        j := j + 1;
      }
      return true;
    }
  }

  /** Declarations only add to the innermost scope: the scopes below it
      are those the declarations started from. */
  lemma {:induction false} RestoreAfterDecls(ss: Scopes<TType>, vds: seq<VarDec>)
    requires CheckVarDecs(ss + [map[]], vds).Some?
    ensures |CheckVarDecs(ss + [map[]], vds).value| == |ss| + 1
    ensures CheckVarDecs(ss + [map[]], vds).value[..|ss|] == ss
  {
    DeclsKeepOuter(ss + [map[]], vds);
    assert (ss + [map[]])[..|ss|] == ss;
  }

  lemma {:induction false} DeclsKeepOuter(ss: Scopes<TType>, vds: seq<VarDec>)
    requires ss != []
    requires CheckVarDecs(ss, vds).Some?
    ensures |CheckVarDecs(ss, vds).value| == |ss|
    ensures CheckVarDecs(ss, vds).value[..|ss| - 1] == ss[..|ss| - 1]
    decreases |vds|
  {
    if vds != [] {
      DeclsKeepOuter(CheckVarDec(ss, vds[0]).value, vds[1..]);
    }
  }

  predicate NoUntyped(ss: Scopes<TType>, fs: Functions) {
    (forall k, x :: 0 <= k < |ss| && x in ss[k] ==> ss[k][x] != NOTYPE) &&
    (forall f :: f in fs ==> fs[f] != NOTYPE)
  }

  /** With no NOTYPE entry in the tables, no expression is given NOTYPE. */
  lemma {:induction false} TypeOfNeverNoType(ss: Scopes<TType>, fs: Functions, e: Exp)
    requires NoUntyped(ss, fs)
    requires TypeOf(ss, fs, e).Some?
    ensures TypeOf(ss, fs, e).value != NOTYPE
    decreases e
  {
    match e
    case BinaryExp(l, r, op) =>
      TypeOfNeverNoType(ss, fs, l);
    case IdExp(x) =>
      var k := InnermostIndex(ss, x);
      assert TypeOf(ss, fs, e).value == ss[k][x];
    case _ =>
  }

  /** Typing rules of the binary operators, read backwards from a
      successful result: arithmetic keeps the common numeric type of its
      operands, `<=` compares equal numeric types, `and` joins booleans. */
  lemma BinaryTyping(ss: Scopes<TType>, fs: Functions, l: Exp, r: Exp, op: BinaryOp, t: TType)
    requires TypeOf(ss, fs, BinaryExp(l, r, op)) == Some(t)
    ensures IsArith(op) ==> IsNumeric(t) && TypeOf(ss, fs, l) == Some(t) && TypeOf(ss, fs, r) == Some(t)
    ensures op == LE_OP ==>
      t == BOOL && TypeOf(ss, fs, l) == TypeOf(ss, fs, r) && IsNumeric(TypeOf(ss, fs, l).value)
    ensures op == AND_OP ==> t == BOOL && TypeOf(ss, fs, l) == Some(BOOL) && TypeOf(ss, fs, r) == Some(BOOL)
  {
  }

  /** A call is typed by the callee's registered return type alone: its
      arguments are never checked. */
  lemma CallArgumentsUnchecked(ss: Scopes<TType>, fs: Functions, f: string, args: seq<Exp>)
    ensures TypeOf(ss, fs, FcallExp(f, args)) == TypeOf(ss, fs, FcallExp(f, []))
    ensures TypeOf(ss, fs, FcallExp(f, args)).Some? <==> f in fs
  {
  }

  /** A successful declaration introduces names that were visible nowhere
      before and are pairwise distinct, each bound to the declared tag. */
  lemma {:induction false} DeclareVarsFresh(ss: Scopes<TType>, t: TType, vars: seq<string>)
    requires DeclareVars(ss, t, vars).Some?
    ensures forall i :: 0 <= i < |vars| ==> Find(ss, vars[i]).None?
    ensures forall i, j :: 0 <= i < j < |vars| ==> vars[i] != vars[j]
    ensures forall i :: 0 <= i < |vars| ==> Find(DeclareVars(ss, t, vars).value, vars[i]) == Some(t)
    decreases |vars|
  {
    if vars != [] {
      var x := vars[0];
      var ss1 := Declared(ss, x, t);
      DeclareVarsFresh(ss1, t, vars[1..]);
      forall i | 1 <= i < |vars|
        ensures Find(ss, vars[i]).None? && vars[i] != x
      {
        FindAfterDeclare(ss, x, t, vars[i]);
        assert vars[i] == vars[1..][i - 1];
      }
      forall i, j | 0 <= i < j < |vars| ensures vars[i] != vars[j] {
        if i > 0 {
          assert vars[i] == vars[1..][i - 1] && vars[j] == vars[1..][j - 1];
        }
      }
      DeclareVarsKeeps(ss1, t, vars[1..], x);
      FindAfterDeclare(ss, x, t, x);
    }
  }

  /** Declaring other names does not change what a name is bound to. */
  lemma {:induction false} DeclareVarsKeeps(ss: Scopes<TType>, t: TType, vars: seq<string>, x: string)
    requires DeclareVars(ss, t, vars).Some?
    requires forall i :: 0 <= i < |vars| ==> vars[i] != x
    ensures Find(DeclareVars(ss, t, vars).value, x) == Find(ss, x)
    decreases |vars|
  {
    if vars != [] {
      FindAfterDeclare(ss, vars[0], t, x);
      DeclareVarsKeeps(Declared(ss, vars[0], t), t, vars[1..], x);
    }
  }

  /** A successful registration holds pairwise distinct names, each with
      a valid return tag. */
  lemma {:induction false} RegisteredFunctions(fs: Functions, fds: seq<FunDec>)
    requires RegisterFunctions(fs, fds).Some?
    ensures forall i, j :: 0 <= i < j < |fds| ==> fds[i].nombre != fds[j].nombre
    ensures forall i :: 0 <= i < |fds| ==> fds[i].nombre !in fs
    ensures forall i :: 0 <= i < |fds| ==>
      fds[i].nombre in RegisterFunctions(fs, fds).value &&
      RegisterFunctions(fs, fds).value[fds[i].nombre] == StringToType(fds[i].tipo) != NOTYPE
    decreases |fds|
  {
    if fds != [] {
      var f := fds[0];
      var fs1 := fs[f.nombre := StringToType(f.tipo)];
      RegisteredFunctions(fs1, fds[1..]);
      forall i | 1 <= i < |fds|
        ensures fds[i].nombre != f.nombre && fds[i].nombre !in fs
      {
        assert fds[i] == fds[1..][i - 1];
      }
    }
  }
}
