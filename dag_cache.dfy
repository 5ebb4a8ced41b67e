/** The generator's common-subexpression cache: an expression built only
    from literals, identifiers and `+ - * /` gets a textual signature, and
    a `let` whose initialiser has a signature already cached reloads the
    stored value instead of evaluating it again. */
module DagCache {
  import opened Wrappers
  import opened Text
  import opened Ast
  import opened SemanticTypes

  /** `DAGCacheEntry`: where the value was stored and with which type. */
  datatype CacheEntry = CacheEntry(offset: int, ttype: TType, signature: string)

  type Cache = map<string, CacheEntry>

  /** The four operators a signature is built for. */
  predicate IsCachedOp(op: BinaryOp) {
    op == PLUS_OP || op == MINUS_OP || op == MUL_OP || op == DIV_OP
  }

  /** The expressions whose signature is not empty. */
  predicate HasSignature(e: Exp) {
    e.NumberExp? || e.BoolExp? || e.IdExp? || (e.BinaryExp? && IsCachedOp(e.op))
  }

  /** Built from literals, identifiers and the four cached operators only. */
  predicate Cacheable(e: Exp) {
    match e
    case NumberExp(_) => true
    case BoolExp(_) => true
    case IdExp(_) => true
    case BinaryExp(l, r, op) => IsCachedOp(op) && Cacheable(l) && Cacheable(r)
    case _ => false
  }

  /** `generateExprSignature`: `NUM:v`, `BOOL:0`/`BOOL:1`, `ID:name`, and
      `BIN:(L)op(R)` for the four cached operators, with the children's
      signatures even when one of them is empty; anything else gets `""`. */
  function Signature(e: Exp): (s: string)
    ensures s != "" <==> HasSignature(e)
    ensures e.BinaryExp? && IsCachedOp(e.op) ==>
              s == "BIN:(" + Signature(e.left) + ")" + BinopToChar(e.op) + "(" + Signature(e.right) + ")"
  {
    match e
    case NumberExp(v) => "NUM:" + IntToString(v)
    case BoolExp(b) => "BOOL:" + (if b != 0 then "1" else "0")
    case IdExp(x) => "ID:" + x
    case BinaryExp(l, r, op) =>
      if IsCachedOp(op) then "BIN:(" + Signature(l) + ")" + BinopToChar(op) + "(" + Signature(r) + ")"
      else ""
    case _ => ""
  }

  /** The expression reads variable `x` somewhere inside it. */
  predicate Reads(e: Exp, x: string) {
    match e
    case IdExp(y) => y == x
    case BinaryExp(l, r, _) => Reads(l, x) || Reads(r, x)
    case FcallExp(_, args) => exists i :: 0 <= i < |args| && Reads(args[i], x)
    case ArrayAccessExp(b, i) => Reads(b, x) || Reads(i, x)
    case FieldAccessExp(o, _) => Reads(o, x)
    case StructInitExp(_, inits) => exists i :: 0 <= i < |inits| && Reads(inits[i].value, x)
    case _ => false
  }

  /** The text invalidation searches for when `name` is assigned. */
  function Pattern(name: string): string {
    "ID:" + name
  }

  lemma {:induction false} ContainsWithin(pre: string, s: string, post: string, p: string)
    requires Contains(s, p)
    ensures Contains(pre + s + post, p)
    decreases |s|
  {
    if StartsWith(s, p) {
      assert s == p + s[|p|..];
      assert pre + s + post == pre + p + (s[|p|..] + post);
      ContainsMiddle(pre, p, s[|p|..] + post);
    } else {
      assert pre + s + post == (pre + [s[0]]) + s[1..] + post;
      ContainsWithin(pre + [s[0]], s[1..], post, p);
    }
  }

  /** A cacheable expression's signature names every variable it reads, so
      assigning any of them invalidates the entry. */
  lemma {:induction false} SignatureNamesReads(e: Exp, x: string)
    requires Cacheable(e) && Reads(e, x)
    ensures Contains(Signature(e), Pattern(x))
    decreases e
  {
    match e
    case IdExp(y) =>
      ContainsMiddle([], Pattern(x), []);
      assert [] + Pattern(x) + [] == Signature(e);
    case BinaryExp(l, r, op) =>
      var o := BinopToChar(op);
      if Reads(l, x) {
        SignatureNamesReads(l, x);
        ContainsWithin("BIN:(", Signature(l), ")" + o + "(" + Signature(r) + ")", Pattern(x));
        assert Signature(e) == "BIN:(" + Signature(l) + (")" + o + "(" + Signature(r) + ")");
      } else {
        SignatureNamesReads(r, x);
        ContainsWithin("BIN:(" + Signature(l) + ")" + o + "(", Signature(r), ")", Pattern(x));
      }
  }

  lemma {:induction false} MissingCharNotContained(s: string, p: string, j: nat)
    requires j < |p| && NoChar(s, p[j])
    ensures !Contains(s, p)
    decreases |s|
  {
    if |p| <= |s| {
      assert s[..|p|][j] == s[j];
    }
    if s != [] {
      MissingCharNotContained(s[1..], p, j);
    }
  }

  /** Two different calls under the same operator and constant share a
      signature: the call's own signature is empty, so `f() + 1` and
      `g() + 1` are the same cache key. */
  lemma CallsCollide()
    ensures var a := BinaryExp(FcallExp("f", []), NumberExp(1), PLUS_OP);
            var b := BinaryExp(FcallExp("g", []), NumberExp(1), PLUS_OP);
            a != b && Signature(a) == Signature(b) == "BIN:()+(NUM:1)"
  {
    assert IntToString(1) == "1";
  }

  /** A variable read only inside a call does not appear in the signature:
      assigning it leaves the entry for `f(x) + 1` in place. */
  lemma CallArgumentNotNamed()
    ensures var e := BinaryExp(FcallExp("f", [IdExp("x")]), NumberExp(1), PLUS_OP);
            Reads(e, "x") && Signature(e) != "" && !Contains(Signature(e), Pattern("x"))
  {
    var e := BinaryExp(FcallExp("f", [IdExp("x")]), NumberExp(1), PLUS_OP);
    assert Reads(e.left.argumentos[0], "x");
    assert IntToString(1) == "1";
    assert Signature(e) == "BIN:()+(NUM:1)";
    MissingCharNotContained("BIN:()+(NUM:1)", Pattern("x"), 3);
  }

  /** Invalidation matches text, not names: assigning `x` also drops the
      entries that read only `xy`. */
  lemma PrefixNameInvalidated()
    ensures Contains(Signature(IdExp("xy")), Pattern("x")) && !Reads(IdExp("xy"), "x")
  {
    assert Signature(IdExp("xy")) == Pattern("x") + "y";
    ContainsMiddle([], Pattern("x"), "y");
    assert [] + Pattern("x") + "y" == Pattern("x") + "y";
  }

  // ---------------------------------------------------------------------
  // The cache operations

  /** `lookupDAGCache`: nothing when the cache is off or the signature empty. */
  function Lookup(enabled: bool, cache: Cache, sig: string): (r: Option<CacheEntry>)
    ensures r.Some? <==> enabled && sig != "" && sig in cache
    ensures r.Some? ==> r.value == cache[sig]
  {
    if !enabled || sig == "" || sig !in cache then None else Some(cache[sig])
  }

  /** `saveToDAGCache`: overwrites the entry for a non-empty signature. */
  function Save(enabled: bool, cache: Cache, sig: string, entry: CacheEntry): (r: Cache)
    ensures !enabled || sig == "" ==> r == cache
    ensures enabled && sig != "" ==> r == cache[sig := entry]
  {
    if !enabled || sig == "" then cache else cache[sig := entry]
  }

  /** `invalidateDAGCache`: the entries whose key contains `ID:name` go,
      the others stay as they were. */
  function Invalidated(enabled: bool, cache: Cache, name: string): (r: Cache)
    ensures !enabled ==> r == cache
    ensures r.Keys <= cache.Keys
    ensures forall k :: k in r ==> r[k] == cache[k]
    ensures enabled ==> forall k :: k in cache ==> (k in r <==> !Contains(k, Pattern(name)))
  {
    if !enabled then cache
    else map k | k in cache && !Contains(k, Pattern(name)) :: cache[k]
  }

  /** After assigning `x`, no cacheable expression that reads `x` is found. */
  lemma InvalidatedForgetsReaders(cache: Cache, x: string, e: Exp)
    requires Cacheable(e) && Reads(e, x)
    ensures Lookup(true, Invalidated(true, cache, x), Signature(e)).None?
  {
    SignatureNamesReads(e, x);
  }
}
