/** `Environment<T>`: a stack of scopes, innermost last, each mapping names
    to values. Lookups search from the innermost scope outwards, so an
    inner binding shadows outer ones. */
module Environments {
  import opened Wrappers

  type Scopes<T> = seq<map<string, T>>

  /** The index of the innermost scope binding `name`, or -1. */
  function InnermostIndex<T>(ss: Scopes<T>, name: string): (r: int)
    ensures -1 <= r < |ss|
    ensures r >= 0 ==> name in ss[r] && forall k :: r < k < |ss| ==> name !in ss[k]
    ensures r < 0 ==> forall k :: 0 <= k < |ss| ==> name !in ss[k]
    decreases |ss|
  {
    if ss == [] then -1
    else if name in ss[|ss| - 1] then |ss| - 1
    else InnermostIndex(ss[..|ss| - 1], name)
  }

  /** The value `name` is bound to as seen from the innermost scope. */
  function Find<T>(ss: Scopes<T>, name: string): (r: Option<T>)
    ensures r.Some? <==> exists k :: 0 <= k < |ss| && name in ss[k]
  {
    var i := InnermostIndex(ss, name);
    if i < 0 then None else Some(ss[i][name])
  }

  /** The scopes after `declare(name, value)`: a first scope is pushed when
      there is none, and the innermost scope binds `name` to `value`,
      replacing any binding it had. */
  function Declared<T>(ss: Scopes<T>, name: string, value: T): (r: Scopes<T>)
    ensures |r| == if ss == [] then 1 else |ss|
    ensures r[..|r| - 1] == if ss == [] then [] else ss[..|ss| - 1]
  {
    var base := if ss == [] then [map[]] else ss;
    base[|base| - 1 := base[|base| - 1][name := value]]
  }

  /** The scopes after a successful `assign(name, value)`: the innermost
      scope holding `name` is updated, nothing else. */
  function Assigned<T>(ss: Scopes<T>, name: string, value: T): (r: Scopes<T>)
    requires InnermostIndex(ss, name) >= 0
    ensures |r| == |ss|
  {
    var i := InnermostIndex(ss, name);
    ss[i := ss[i][name := value]]
  }

  const PopError := "Environment::pop_scope sin scopes disponibles"

  class Environment<T> {
    var scopes: Scopes<T>

    constructor ()
      ensures scopes == []
    {
      scopes := [];
    }

    /** `find_scope_index`: scans from the innermost scope down. */
    method FindScopeIndex(name: string) returns (idx: int)
      ensures -1 <= idx < |scopes|
      ensures idx >= 0 ==> name in scopes[idx] && forall k :: idx < k < |scopes| ==> name !in scopes[k]
      ensures idx < 0 ==> forall k :: 0 <= k < |scopes| ==> name !in scopes[k]
      ensures idx == InnermostIndex(scopes, name)
    {
      idx := |scopes| - 1;
      while idx >= 0
        invariant -1 <= idx < |scopes|
        invariant forall k :: idx < k < |scopes| ==> name !in scopes[k]
        invariant InnermostIndex(scopes, name) == InnermostIndex(scopes[..idx + 1], name)
      {
        if name in scopes[idx] {
          return;
        }
        assert scopes[..idx + 1][..idx] == scopes[..idx];
        idx := idx - 1;
      }
    }

    method Clear()
      modifies this
      ensures scopes == []
    {
      scopes := [];
    }

    method PushScope()
      modifies this
      ensures scopes == old(scopes) + [map[]]
    {
      scopes := scopes + [map[]];
    }

    /** `pop_scope`: throws on an empty stack, otherwise drops the
        innermost scope only. */
    method PopScope() returns (r: Result<()>)
      modifies this
      ensures r.Err? <==> old(scopes) == []
      ensures r.Ok? ==> scopes == old(scopes)[..|old(scopes)| - 1]
      ensures r.Err? ==> scopes == old(scopes) && r.msg == PopError
    {
      if scopes == [] {
        return Err(PopError);
      }
      scopes := scopes[..|scopes| - 1];
      return Ok(());
    }

    method Depth() returns (d: nat)
      ensures d == |scopes|
    {
      return |scopes|;
    }

    method Empty() returns (b: bool)
      ensures b <==> |scopes| == 0
    {
      return scopes == [];
    }

    method Declare(name: string, value: T) returns (ok: bool)
      modifies this
      ensures ok
      ensures scopes == Declared(old(scopes), name, value)
    {
      if scopes == [] {
        PushScope();
      }
      scopes := scopes[|scopes| - 1 := scopes[|scopes| - 1][name := value]];
      return true;
    }

    method Assign(name: string, value: T) returns (ok: bool)
      modifies this
      ensures ok <==> Find(old(scopes), name).Some?
      ensures ok ==> scopes == Assigned(old(scopes), name, value)
      ensures !ok ==> scopes == old(scopes)
    {
      var scopeIndex := FindScopeIndex(name);
      if scopeIndex < 0 {
        return false;
      }
      scopes := scopes[scopeIndex := scopes[scopeIndex][name := value]];
      return true;
    }

    method Contains(name: string) returns (b: bool)
      ensures b <==> exists k :: 0 <= k < |scopes| && name in scopes[k]
    {
      var i := FindScopeIndex(name);
      return i >= 0;
    }

    /** `contains_current_scope`: only the innermost scope is searched. */
    method ContainsCurrentScope(name: string) returns (b: bool)
      ensures b <==> |scopes| > 0 && name in scopes[|scopes| - 1]
    {
      if scopes == [] {
        return false;
      }
      return name in scopes[|scopes| - 1];
    }

    /** `lookup`: the innermost binding of `name`, or null. Writes through
        the returned pointer are modelled by `Assign`, which updates the
        same entry. */
    method Lookup(name: string) returns (r: Option<T>)
      ensures r == Find(scopes, name)
      ensures r.Some? ==> exists k :: 0 <= k < |scopes| && name in scopes[k] && scopes[k][name] == r.value
    {
      var scopeIndex := FindScopeIndex(name);
      if scopeIndex < 0 {
        return None;
      }
      return Some(scopes[scopeIndex][name]);
    }
  }

  /** A declared name is found with its new value; every other name keeps
      the binding it had. */
  lemma FindAfterDeclare<T>(ss: Scopes<T>, name: string, value: T, other: string)
    ensures Find(Declared(ss, name, value), name) == Some(value)
    ensures other != name ==> Find(Declared(ss, name, value), other) == Find(ss, other)
  {
    var r := Declared(ss, name, value);
    assert name in r[|r| - 1];
    if other != name {
      if ss == [] {
        assert other !in r[0];
      } else {
        InnermostIndexSameKeys(ss, r, other);
        var i := InnermostIndex(ss, other);
        assert i >= 0 ==> r[i][other] == ss[i][other];
      }
    }
  }

  lemma {:induction false} InnermostIndexSameKeys<T>(ss: Scopes<T>, tt: Scopes<T>, name: string)
    requires |ss| == |tt|
    requires forall k :: 0 <= k < |ss| ==> (name in ss[k] <==> name in tt[k])
    ensures InnermostIndex(ss, name) == InnermostIndex(tt, name)
    decreases |ss|
  {
    if ss != [] && name !in ss[|ss| - 1] {
      InnermostIndexSameKeys(ss[..|ss| - 1], tt[..|tt| - 1], name);
    }
  }

  /** Assigning a visible name changes what it is bound to and nothing else. */
  lemma FindAfterAssign<T>(ss: Scopes<T>, name: string, value: T, other: string)
    requires Find(ss, name).Some?
    ensures Find(Assigned(ss, name, value), name) == Some(value)
    ensures other != name ==> Find(Assigned(ss, name, value), other) == Find(ss, other)
  {
    var r := Assigned(ss, name, value);
    InnermostIndexSameKeys(ss, r, name);
    if other != name {
      InnermostIndexSameKeys(ss, r, other);
      var i := InnermostIndex(ss, other);
      assert i >= 0 ==> r[i][other] == ss[i][other];
    }
  }

  /** Popping the scope a block pushed makes every outer binding visible
      again, whatever the block declared. */
  lemma PopRestoresShadowed<T>(ss: Scopes<T>, inner: map<string, T>, name: string)
    ensures (ss + [inner])[..|ss + [inner]| - 1] == ss
    ensures name in inner ==> Find(ss + [inner], name) == Some(inner[name])
    ensures name !in inner ==> Find(ss + [inner], name) == Find(ss, name)
  {
    assert (ss + [inner])[..|ss|] == ss;
  }

  /** A name bound in the innermost scope hides every outer binding. */
  lemma InnermostWins<T>(ss: Scopes<T>, name: string, k: nat)
    requires |ss| > 0 && name in ss[|ss| - 1] && k < |ss| - 1 && name in ss[k]
    ensures Find(ss, name) == Some(ss[|ss| - 1][name])
  {
  }
}
