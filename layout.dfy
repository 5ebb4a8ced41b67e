/** The process-wide tables both visitors share: type aliases and struct
    layouts. A struct's layout places its fields one after another with no
    padding; an alias is followed until a name that is not an alias. */
module Layout {
  import opened Wrappers
  import opened Text

  // ---------------------------------------------------------------------
  // Alias chasing

  /** Following `aliases` from `name` for at most `fuel` steps: the first
      name that is not an alias, or `None` when the fuel runs out. */
  function Chase(aliases: map<string, string>, name: string, fuel: nat): (r: Option<string>)
    ensures r.Some? ==> r.value !in aliases && (r.value == name || r.value in aliases.Values)
    decreases fuel
  {
    if name !in aliases then Some(name)
    else if fuel == 0 then None
    else Chase(aliases, aliases[name], fuel - 1)
  }

  /** Every chain of aliases ends: no name reaches a cycle. A chain that
      ends visits distinct aliases, so `|aliases|` steps are enough. */
  ghost predicate Acyclic(aliases: map<string, string>) {
    forall name :: Chase(aliases, name, |aliases|).Some?
  }

  /** What `resolve_alias` returns for `name` when its loop stops. On a
      cyclic chain, where the loop never stops, the name itself. */
  function Resolve(aliases: map<string, string>, name: string): (r: string)
    ensures r == name || r in aliases.Values
    ensures Acyclic(aliases) ==> r !in aliases
    ensures name !in aliases ==> r == name
  {
    match Chase(aliases, name, |aliases|)
    case Some(t) => t
    case None => name
  }

  /** More fuel does not change a chain that already ended. */
  lemma {:induction false} ChaseMore(aliases: map<string, string>, name: string, fuel: nat, more: nat)
    requires Chase(aliases, name, fuel).Some?
    requires fuel <= more
    ensures Chase(aliases, name, more) == Chase(aliases, name, fuel)
    decreases fuel
  {
    if name in aliases {
      ChaseMore(aliases, aliases[name], fuel - 1, more - 1);
    }
  }

  /** Resolving an alias is resolving its target. */
  lemma ResolveStep(aliases: map<string, string>, name: string)
    requires Acyclic(aliases) && name in aliases
    ensures Resolve(aliases, name) == Resolve(aliases, aliases[name])
  {
    var n := |aliases|;
    assert Chase(aliases, name, n).Some?;
    ChaseMore(aliases, aliases[name], n - 1, n);
  }

  /** Two aliases naming each other form a cycle: `resolve_alias` would
      loop for ever on either. */
  lemma MutualAliasesCycle()
    ensures !Acyclic(map["A" := "B", "B" := "A"])
  {
    var aliases := map["A" := "B", "B" := "A"];
    assert |aliases.Keys| == 2 by {
      assert aliases.Keys == {"A", "B"};
    }
    assert Chase(aliases, "A", 0) == None;
    assert Chase(aliases, "B", 1) == None;
    assert Chase(aliases, "A", 2) == None;
  }

  // ---------------------------------------------------------------------
  // Sizes

  /** The text `stoi` reads for the element count of `"T[N]"`: from after
      the first `[` up to the first `]`, or to the end when that `]` does
      not come after the `[` (the unsigned length wraps round). */
  function CountText(t: string, open: nat): (r: string)
    requires open < |t|
    ensures r <= t[open + 1..]
    ensures var close := IndexOf(t, ']');
            close.Some? && close.value > open ==> open + 1 + |r| == close.value && NoChar(r, ']')
  {
    match IndexOf(t, ']')
    case Some(close) => if close > open then t[open + 1..close] else t[open + 1..]
    case None => t[open + 1..]
  }

  /** The element count of an array type, read by `stoi` into an `int`;
      0 where `stoi` would throw, either because no number is written or
      because it lies outside the `int` range. */
  function ArrayCount(t: string): (n: int)
    ensures INT_MIN <= n <= INT_MAX
    ensures !IsArrayType(t) ==> n == 0
  {
    match IndexOf(t, '[')
    case None => 0
    case Some(open) => ParseIntIn(CountText(t, open), INT_MIN, INT_MAX).GetOr(0)
  }

  predicate IsArrayType(t: string) {
    IndexOf(t, '[').Some?
  }

  /** The bytes of a struct field of type `t`: 4 per element of an array
      whatever the element type, 4 for the 32-bit scalars and `bool`,
      8 for anything else. */
  function FieldBytes(t: string): (n: int)
    ensures !IsArrayType(t) ==> n == 4 || n == 8
    ensures IsArrayType(t) ==> n == 4 * ArrayCount(t)
  {
    if IsArrayType(t) then 4 * ArrayCount(t)
    else if t == "i32" || t == "bool" || t == "u32" || t == "f32" then 4
    else 8
  }

  /** An array type as the parser writes it, `T[digits]`, has the count
      written when it fits an `int`, and 0 (where `stoi` throws) when it
      does not. */
  lemma ParsedArrayCount(base: string, digits: string)
    requires NoChar(base, '[') && NoChar(base, ']')
    requires AllDigits(digits) && digits != []
    ensures IsArrayType(base + "[" + digits + "]")
    ensures ArrayCount(base + "[" + digits + "]") == (if DigitsValue(digits) <= INT_MAX then DigitsValue(digits) else 0)
  {
    OpenBracketAt(base, digits);
    BracketedCount(base, digits);
    DigitPrefixAll(digits);
    ParseUnsigned(digits, digits, DigitsValue(digits));
  }

  /** The text between the brackets of `T[digits]` is `digits`. */
  lemma BracketedCount(base: string, digits: string)
    requires NoChar(base, ']') && AllDigits(digits)
    ensures CountText(base + "[" + digits + "]", |base|) == digits
  {
    var t := base + "[" + digits + "]";
    NoBracketHead(base, digits);
    LastAt(base + "[" + digits, ']');
    assert t[|base| + 1..|base| + 1 + |digits|] == digits;
  }

  lemma OpenBracketAt(base: string, digits: string)
    requires NoChar(base, '[')
    ensures IndexOf(base + "[" + digits + "]", '[') == Some(|base|)
  {
    assert base + "[" + digits + "]" == base + ['['] + (digits + "]");
    FirstAt(base, '[', digits + "]");
  }

  lemma NoBracketHead(base: string, digits: string)
    requires NoChar(base, ']') && AllDigits(digits)
    ensures NoChar(base + "[" + digits, ']')
  {
    DigitsNoBracket(digits);
    NoCharConcat(base, "[", ']');
    NoCharConcat(base + "[", digits, ']');
  }

  /** `c` appended to a string without one is found at the end. */
  lemma LastAt(a: string, c: char)
    requires NoChar(a, c)
    ensures IndexOf(a + [c], c) == Some(|a|)
  {
    assert (a + [c])[..|a|] == a;
    IndexOfAt(a + [c], c, |a|);
  }

  lemma DigitsNoBracket(digits: string)
    requires AllDigits(digits)
    ensures NoChar(digits, ']')
  {
    forall i | 0 <= i < |digits| ensures digits[i] != ']' {
      assert IsDigit(digits[i]);
    }
  }

  /** The first `c` of `a + [c] + b` when `a` has none. */
  lemma FirstAt(a: string, c: char, b: string)
    requires NoChar(a, c)
    ensures IndexOf(a + [c] + b, c) == Some(|a|)
  {
    var s := a + [c] + b;
    assert s[..|a|] == a;
    IndexOfAt(s, c, |a|);
  }

  lemma NoCharConcat(a: string, b: string, c: char)
    requires NoChar(a, c) && NoChar(b, c)
    ensures NoChar(a + b, c)
  {
    forall i | 0 <= i < |a + b| ensures (a + b)[i] != c {
      if i >= |a| { assert (a + b)[i] == b[i - |a|]; }
    }
  }

  lemma {:induction false} IndexOfAt(s: string, c: char, i: nat)
    requires i < |s| && s[i] == c && NoChar(s[..i], c)
    ensures IndexOf(s, c) == Some(i)
    decreases i
  {
    if i > 0 {
      assert s[0] == s[..i][0];
      assert s[1..][..i - 1] == s[..i][1..];
      IndexOfAt(s[1..], c, i - 1);
    }
  }

  lemma {:induction false} DigitPrefixAll(d: string)
    requires AllDigits(d)
    ensures DigitPrefix(d) == d
    decreases |d|
  {
    if d != [] {
      DigitPrefixAll(d[1..]);
    }
  }

  /** C's `/`, which truncates toward zero. */
  function TruncDiv(a: int, b: int): (q: int)
    requires b > 0
    ensures a >= 0 ==> q == a / b
  {
    if a >= 0 then a / b else -((-a) / b)
  }

  /** `(size + 7) / 8`: the 8-byte slots a value of `size` bytes takes,
      which hold a non-negative size with less than one slot to spare. */
  function SlotsFor(size: int): (n: int)
    ensures size >= 0 ==> size <= 8 * n < size + 8
  {
    TruncDiv(size + 7, 8)
  }

  /** `(size + 7) / 8 * 8`: a non-negative size rounded up by less than
      one slot. */
  function AlignedSize(size: int): (a: int)
    ensures size >= 0 ==> size <= a < size + 8
  {
    SlotsFor(size) * 8
  }

  /** A non-negative size rounds up to the next multiple of 8. */
  lemma AlignedSizeBounds(size: int)
    requires size >= 0
    ensures AlignedSize(size) % 8 == 0
    ensures size <= AlignedSize(size) < size + 8
    ensures SlotsFor(size) >= 0 && (size > 0 ==> SlotsFor(size) >= 1)
  {
  }

  // ---------------------------------------------------------------------
  // Struct layouts

  datatype StructLayout = StructLayout(size: int, offsets: map<string, int>, types: map<string, string>)

  function Sum(xs: seq<int>): int
    decreases |xs|
  {
    if xs == [] then 0 else Sum(xs[..|xs| - 1]) + xs[|xs| - 1]
  }

  /** The layout of the fields taken in order, field `k` taking `sizes[k]`
      bytes at the running offset; a repeated field name keeps its last
      offset and type. */
  function LayoutOf(fields: seq<(string, string)>, sizes: seq<int>): (l: StructLayout)
    requires |fields| == |sizes|
    ensures var last := |fields| - 1;
            fields != [] ==> fields[last].0 in l.offsets && fields[last].0 in l.types && l.offsets[fields[last].0] == l.size - sizes[last] && l.types[fields[last].0] == fields[last].1
    decreases |fields|
  {
    if fields == [] then StructLayout(0, map[], map[])
    else
      var n := |fields| - 1;
      var l := LayoutOf(fields[..n], sizes[..n]);
      StructLayout(l.size + sizes[n], l.offsets[fields[n].0 := l.size], l.types[fields[n].0 := fields[n].1])
  }

  /** The layout of one more field: it starts where the previous ones end. */
  lemma LayoutOfStep(fields: seq<(string, string)>, sizes: seq<int>, i: nat)
    requires |fields| == |sizes| && i < |fields|
    ensures var l := LayoutOf(fields[..i], sizes[..i]);
            LayoutOf(fields[..i + 1], sizes[..i + 1])
            == StructLayout(l.size + sizes[i], l.offsets[fields[i].0 := l.size], l.types[fields[i].0 := fields[i].1])
  {
    assert fields[..i + 1][..i] == fields[..i];
    assert sizes[..i + 1][..i] == sizes[..i];
  }

  /** The field sizes the emitter uses: the declared type as written. */
  function EmitterSizes(fields: seq<(string, string)>): (s: seq<int>)
    ensures |s| == |fields|
  {
    seq(|fields|, i requires 0 <= i < |fields| => FieldBytes(fields[i].1))
  }

  /** The field sizes the planner uses: the declared type after aliases. */
  function PlannerSizes(aliases: map<string, string>, fields: seq<(string, string)>): (s: seq<int>)
    ensures |s| == |fields|
  {
    seq(|fields|, i requires 0 <= i < |fields| => FieldBytes(Resolve(aliases, fields[i].1)))
  }

  /** The size of a struct is the plain sum of its field sizes. */
  lemma {:induction false} LayoutSize(fields: seq<(string, string)>, sizes: seq<int>)
    requires |fields| == |sizes|
    ensures LayoutOf(fields, sizes).size == Sum(sizes)
    decreases |fields|
  {
    if fields != [] {
      LayoutSize(fields[..|fields| - 1], sizes[..|sizes| - 1]);
    }
  }

  /** The layout records exactly the declared field names. */
  lemma {:induction false} LayoutKeys(fields: seq<(string, string)>, sizes: seq<int>)
    requires |fields| == |sizes|
    ensures forall name :: name in LayoutOf(fields, sizes).offsets <==> exists k :: 0 <= k < |fields| && fields[k].0 == name
    ensures LayoutOf(fields, sizes).types.Keys == LayoutOf(fields, sizes).offsets.Keys
    decreases |fields|
  {
    if fields != [] {
      var n := |fields| - 1;
      LayoutKeys(fields[..n], sizes[..n]);
      forall name ensures name in LayoutOf(fields, sizes).offsets <==> exists k :: 0 <= k < |fields| && fields[k].0 == name {
        if name in LayoutOf(fields[..n], sizes[..n]).offsets {
          var k :| 0 <= k < n && fields[..n][k].0 == name;
          assert fields[k].0 == name;
        }
        if exists k :: 0 <= k < |fields| && fields[k].0 == name {
          var k :| 0 <= k < |fields| && fields[k].0 == name;
          if k < n {
            assert fields[..n][k].0 == name;
          }
        }
      }
    }
  }

  /** A field declared once (or last) sits at the sum of the sizes of the
      fields before it, with its declared type. */
  lemma {:induction false} LayoutOffset(fields: seq<(string, string)>, sizes: seq<int>, k: nat)
    requires |fields| == |sizes| && k < |fields|
    requires forall j :: k < j < |fields| ==> fields[j].0 != fields[k].0
    ensures fields[k].0 in LayoutOf(fields, sizes).offsets && fields[k].0 in LayoutOf(fields, sizes).types
    ensures LayoutOf(fields, sizes).offsets[fields[k].0] == Sum(sizes[..k])
    ensures LayoutOf(fields, sizes).types[fields[k].0] == fields[k].1
    decreases |fields|
  {
    var n := |fields| - 1;
    if k == n {
      LayoutSize(fields[..n], sizes[..n]);
      assert sizes[..n] == sizes[..k];
    } else {
      assert fields[n].0 != fields[k].0;
      assert sizes[..n][..k] == sizes[..k];
      LayoutOffset(fields[..n], sizes[..n], k);
    }
  }

  /** Where no field type is an alias, the planner and the emitter compute
      the same layout. */
  lemma SameLayoutWithoutAliases(aliases: map<string, string>, fields: seq<(string, string)>)
    requires forall k :: 0 <= k < |fields| ==> fields[k].1 !in aliases
    ensures PlannerSizes(aliases, fields) == EmitterSizes(fields)
    ensures LayoutOf(fields, PlannerSizes(aliases, fields)) == LayoutOf(fields, EmitterSizes(fields))
  {
    forall k | 0 <= k < |fields| ensures Resolve(aliases, fields[k].1) == fields[k].1 {
    }
  }

  /** A field whose type is an alias of `i32` takes 4 bytes in the
      planner's layout and 8 in the emitter's, which registers its
      layouts after planning. */
  lemma AliasedFieldLayoutsDiffer()
    ensures var aliases := map["Small" := "i32"];
            var fields := [("a", "Small")];
            LayoutOf(fields, PlannerSizes(aliases, fields)).size == 4 &&
            LayoutOf(fields, EmitterSizes(fields)).size == 8
  {
    var aliases := map["Small" := "i32"];
    var fields := [("a", "Small")];
    assert Chase(aliases, "i32", 0) == Some("i32");
    assert Resolve(aliases, "Small") == "i32";
    assert IndexOf("i32", '[') == None;
    assert IndexOf("Small", '[') == None;
    assert PlannerSizes(aliases, fields) == [4];
    assert EmitterSizes(fields) == [8];
    LayoutSize(fields, [4]);
    LayoutSize(fields, [8]);
  }

  // ---------------------------------------------------------------------
  // The shared tables

  /** `globalTypeAliases` and `globalStructLayouts`. */
  class Globals {
    var aliases: map<string, string>
    var layouts: map<string, StructLayout>

    constructor()
      ensures aliases == map[] && layouts == map[]
    {
      aliases := map[];
      layouts := map[];
    }

    /** `resolve_alias`: follows aliases until a name that is not one. */
    method ResolveAlias(name: string) returns (r: string)
      requires Acyclic(aliases)
      ensures r == Resolve(aliases, name)
      ensures r !in aliases
    {
      r := name;
      ghost var fuel: nat := |aliases|;
      while r in aliases
        invariant Chase(aliases, r, fuel) == Chase(aliases, name, |aliases|)
        invariant Chase(aliases, r, fuel).Some?
        decreases fuel
      {
        r, fuel := aliases[r], fuel - 1;
      }
    }
  }
}
