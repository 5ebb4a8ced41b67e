/** Character classes and the string routines of the C++ standard library
    that the compiler relies on: `std::to_string`, `std::stoll`/`std::stoi`,
    `istringstream >>` word extraction, `std::getline` line splitting,
    `find`, `find_first_not_of` and `substr`. Characters are taken as ASCII. */
module Text {
  import opened Wrappers

  predicate IsDigit(c: char) { '0' <= c <= '9' }
  predicate IsAlpha(c: char) { 'a' <= c <= 'z' || 'A' <= c <= 'Z' }
  predicate IsAlnum(c: char) { IsDigit(c) || IsAlpha(c) }

  /** `isspace` in the C locale. */
  predicate IsSpace(c: char) {
    c == ' ' || c == '\t' || c == '\n' || c == '\r' || c == '\U{B}' || c == '\U{C}'
  }

  predicate AllDigits(s: string) { forall i :: 0 <= i < |s| ==> IsDigit(s[i]) }
  predicate NoSpace(s: string) { forall i :: 0 <= i < |s| ==> !IsSpace(s[i]) }
  predicate NoChar(s: string, c: char) { forall i :: 0 <= i < |s| ==> s[i] != c }

  // ---------------------------------------------------------------------
  // Decimal numerals

  function DigitChar(d: nat): (c: char)
    requires d < 10
    ensures IsDigit(c)
  {
    "0123456789"[d]
  }

  function DigitValue(c: char): nat
    requires IsDigit(c)
  {
    (c as int - '0' as int) as nat
  }

  /** The decimal numeral of `n`, most significant digit first. */
  function NatToString(n: nat): (s: string)
    ensures |s| > 0 && AllDigits(s)
    decreases n
  {
    if n < 10 then [DigitChar(n)] else NatToString(n / 10) + [DigitChar(n % 10)]
  }

  /** `std::to_string` of an integer. */
  function IntToString(n: int): (s: string)
    ensures |s| > 0 && (s[0] == '-' <==> n < 0)
    ensures n >= 0 ==> AllDigits(s)
  {
    if n < 0 then "-" + NatToString(-n) else NatToString(n)
  }

  /** The value of a run of decimal digits. */
  function DigitsValue(s: string): nat
    requires AllDigits(s)
    decreases |s|
  {
    if s == [] then 0 else DigitsValue(s[..|s| - 1]) * 10 + DigitValue(s[|s| - 1])
  }

  /** The longest prefix of `s` made of digits. */
  function DigitPrefix(s: string): (d: string)
    ensures AllDigits(d) && |d| <= |s| && d == s[..|d|]
    ensures |d| < |s| ==> !IsDigit(s[|d|])
    decreases |s|
  {
    if s != [] && IsDigit(s[0]) then [s[0]] + DigitPrefix(s[1..]) else []
  }

  /** The suffix left after leading white space. */
  function DropSpaces(s: string): (t: string)
    ensures |t| <= |s| && (t == [] || !IsSpace(t[0]))
    decreases |s|
  {
    if s != [] && IsSpace(s[0]) then DropSpaces(s[1..]) else s
  }

  /** The value `std::stoll`/`std::stoi` read from `s`: leading white space,
      an optional sign, then the longest run of digits, which must not be
      empty. Text after the digits is ignored. `None` is the
      `invalid_argument` exception; range checks are in `ParseIntIn`. */
  function ParseInt(s: string): (r: Option<int>)
    ensures DropSpaces(s) == [] ==> r.None?
    ensures s != [] && IsDigit(s[0]) ==> r.Some? && r.value >= 0
    ensures r.Some? && r.value < 0 ==> DropSpaces(s)[0] == '-'
  {
    var t := DropSpaces(s);
    var neg := |t| > 0 && t[0] == '-';
    var u := if |t| > 0 && (t[0] == '-' || t[0] == '+') then t[1..] else t;
    var d := DigitPrefix(u);
    if d == [] then None
    else if neg then Some(-(DigitsValue(d) as int))
    else Some(DigitsValue(d) as int)
  }

  /** `ParseInt` with the `out_of_range` exception of a `lo`..`hi` integer. */
  function ParseIntIn(s: string, lo: int, hi: int): (r: Option<int>)
    ensures r.Some? ==> lo <= r.value <= hi && ParseInt(s) == r
    ensures ParseInt(s).Some? && lo <= ParseInt(s).value <= hi ==> r == ParseInt(s)
  {
    match ParseInt(s)
    case Some(v) => if lo <= v <= hi then Some(v) else None
    case None => None
  }

  const LLONG_MIN: int := -0x8000_0000_0000_0000
  const LLONG_MAX: int := 0x7FFF_FFFF_FFFF_FFFF
  const INT_MIN: int := -0x8000_0000
  const INT_MAX: int := 0x7FFF_FFFF

  /** `std::stoll`. */
  function Stoll(s: string): (r: Option<int>)
    ensures r.Some? ==> LLONG_MIN <= r.value <= LLONG_MAX && r == ParseInt(s)
    ensures ParseInt(s).Some? && LLONG_MIN <= ParseInt(s).value <= LLONG_MAX ==> r == ParseInt(s)
  {
    ParseIntIn(s, LLONG_MIN, LLONG_MAX)
  }

  lemma {:induction false} NatToStringDigits(n: nat)
    ensures AllDigits(NatToString(n)) && |NatToString(n)| > 0
    ensures DigitsValue(NatToString(n)) == n
    decreases n
  {
    if n >= 10 {
      NatToStringDigits(n / 10);
      var s := NatToString(n);
      assert s[..|s| - 1] == NatToString(n / 10);
    }
  }

  lemma {:induction false} DigitPrefixOfDigits(d: string, rest: string)
    requires AllDigits(d)
    requires rest == [] || !IsDigit(rest[0])
    ensures DigitPrefix(d + rest) == d
    decreases |d|
  {
    if d != [] {
      assert (d + rest)[1..] == d[1..] + rest;
      DigitPrefixOfDigits(d[1..], rest);
    }
  }

  /** `std::stoll(std::to_string(n))` gives `n` back, and so does reading a
      numeral followed by anything that does not continue it. */
  lemma ParseUnsigned(t: string, d: string, v: int)
    requires t != [] && IsDigit(t[0]) && DigitPrefix(t) == d
    requires AllDigits(d) && v == DigitsValue(d)
    ensures ParseInt(t) == Some(v)
  {
    assert DropSpaces(t) == t;
    assert d != [];
    assert !(t[0] == '-' || t[0] == '+');
  }

  lemma ParseNegative(u: string, d: string, v: int)
    requires d != [] && DigitPrefix(u) == d
    requires AllDigits(d) && v == -(DigitsValue(d) as int)
    ensures ParseInt("-" + u) == Some(v)
  {
    var t := "-" + u;
    assert t[1..] == u;
    assert DropSpaces(t) == t;
  }

  lemma IntToStringParses(n: int, rest: string)
    requires rest == [] || !IsDigit(rest[0])
    ensures ParseInt(IntToString(n) + rest) == Some(n)
  {
    if n < 0 {
      NegativeNumeralParses(n, rest);
    } else {
      NumeralParses(n, rest);
    }
  }

  lemma NumeralParses(n: int, rest: string)
    requires n >= 0 && (rest == [] || !IsDigit(rest[0]))
    ensures ParseInt(IntToString(n) + rest) == Some(n)
  {
    NatToStringDigits(n);
    var d := NatToString(n);
    DigitPrefixOfDigits(d, rest);
    assert (d + rest)[0] == d[0];
    ParseUnsigned(d + rest, d, n);
  }

  lemma NegativeNumeralParses(n: int, rest: string)
    requires n < 0 && (rest == [] || !IsDigit(rest[0]))
    ensures ParseInt(IntToString(n) + rest) == Some(n)
  {
    NatToStringDigits(-n);
    var d := NatToString(-n);
    DigitPrefixOfDigits(d, rest);
    assert IntToString(n) + rest == "-" + (d + rest);
    ParseNegative(d + rest, d, n);
  }

  lemma IntToStringInjective(a: int, b: int)
    requires IntToString(a) == IntToString(b)
    ensures a == b
  {
    IntToStringParses(a, []);
    IntToStringParses(b, []);
    assert IntToString(a) + [] == IntToString(a);
    assert IntToString(b) + [] == IntToString(b);
  }

  lemma NatToStringNoChar(n: nat, c: char)
    requires !IsDigit(c)
    ensures NoChar(NatToString(n), c)
  {
    NatToStringDigits(n);
  }

  lemma IntToStringNoChar(n: int, c: char)
    requires !IsDigit(c) && c != '-'
    ensures NoChar(IntToString(n), c)
  {
    NatToStringNoChar(if n < 0 then -n else n, c);
  }

  // ---------------------------------------------------------------------
  // istringstream >> word

  /** The longest prefix of `s` without white space. */
  function WordPrefix(s: string): (w: string)
    ensures |w| <= |s| && (s != [] && !IsSpace(s[0]) ==> w != [])
    ensures NoSpace(w)
    decreases |s|
  {
    if s != [] && !IsSpace(s[0]) then [s[0]] + WordPrefix(s[1..]) else []
  }

  /** The words `istringstream >>` extracts from `s`, in order. */
  function Words(s: string): (ws: seq<string>)
    ensures forall k :: 0 <= k < |ws| ==> ws[k] != [] && NoSpace(ws[k])
    decreases |s|
  {
    var t := DropSpaces(s);
    if t == [] then []
    else
      var w := WordPrefix(t);
      [w] + Words(t[|w|..])
  }

  /** The `k`-th word of `s`, or the empty string when extraction fails
      earlier (the target string is then left empty). */
  function Word(s: string, k: nat): (w: string)
  {
    var ws := Words(s);
    if k < |ws| then ws[k] else ""
  }

  /** The words of a line without `c` are without `c`. */
  lemma {:induction false} WordsAvoid(s: string, c: char)
    requires NoChar(s, c)
    ensures forall k :: 0 <= k < |Words(s)| ==> NoChar(Words(s)[k], c)
    decreases |s|
  {
    var t := DropSpaces(s);
    DropSpacesAvoids(s, c);
    if t != [] {
      var w := WordPrefix(t);
      WordPrefixAvoids(t, c);
      assert NoChar(t[|w|..], c);
      WordsAvoid(t[|w|..], c);
      assert Words(s) == [w] + Words(t[|w|..]);
    }
  }

  lemma {:induction false} DropSpacesAvoids(s: string, c: char)
    requires NoChar(s, c)
    ensures NoChar(DropSpaces(s), c)
    decreases |s|
  {
    if s != [] && IsSpace(s[0]) {
      assert NoChar(s[1..], c);
      DropSpacesAvoids(s[1..], c);
    }
  }

  lemma {:induction false} WordPrefixAvoids(s: string, c: char)
    requires NoChar(s, c)
    ensures NoChar(WordPrefix(s), c)
    decreases |s|
  {
    if s != [] && !IsSpace(s[0]) {
      assert NoChar(s[1..], c);
      WordPrefixAvoids(s[1..], c);
    }
  }

  predicate AllSpaces(s: string) { forall i :: 0 <= i < |s| ==> IsSpace(s[i]) }

  lemma {:induction false} DropSpacesPrefix(sp: string, t: string)
    requires AllSpaces(sp)
    requires t == [] || !IsSpace(t[0])
    ensures DropSpaces(sp + t) == t
    decreases |sp|
  {
    if sp != [] {
      assert (sp + t)[1..] == sp[1..] + t;
      DropSpacesPrefix(sp[1..], t);
    }
  }

  lemma {:induction false} WordPrefixOf(w: string, rest: string)
    requires NoSpace(w)
    requires rest == [] || IsSpace(rest[0])
    ensures WordPrefix(w + rest) == w
    decreases |w|
  {
    if w != [] {
      assert (w + rest)[1..] == w[1..] + rest;
      WordPrefixOf(w[1..], rest);
    }
  }

  /** Extraction skips the white space `sp`, reads the whole word `w` and
      continues after it. */
  lemma WordsCons(sp: string, w: string, rest: string)
    requires AllSpaces(sp) && w != [] && NoSpace(w)
    requires rest == [] || IsSpace(rest[0])
    ensures Words(sp + w + rest) == [w] + Words(rest)
  {
    assert sp + w + rest == sp + (w + rest);
    DropSpacesPrefix(sp, w + rest);
    WordPrefixOf(w, rest);
    assert (w + rest)[|w|..] == rest;
  }

  lemma WordsOfBlank(sp: string)
    requires AllSpaces(sp)
    ensures Words(sp) == []
  {
    DropSpacesPrefix(sp, []);
    assert sp + [] == sp;
  }

  /** The words of `" op a, b"`-shaped text: a leading blank, then each
      word preceded by one blank. */
  lemma WordsOfThree(a: string, b: string, c: string)
    requires a != [] && NoSpace(a) && b != [] && NoSpace(b) && c != [] && NoSpace(c)
    ensures Words(" " + a + " " + b + " " + c) == [a, b, c]
  {
    var t3 := " " + c;
    var t2 := " " + b + t3;
    assert Words(t2) == [b, c] by {
      WordsOfOne(c);
      WordsCons(" ", b, t3);
    }
    assert Words(" " + a + t2) == [a, b, c] by {
      WordsCons(" ", a, t2);
    }
    assert " " + a + " " + b + " " + c == " " + a + t2 by {
      Assoc(" " + a, " " + b, t3);
      Assoc(" " + a + " ", b, t3);
      Assoc(" " + a, " ", b);
      Assoc(" " + a + " " + b, " ", c);
    }
  }

  lemma WordsOfTwo(a: string, b: string)
    requires a != [] && NoSpace(a) && b != [] && NoSpace(b)
    ensures Words(" " + a + " " + b) == [a, b]
  {
    var t2 := " " + b;
    WordsOfOne(b);
    WordsCons(" ", a, t2);
    assert Words(" " + a + t2) == [a, b];
    Assoc(" " + a, " ", b);
  }

  lemma WordsOfOne(a: string)
    requires a != [] && NoSpace(a)
    ensures Words(" " + a) == [a]
  {
    WordsCons(" ", a, []);
    assert " " + a + [] == " " + a;
    assert Words([]) == [];
  }

  lemma Assoc(x: string, y: string, z: string)
    ensures x + y + z == x + (y + z)
  {
  }

  // ---------------------------------------------------------------------
  // find, find_first_not_of, substr, back

  predicate StartsWith(s: string, p: string) { |p| <= |s| && s[..|p|] == p }

  /** `s.back() == c` on a non-empty string. */
  predicate EndsWith(s: string, c: char) { |s| > 0 && s[|s| - 1] == c }

  /** `s.find(p) != npos`. */
  predicate Contains(s: string, p: string)
    decreases |s|
  {
    StartsWith(s, p) || (|s| > 0 && Contains(s[1..], p))
  }

  lemma {:induction false} ContainsMiddle(a: string, p: string, b: string)
    ensures Contains(a + p + b, p)
    decreases |a|
  {
    if a == [] {
      assert (a + p + b)[..|p|] == p;
    } else {
      assert (a + p + b)[1..] == a[1..] + p + b;
      ContainsMiddle(a[1..], p, b);
    }
  }

  /** `s.find(c)`: the first position holding `c`, if any. */
  function IndexOf(s: string, c: char): (r: Option<nat>)
    ensures r.Some? ==> r.value < |s| && s[r.value] == c && NoChar(s[..r.value], c)
    ensures r.None? ==> NoChar(s, c)
    decreases |s|
  {
    if s == [] then None
    else if s[0] == c then Some(0)
    else match IndexOf(s[1..], c)
      case Some(i) => Some(i + 1)
      case None => None
  }

  predicate IsBlankOrTab(c: char) { c == ' ' || c == '\t' }

  /** The result of
        start = s.find_first_not_of(" \t"); if (start != npos) s = s.substr(start);
      A string made only of blanks and tabs is left as it is. */
  function TrimLeft(s: string): (t: string)
    ensures t == [] <==> s == []
  {
    var u := DropBlanks(s);
    if u == [] then s else u
  }

  /** The suffix of `s` after its leading blanks and tabs. */
  function DropBlanks(s: string): (t: string)
    ensures |t| <= |s|
    decreases |s|
  {
    if s != [] && IsBlankOrTab(s[0]) then DropBlanks(s[1..]) else s
  }

  /** `DropBlanks` removes a run of blanks and tabs from the front and
      stops at the first other character. */
  lemma {:induction false} DropBlanksSuffix(s: string)
    ensures var t := DropBlanks(s); t == s[|s| - |t|..]
    ensures var t := DropBlanks(s); t == [] || !IsBlankOrTab(t[0])
    ensures forall i :: 0 <= i < |s| - |DropBlanks(s)| ==> IsBlankOrTab(s[i])
    decreases |s|
  {
    if s != [] && IsBlankOrTab(s[0]) {
      DropBlanksSuffix(s[1..]);
      var t := DropBlanks(s);
      assert s[1..][|s| - 1 - |t|..] == s[|s| - |t|..];
      forall i | 0 <= i < |s| - |t| ensures IsBlankOrTab(s[i]) {
        if i > 0 {
          assert s[i] == s[1..][i - 1];
        }
      }
    }
  }

  /** `TrimLeft` drops the leading blanks and tabs of a line that has
      something else, and keeps a line that has nothing else. */
  lemma TrimLeftDrops(s: string)
    ensures var t := TrimLeft(s); |t| <= |s| && t == s[|s| - |t|..]
    ensures (exists i :: 0 <= i < |s| && !IsBlankOrTab(s[i])) ==>
              TrimLeft(s) != [] && !IsBlankOrTab(TrimLeft(s)[0])
  {
    DropBlanksSuffix(s);
    if DropBlanks(s) == [] {
      assert s[|s| - 0..] == [];
    }
  }

  // ---------------------------------------------------------------------
  // std::getline

  /** The lines `std::getline` reads from `s`, split at each newline; a
      final newline does not open an empty last line. */
  function SplitLines(s: string): (ls: seq<string>)
    ensures forall k :: 0 <= k < |ls| ==> NoChar(ls[k], '\n')
    decreases |s|
  {
    if s == [] then []
    else match IndexOf(s, '\n')
      case None => [s]
      case Some(i) => [s[..i]] + SplitLines(s[i + 1..])
  }

  /** The text written by `out << l << "\n"` for every line `l` in order. */
  function JoinLines(ls: seq<string>): (s: string)
    ensures s == [] <==> ls == []
    ensures ls != [] ==> |ls[0]| < |s| && s[|s| - 1] == '\n' && s[..|ls[0]|] == ls[0]
  {
    if ls == [] then "" else ls[0] + "\n" + JoinLines(ls[1..])
  }

  /** Reading the lines of written text gives back the lines written, as
      long as none of them holds a newline itself. */
  lemma {:induction false} SplitJoin(ls: seq<string>)
    requires forall k :: 0 <= k < |ls| ==> NoChar(ls[k], '\n')
    ensures SplitLines(JoinLines(ls)) == ls
    decreases |ls|
  {
    if ls != [] {
      var s := JoinLines(ls);
      var l := ls[0];
      assert s == l + ("\n" + JoinLines(ls[1..]));
      IndexOfFirst(l, "\n" + JoinLines(ls[1..]));
      assert s[..|l|] == l;
      assert s[|l| + 1..] == JoinLines(ls[1..]);
      SplitJoin(ls[1..]);
    }
  }

  lemma {:induction false} IndexOfFirst(l: string, rest: string)
    requires NoChar(l, '\n') && rest != [] && rest[0] == '\n'
    ensures IndexOf(l + rest, '\n') == Some(|l|)
    decreases |l|
  {
    if l != [] {
      assert (l + rest)[1..] == l[1..] + rest;
      IndexOfFirst(l[1..], rest);
    }
  }

  /** The non-empty strings of `ls`, in order. */
  function NonEmpty(ls: seq<string>): (r: seq<string>)
    ensures |r| <= |ls|
    ensures forall k :: 0 <= k < |r| ==> r[k] != []
  {
    if ls == [] then []
    else if ls[0] == [] then NonEmpty(ls[1..])
    else [ls[0]] + NonEmpty(ls[1..])
  }
}
