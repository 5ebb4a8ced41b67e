/** The hand-written lexer: `Scanner::nextToken` and its helpers. */
module Scanning {
  import opened Wrappers
  import opened Text
  import opened Tokens

  /** The characters the scanner skips between tokens. */
  predicate IsWhiteSpace(c: char) {
    c == ' ' || c == '\n' || c == '\r' || c == '\t'
  }

  /** The `peek` helper: the character at `i`, or NUL past the end. */
  function Peek(s: string, i: nat): char {
    if i < |s| then s[i] else '\0'
  }

  predicate IsWordChar(c: char) { IsAlnum(c) || c == '_' }

  /** The first position at or after `i` that does not hold white space. */
  function SkipWhite(s: string, i: nat): (j: nat)
    requires i <= |s|
    ensures i <= j <= |s|
    ensures forall k :: i <= k < j ==> IsWhiteSpace(s[k])
    ensures j == |s| || !IsWhiteSpace(s[j])
    decreases |s| - i
  {
    if i < |s| && IsWhiteSpace(s[i]) then SkipWhite(s, i + 1) else i
  }

  /** The end of the run of digits starting at `i`. */
  function DigitsEnd(s: string, i: nat): (j: nat)
    requires i <= |s|
    ensures i <= j <= |s|
    ensures forall k :: i <= k < j ==> IsDigit(s[k])
    ensures !IsDigit(Peek(s, j))
    decreases |s| - i
  {
    if IsDigit(Peek(s, i)) then DigitsEnd(s, i + 1) else i
  }

  /** The end of the run of letters, digits and underscores starting at `i`. */
  function WordEnd(s: string, i: nat): (j: nat)
    requires i <= |s|
    ensures i <= j <= |s|
    ensures forall k :: i <= k < j ==> IsWordChar(s[k])
    ensures !IsWordChar(Peek(s, j))
    decreases |s| - i
  {
    if IsWordChar(Peek(s, i)) then WordEnd(s, i + 1) else i
  }

  /** The first position at or after `i` holding a quote, a NUL or a
      newline, or the end of the input. */
  function StringEnd(s: string, i: nat): (j: nat)
    requires i <= |s|
    ensures i <= j <= |s|
    ensures forall k :: i <= k < j ==> s[k] != '"' && s[k] != '\0' && s[k] != '\n'
    ensures j < |s| ==> s[j] == '"' || s[j] == '\0' || s[j] == '\n'
    decreases |s| - i
  {
    if Peek(s, i) != '"' && Peek(s, i) != '\0' && Peek(s, i) != '\n' then StringEnd(s, i + 1) else i
  }

  /** The kinds reserved words lex to. */
  predicate IsKeywordKind(k: Kind) {
    k in {FN, STRUCT, TYPE, LET, MUT, FOR, IN, IF, ELSE, WHILE, RETURN,
          U8, U16, U32, U64, USIZE, I32, I64, F32, F64, BOOL, TRUE, FALSE,
          VAR, FUN, ENDFUN, PRINT, AND}
  }

  /** The kinds of operators and punctuation. */
  predicate IsSymbolKind(k: Kind) {
    k in {DOTDOT, ARROW, PLUS_ASSIGN, MINUS_ASSIGN, EQ, NEQ, LE, GE, OR, AND, POW,
          PLUS, MINUS, MUL, DIV, MOD, LPAREN, RPAREN, LBRACE, RBRACE, LBRACKET, RBRACKET,
          COMMA, SEMICOL, COLON, DOT, ASSIGN, LT, GT, NOT}
  }

  /** The reserved words other than `println`, with their kinds. */
  function Keyword(w: string): (k: Option<Kind>)
    ensures k.Some? ==> IsKeywordKind(k.value)
  {
    if w == "fn" then Some(FN)
    else if w == "struct" then Some(STRUCT)
    else if w == "type" then Some(TYPE)
    else if w == "let" then Some(LET)
    else if w == "mut" then Some(MUT)
    else if w == "for" then Some(FOR)
    else if w == "in" then Some(IN)
    else if w == "if" then Some(IF)
    else if w == "else" then Some(ELSE)
    else if w == "while" then Some(WHILE)
    else if w == "return" then Some(RETURN)
    else if w == "u8" then Some(U8)
    else if w == "u16" then Some(U16)
    else if w == "u32" then Some(U32)
    else if w == "u64" then Some(U64)
    else if w == "usize" then Some(USIZE)
    else if w == "i32" then Some(I32)
    else if w == "i64" then Some(I64)
    else if w == "f32" then Some(F32)
    else if w == "f64" then Some(F64)
    else if w == "bool" then Some(BOOL)
    else if w == "true" then Some(TRUE)
    else if w == "false" then Some(FALSE)
    else if w == "var" then Some(VAR)
    else if w == "fun" then Some(FUN)
    else if w == "endfun" then Some(ENDFUN)
    else if w == "print" then Some(PRINT)
    else if w == "and" then Some(AND)
    else None
  }

  /** The two-character operators. */
  function TwoCharOp(c: char, d: char): (k: Option<Kind>)
    ensures k.Some? ==> IsSymbolKind(k.value)
  {
    if c == '.' && d == '.' then Some(DOTDOT)
    else if c == '-' && d == '>' then Some(ARROW)
    else if c == '+' && d == '=' then Some(PLUS_ASSIGN)
    else if c == '-' && d == '=' then Some(MINUS_ASSIGN)
    else if c == '=' && d == '=' then Some(EQ)
    else if c == '!' && d == '=' then Some(NEQ)
    else if c == '<' && d == '=' then Some(LE)
    else if c == '>' && d == '=' then Some(GE)
    else if c == '|' && d == '|' then Some(OR)
    else if c == '&' && d == '&' then Some(AND)
    else if c == '*' && d == '*' then Some(POW)
    else None
  }

  /** The one-character symbols. */
  function SingleCharOp(c: char): (k: Option<Kind>)
    ensures k.Some? ==> IsSymbolKind(k.value)
  {
    match c
    case '+' => Some(PLUS)
    case '-' => Some(MINUS)
    case '*' => Some(MUL)
    case '/' => Some(DIV)
    case '%' => Some(MOD)
    case '(' => Some(LPAREN)
    case ')' => Some(RPAREN)
    case '{' => Some(LBRACE)
    case '}' => Some(RBRACE)
    case '[' => Some(LBRACKET)
    case ']' => Some(RBRACKET)
    case ',' => Some(COMMA)
    case ';' => Some(SEMICOL)
    case ':' => Some(COLON)
    case '.' => Some(DOT)
    case '=' => Some(ASSIGN)
    case '<' => Some(LT)
    case '>' => Some(GT)
    case '!' => Some(NOT)
    case _ => None
  }

  /** One step of the lexer: the token, where it starts and where the
      scanner stops after it. */
  datatype Lexeme = Lexeme(tok: Token, first: nat, next: nat)

  /** What a step promises: it starts after white space only, moves
      forward, and the token's text is what it consumed (an error carries
      the character it failed on). */
  predicate WellFormed(s: string, pos: nat, r: Lexeme) {
    && pos <= r.first <= r.next <= |s|
    && (forall k :: pos <= k < r.first ==> IsWhiteSpace(s[k]))
    && (r.tok.kind == END <==> r.first == |s|)
    && (r.tok.kind == END ==> r.next == r.first && r.tok.text == "")
    && (r.tok.kind != END ==> r.first < r.next && !IsWhiteSpace(s[r.first]))
    && (r.tok.kind != END && r.tok.kind != ERR ==> r.tok.text == s[r.first..r.next])
    && (r.tok.kind == ERR ==> r.tok.text == [s[r.first]])
  }

  function LexNumber(s: string, p: nat): (r: Lexeme)
    requires p < |s| && IsDigit(s[p])
    ensures r.first == p < r.next <= |s|
    ensures r.tok.kind == NUMBER && r.tok.text == s[p..r.next]
  {
    var e := DigitsEnd(s, p);
    var e2 := if Peek(s, e) == '.' && IsDigit(Peek(s, e + 1)) then DigitsEnd(s, e + 1) else e;
    Lexeme(MakeSubstrToken(NUMBER, s, p, e2 - p), p, e2)
  }

  function LexWord(s: string, p: nat): (r: Lexeme)
    requires p < |s| && (IsAlpha(s[p]) || s[p] == '_')
    ensures r.first == p < r.next <= |s|
    ensures r.tok.kind != END && r.tok.kind != ERR && r.tok.text == s[p..r.next]
    ensures r.tok.kind == IDENTIFIER || r.tok.kind == PRINTLN || IsKeywordKind(r.tok.kind)
  {
    var e := WordEnd(s, p);
    var lexema := s[p..e];
    if lexema == "println" then
      if Peek(s, e) == '!' then
        assert s[p..e + 1] == lexema + "!";
        Lexeme(MakeSubstrToken(PRINTLN, "println!", 0, 8), p, e + 1)
      else Lexeme(MakeSubstrToken(PRINTLN, lexema, 0, |lexema|), p, e)
    else
      match Keyword(lexema)
      case Some(k) => Lexeme(MakeSubstrToken(k, lexema, 0, |lexema|), p, e)
      case None => Lexeme(MakeSubstrToken(IDENTIFIER, s, p, e - p), p, e)
  }

  function LexString(s: string, p: nat): (r: Lexeme)
    requires p < |s| && s[p] == '"'
    ensures r.first == p < r.next <= |s|
    ensures r.tok.kind == STRING_LITERAL || r.tok.kind == ERR
    ensures r.tok.kind == STRING_LITERAL ==> r.tok.text == s[p..r.next]
    ensures r.tok.kind == ERR ==> r.tok.text == [s[p]]
  {
    var e := StringEnd(s, p + 1);
    if Peek(s, e) == '"' then Lexeme(MakeSubstrToken(STRING_LITERAL, s, p, e + 1 - p), p, e + 1)
    else Lexeme(MakeCharToken(ERR, '"'), p, e)
  }

  function LexSymbol(s: string, p: nat): (r: Lexeme)
    requires p < |s|
    ensures r.first == p < r.next <= |s|
    ensures r.tok.kind == ERR || IsSymbolKind(r.tok.kind)
    ensures r.tok.kind != ERR ==> r.tok.text == s[p..r.next]
    ensures r.tok.kind == ERR ==> r.tok.text == [s[p]] && r.next == p + 1
  {
    var c := s[p];
    var d := Peek(s, p + 1);
    match TwoCharOp(c, d)
    case Some(k) => Lexeme(MakeSubstrToken(k, [c, d], 0, 2), p, p + 2)
    case None =>
      match SingleCharOp(c)
      case Some(k) => Lexeme(MakeSubstrToken(k, [c], 0, 1), p, p + 1)
      case None => Lexeme(MakeCharToken(ERR, c), p, p + 1)
  }

  /** `nextToken` as a function of the input and the scanner position. */
  function Lex(s: string, pos: nat): (r: Lexeme)
    requires pos <= |s|
    ensures pos <= r.first <= r.next <= |s|
    ensures r.tok.kind == END <==> r.first == |s|
    ensures r.tok.kind != END ==> r.first < r.next
  {
    var p := SkipWhite(s, pos);
    if p >= |s| then Lexeme(MakeToken(END), p, p)
    else if IsDigit(s[p]) then LexNumber(s, p)
    else if IsAlpha(s[p]) || s[p] == '_' then LexWord(s, p)
    else if s[p] == '"' then LexString(s, p)
    else LexSymbol(s, p)
  }

  /** Every step of the lexer is well formed. */
  lemma LexWellFormed(s: string, pos: nat)
    requires pos <= |s|
    ensures WellFormed(s, pos, Lex(s, pos))
  {
    var p := SkipWhite(s, pos);
    var r := Lex(s, pos);
    if p < |s| && !IsDigit(s[p]) && !IsAlpha(s[p]) && s[p] != '_' && s[p] != '"' {
      assert r == LexSymbol(s, p);
    }
  }

  /** The tokens a caller sees by calling `nextToken` until END or the
      first ERR, both included. */
  function LexAll(s: string, pos: nat): (ts: seq<Token>)
    requires pos <= |s|
    ensures TokenRun(ts)
    decreases |s| - pos
  {
    var r := Lex(s, pos);
    if r.tok.kind == END || r.tok.kind == ERR then [r.tok]
    else
      var rest := LexAll(s, r.next);
      TokenRunCons(r.tok, rest);
      [r.tok] + rest
  }

  /** A run of tokens ending at its first END or ERR. */
  predicate TokenRun(ts: seq<Token>) {
    && |ts| >= 1
    && (ts[|ts| - 1].kind == END || ts[|ts| - 1].kind == ERR)
    && (forall i :: 0 <= i < |ts| - 1 ==> ts[i].kind != END && ts[i].kind != ERR)
  }

  lemma TokenRunCons(t: Token, rest: seq<Token>)
    requires t.kind != END && t.kind != ERR && TokenRun(rest)
    ensures TokenRun([t] + rest)
  {
    var ts := [t] + rest;
    assert ts[|ts| - 1] == rest[|rest| - 1];
    forall i | 0 <= i < |ts| - 1 ensures ts[i].kind != END && ts[i].kind != ERR {
      if i > 0 {
        assert ts[i] == rest[i - 1];
      }
    }
  }

  /** The whole token stream of `s`: one END or ERR, at the end. */
  function Tokenize(s: string): (ts: seq<Token>)
    ensures TokenRun(ts)
    ensures s == [] ==> ts == [MakeToken(END)]
  {
    LexAll(s, 0)
  }

  /** The scanner object: the input and the two cursors. */
  class Scanner {
    var input: string
    var first: nat
    var current: nat

    predicate Valid()
      reads this
    {
      first <= |input| && current <= |input|
    }

    constructor(s: string)
      ensures input == s && first == 0 && current == 0
      ensures Valid()
    {
      input := s;
      first := 0;
      current := 0;
    }

    method ScanNumber() returns (t: Token)
      requires Valid() && first == current < |input| && IsDigit(input[first])
      modifies this
      ensures Valid() && input == old(input) && first == old(first)
      ensures t == LexNumber(input, first).tok && current == LexNumber(input, first).next
    {
      while IsDigit(Peek(input, current))
        invariant first <= current <= |input|
        invariant DigitsEnd(input, current) == DigitsEnd(input, first)
        invariant input == old(input) && first == old(first)
        decreases |input| - current
      {
        current := current + 1;
      }
      assert current == DigitsEnd(input, first);
      if Peek(input, current) == '.' && IsDigit(Peek(input, current + 1)) {
        current := current + 1;
        ScanDigits();
      }
      assert current == LexNumber(input, first).next;
      t := MakeSubstrToken(NUMBER, input, first, current - first);
    }

    /** The loop that consumes the digits after a decimal point. */
    method ScanDigits()
      requires Valid() && first < current
      modifies this
      ensures Valid() && input == old(input) && first == old(first)
      ensures current == DigitsEnd(input, old(current))
    {
      while IsDigit(Peek(input, current))
        invariant old(current) <= current <= |input|
        invariant DigitsEnd(input, current) == DigitsEnd(input, old(current))
        invariant input == old(input) && first == old(first)
        decreases |input| - current
      {
        current := current + 1;
      }
    }

    method ScanWord() returns (t: Token)
      requires Valid() && first == current < |input| && (IsAlpha(input[first]) || input[first] == '_')
      modifies this
      ensures Valid() && input == old(input) && first == old(first)
      ensures t == LexWord(input, first).tok && current == LexWord(input, first).next
    {
      while IsWordChar(Peek(input, current))
        invariant first <= current <= |input|
        invariant WordEnd(input, current) == WordEnd(input, first)
        invariant input == old(input) && first == old(first)
        decreases |input| - current
      {
        current := current + 1;
      }
      var lexema := input[first..current];
      if lexema == "println" {
        if Peek(input, current) == '!' {
          current := current + 1;
          t := MakeSubstrToken(PRINTLN, "println!", 0, 8);
          return;
        }
        t := MakeSubstrToken(PRINTLN, lexema, 0, |lexema|);
        return;
      }
      var kw := Keyword(lexema);
      if kw.Some? {
        t := MakeSubstrToken(kw.value, lexema, 0, |lexema|);
        return;
      }
      t := MakeSubstrToken(IDENTIFIER, input, first, current - first);
    }

    method ScanString() returns (t: Token)
      requires Valid() && first == current < |input| && input[first] == '"'
      modifies this
      ensures Valid() && input == old(input) && first == old(first)
      ensures t == LexString(input, first).tok && current == LexString(input, first).next
    {
      current := current + 1;
      while Peek(input, current) != '"' && Peek(input, current) != '\0'
        invariant first < current <= |input|
        invariant StringEnd(input, current) == StringEnd(input, first + 1)
        invariant input == old(input) && first == old(first)
        decreases |input| - current
      {
        if Peek(input, current) == '\n' {
          break;
        }
        current := current + 1;
      }
      assert current == StringEnd(input, first + 1);
      if Peek(input, current) == '"' {
        current := current + 1;
        t := MakeSubstrToken(STRING_LITERAL, input, first, current - first);
        assert t == LexString(input, first).tok;
        return;
      }
      t := MakeCharToken(ERR, '"');
      assert t == LexString(input, first).tok;
    }

    method ScanSymbol() returns (t: Token)
      requires Valid() && first == current < |input|
      modifies this
      ensures Valid() && input == old(input) && first == old(first)
      ensures t == LexSymbol(input, first).tok && current == LexSymbol(input, first).next
    {
      var c := Peek(input, current);
      var d := Peek(input, current + 1);
      var two := TwoCharOp(c, d);
      if two.Some? {
        current := current + 2;
        t := MakeSubstrToken(two.value, [c, d], 0, 2);
        return;
      }
      current := current + 1;
      var one := SingleCharOp(c);
      if one.Some? {
        t := MakeSubstrToken(one.value, [c], 0, 1);
      } else {
        t := MakeCharToken(ERR, c);
      }
    }

    /** `nextToken`: skips white space and reads one token. At the end of
        the input it returns END and leaves `first` where it was. */
    method NextToken() returns (t: Token)
      requires Valid()
      modifies this
      ensures Valid() && input == old(input)
      ensures t == Lex(input, old(current)).tok
      ensures current == Lex(input, old(current)).next
      ensures t.kind != END ==> first == Lex(input, old(current)).first
      ensures t.kind == END ==> first == old(first)
    {
      while current < |input| && IsWhiteSpace(input[current])
        invariant old(current) <= current <= |input|
        invariant SkipWhite(input, current) == SkipWhite(input, old(current))
        invariant input == old(input) && first == old(first)
        decreases |input| - current
      {
        current := current + 1;
      }
      if current >= |input| {
        return MakeToken(END);
      }
      first := current;
      var c := Peek(input, current);
      if IsDigit(c) {
        t := ScanNumber();
      } else if IsAlpha(c) || c == '_' {
        t := ScanWord();
      } else if c == '"' {
        t := ScanString();
      } else {
        t := ScanSymbol();
      }
    }
  }

  /** A numeral is a run of digits, optionally followed by a dot and at
      least one more digit, and the lexer takes the longest such run. */
  predicate IsNumeral(t: string) {
    var d := DigitPrefix(t);
    && d != []
    && (d == t || (|d| + 1 < |t| && t[|d|] == '.' && AllDigits(t[|d| + 1..])))
  }

  lemma NumeralOfLexNumber(s: string, p: nat)
    requires p < |s| && IsDigit(s[p])
    ensures IsNumeral(LexNumber(s, p).tok.text)
    ensures !IsDigit(Peek(s, LexNumber(s, p).next))
    ensures NoChar(LexNumber(s, p).tok.text, '.') ==>
              !(Peek(s, LexNumber(s, p).next) == '.' && IsDigit(Peek(s, LexNumber(s, p).next + 1)))
  {
    var r := LexNumber(s, p);
    var e := DigitsEnd(s, p);
    var t := r.tok.text;
    assert s[p..r.next] == s[p..e] + s[e..r.next];
    assert s[e..r.next] == [] || !IsDigit(s[e..r.next][0]);
    assert AllDigits(s[p..e]) by {
      forall i | 0 <= i < |s[p..e]| ensures IsDigit(s[p..e][i]) {
        assert s[p..e][i] == s[p + i];
      }
    }
    DigitPrefixOfDigits(s[p..e], s[e..r.next]);
    assert DigitPrefix(t) == s[p..e];
    if r.next != e {
      var u := s[e + 1..r.next];
      assert t[|s[p..e]| + 1..] == u;
      assert AllDigits(u) by {
        forall i | 0 <= i < |u| ensures IsDigit(u[i]) {
          assert u[i] == s[e + 1 + i];
        }
      }
      assert t[|s[p..e]|] == '.';
    }
  }

  /** Only the number branch of the lexer yields NUMBER. */
  lemma NumberFromDigits(s: string, pos: nat)
    requires pos <= |s|
    requires Lex(s, pos).tok.kind == NUMBER
    ensures Lex(s, pos).first < |s| && IsDigit(s[Lex(s, pos).first])
    ensures Lex(s, pos) == LexNumber(s, Lex(s, pos).first)
  {
  }

  /** A NUMBER token is a numeral, and the lexer stops only where the
      numeral cannot be extended. */
  lemma NumberIsNumeral(s: string, pos: nat)
    requires pos <= |s|
    requires Lex(s, pos).tok.kind == NUMBER
    ensures IsNumeral(Lex(s, pos).tok.text)
    ensures !IsDigit(Peek(s, Lex(s, pos).next))
    ensures NoChar(Lex(s, pos).tok.text, '.') ==>
              !(Peek(s, Lex(s, pos).next) == '.' && IsDigit(Peek(s, Lex(s, pos).next + 1)))
  {
    NumberFromDigits(s, pos);
    NumeralOfLexNumber(s, Lex(s, pos).first);
  }

  /** Only the word branch yields IDENTIFIER. */
  lemma IdentifierFromWord(s: string, pos: nat)
    requires pos <= |s|
    requires Lex(s, pos).tok.kind == IDENTIFIER
    ensures Lex(s, pos).first < |s| && (IsAlpha(s[Lex(s, pos).first]) || s[Lex(s, pos).first] == '_')
    ensures Lex(s, pos) == LexWord(s, Lex(s, pos).first)
  {
  }

  /** An IDENTIFIER is a maximal `[A-Za-z_][A-Za-z0-9_]*` word that is no
      reserved word. */
  lemma IdentifierShape(s: string, pos: nat)
    requires pos <= |s|
    requires Lex(s, pos).tok.kind == IDENTIFIER
    ensures var t := Lex(s, pos).tok.text;
      && t != []
      && (IsAlpha(t[0]) || t[0] == '_')
      && (forall i :: 0 <= i < |t| ==> IsWordChar(t[i]))
      && Keyword(t).None? && t != "println"
    ensures !IsWordChar(Peek(s, Lex(s, pos).next))
  {
    IdentifierFromWord(s, pos);
    WordShape(s, Lex(s, pos).first);
  }

  /** The word branch of `IdentifierShape`. */
  lemma WordShape(s: string, p: nat)
    requires p < |s| && (IsAlpha(s[p]) || s[p] == '_')
    requires LexWord(s, p).tok.kind == IDENTIFIER
    ensures var t := LexWord(s, p).tok.text;
      && t != []
      && (IsAlpha(t[0]) || t[0] == '_')
      && (forall i :: 0 <= i < |t| ==> IsWordChar(t[i]))
      && Keyword(t).None? && t != "println"
    ensures !IsWordChar(Peek(s, LexWord(s, p).next))
  {
    var e := WordEnd(s, p);
    var lexema := s[p..e];
    if lexema == "println" {
      assert false;
    }
    assert LexWord(s, p).tok.text == lexema;
    forall i | 0 <= i < |lexema| ensures IsWordChar(lexema[i]) {
      assert lexema[i] == s[p + i];
    }
  }

  /** A STRING token runs from a quote to the next quote on the same line;
      a quote with no partner before the end of its line gives ERR. */
  lemma StringShape(s: string, p: nat)
    requires p < |s| && s[p] == '"'
    ensures var r := LexString(s, p);
      r.tok.kind == STRING_LITERAL ==>
        && |r.tok.text| >= 2 && r.tok.text[|r.tok.text| - 1] == '"'
        && (forall k :: 0 < k < |r.tok.text| - 1 ==>
              r.tok.text[k] != '"' && r.tok.text[k] != '\n' && r.tok.text[k] != '\0')
    ensures var r := LexString(s, p);
      r.tok.kind == ERR <==>
        (forall k :: p < k < |s| ==> s[k] != '"' || (exists j :: p < j < k && (s[j] == '\n' || s[j] == '\0')))
  {
    var r := LexString(s, p);
    var e := StringEnd(s, p + 1);
    if r.tok.kind == STRING_LITERAL {
      var t := r.tok.text;
      forall k | 0 < k < |t| - 1
        ensures t[k] != '"' && t[k] != '\n' && t[k] != '\0'
      {
        assert t[k] == s[p + k];
      }
      assert !(forall k :: p < k < |s| ==> s[k] != '"' || (exists j :: p < j < k && (s[j] == '\n' || s[j] == '\0'))) by {
        assert s[e] == '"';
      }
    } else {
      forall k | p < k < |s| && s[k] == '"'
        ensures exists j :: p < j < k && (s[j] == '\n' || s[j] == '\0')
      {
        assert k != e;
        if k < e {
          assert false;
        }
        assert s[e] == '\n' || s[e] == '\0';
      }
    }
  }

  /** A character that starts no number, word or string goes to the
      symbol rules. */
  lemma LexesSymbol(s: string, pos: nat)
    requires pos <= |s| && SkipWhite(s, pos) < |s|
    requires var c := s[SkipWhite(s, pos)]; !IsDigit(c) && !IsAlpha(c) && c != '_' && c != '"'
    ensures Lex(s, pos) == LexSymbol(s, SkipWhite(s, pos))
  {
  }

  /** Every two-character operator starts with a symbol character. */
  lemma TwoCharOpStart(c: char, d: char)
    requires TwoCharOp(c, d).Some?
    ensures c in ".-+=!<>|&*"
  {
  }

  /** The two-character operators are matched before any one-character
      symbol: `==` is one EQ, never two ASSIGNs. */
  lemma TwoCharFirst(s: string, pos: nat)
    requires pos <= |s|
    requires SkipWhite(s, pos) + 1 < |s|
    requires TwoCharOp(s[SkipWhite(s, pos)], s[SkipWhite(s, pos) + 1]).Some?
    ensures Lex(s, pos).tok.kind == TwoCharOp(s[SkipWhite(s, pos)], s[SkipWhite(s, pos) + 1]).value
    ensures Lex(s, pos).next == SkipWhite(s, pos) + 2
  {
    var p := SkipWhite(s, pos);
    TwoCharOpStart(s[p], s[p + 1]);
    LexesSymbol(s, pos);
    assert Peek(s, p + 1) == s[p + 1];
  }

  /** A character no rule accepts gives ERR carrying that character. */
  lemma UnknownCharacter(s: string, pos: nat)
    requires pos <= |s|
    requires SkipWhite(s, pos) < |s|
    requires var c := s[SkipWhite(s, pos)];
      !IsDigit(c) && !IsAlpha(c) && c != '_' && c != '"'
      && TwoCharOp(c, Peek(s, SkipWhite(s, pos) + 1)).None? && SingleCharOp(c).None?
    ensures Lex(s, pos).tok == Token(ERR, [s[SkipWhite(s, pos)]])
    ensures Lex(s, pos).next == SkipWhite(s, pos) + 1
  {
    LexesSymbol(s, pos);
  }

  /** `println` swallows a following `!`. */
  lemma PrintlnMacro(rest: string)
    ensures Lex("println!" + rest, 0).tok == Token(PRINTLN, "println!")
    ensures Lex("println!" + rest, 0).next == 8
  {
    var s := "println!" + rest;
    assert WordEnd(s, 7) == 7;
    assert WordEnd(s, 0) == 7;
    assert s[0..7] == "println";
  }

  /** A range `0..5` is NUMBER, DOTDOT, NUMBER: the dot of `..` does not
      start a fraction because no digit follows it. */
  lemma RangeLexes()
    ensures Tokenize("0..5") == [Token(NUMBER, "0"), Token(DOTDOT, ".."), Token(NUMBER, "5"), Token(END, "")]
  {
    var s := "0..5";
    RangeStart();
    RangeDots();
    RangeEnd();
    assert LexAll(s, 4) == [Token(END, "")];
    assert LexAll(s, 3) == [Token(NUMBER, "5"), Token(END, "")];
    assert LexAll(s, 1) == [Token(DOTDOT, ".."), Token(NUMBER, "5"), Token(END, "")];
  }

  lemma RangeStart()
    ensures Lex("0..5", 0) == Lexeme(Token(NUMBER, "0"), 0, 1)
  {
    var s := "0..5";
    assert SkipWhite(s, 0) == 0;
    assert DigitsEnd(s, 1) == 1;
    assert LexNumber(s, 0) == Lexeme(Token(NUMBER, "0"), 0, 1);
  }

  lemma RangeDots()
    ensures Lex("0..5", 1) == Lexeme(Token(DOTDOT, ".."), 1, 3)
  {
    var s := "0..5";
    assert SkipWhite(s, 1) == 1;
    LexesSymbol(s, 1);
    assert s[1..3] == "..";
  }

  lemma RangeEnd()
    ensures Lex("0..5", 3) == Lexeme(Token(NUMBER, "5"), 3, 4)
    ensures Lex("0..5", 4) == Lexeme(Token(END, ""), 4, 4)
  {
    var s := "0..5";
    assert SkipWhite(s, 3) == 3;
    assert DigitsEnd(s, 4) == 4;
    assert LexNumber(s, 3) == Lexeme(Token(NUMBER, "5"), 3, 4);
    assert SkipWhite(s, 4) == 4;
  }
}
