/** Tokens: their kinds, the three constructors and the printer. */
module Tokens {
  import opened Wrappers
  import opened Text

  /** The token kinds, in declaration order. */
  datatype Kind =
    | NUMBER | STRING_LITERAL | IDENTIFIER | ERR | END
    | LPAREN | RPAREN | LBRACE | RBRACE | LBRACKET | RBRACKET
    | COMMA | SEMICOL | COLON | DOT | DOTDOT | ARROW
    | PLUS | MINUS | MUL | DIV | MOD | POW
    | ASSIGN | PLUS_ASSIGN | MINUS_ASSIGN
    | OR | AND | NOT
    | EQ | NEQ | LT | GT | LE | GE
    | FN | STRUCT | TYPE | LET | MUT | FOR | IN | IF | ELSE | WHILE | RETURN | PRINTLN
    | U8 | U16 | U32 | U64 | USIZE | I32 | I64 | F32 | F64 | BOOL
    | TRUE | FALSE | FUN | ENDFUN | VAR | PRINT
    | AND_LEGACY

  datatype Token = Token(kind: Kind, text: string)

  /** `Token(type)`. */
  function MakeToken(k: Kind): (t: Token)
    ensures t.kind == k && t.text == ""
  {
    Token(k, "")
  }

  /** `Token(type, c)`. */
  function MakeCharToken(k: Kind, c: char): (t: Token)
    ensures t.kind == k && |t.text| == 1 && t.text[0] == c
  {
    Token(k, [c])
  }

  /** `Token(type, source, first, n)`: the text is `source.substr(first, n)`,
      at most `n` characters from `first` on. */
  function MakeSubstrToken(k: Kind, source: string, first: nat, n: nat): (t: Token)
    requires first <= |source|
    ensures t.kind == k
    ensures |t.text| == if first + n <= |source| then n else |source| - first
    ensures forall i :: 0 <= i < |t.text| ==> t.text[i] == source[first + i]
    ensures first + n <= |source| ==> t.text == source[first..first + n]
  {
    Token(k, if first + n <= |source| then source[first..first + n] else source[first..])
  }

  /** The name the printer shows for each kind. */
  function Name(k: Kind): string {
    match k
    case NUMBER => "NUMBER"
    case STRING_LITERAL => "STRING"
    case IDENTIFIER => "IDENTIFIER"
    case ERR => "ERR"
    case END => "END"
    case LPAREN => "LPAREN"
    case RPAREN => "RPAREN"
    case LBRACE => "LBRACE"
    case RBRACE => "RBRACE"
    case LBRACKET => "LBRACKET"
    case RBRACKET => "RBRACKET"
    case COMMA => "COMMA"
    case SEMICOL => "SEMICOL"
    case COLON => "COLON"
    case DOT => "DOT"
    case DOTDOT => "DOTDOT"
    case ARROW => "ARROW"
    case PLUS => "PLUS"
    case MINUS => "MINUS"
    case MUL => "MUL"
    case DIV => "DIV"
    case MOD => "MOD"
    case POW => "POW"
    case ASSIGN => "ASSIGN"
    case PLUS_ASSIGN => "PLUS_ASSIGN"
    case MINUS_ASSIGN => "MINUS_ASSIGN"
    case OR => "OR"
    case AND => "AND"
    case NOT => "NOT"
    case EQ => "EQ"
    case NEQ => "NEQ"
    case LT => "LT"
    case GT => "GT"
    case LE => "LE"
    case GE => "GE"
    case FN => "FN"
    case STRUCT => "STRUCT"
    case TYPE => "TYPE"
    case LET => "LET"
    case MUT => "MUT"
    case FOR => "FOR"
    case IN => "IN"
    case IF => "IF"
    case ELSE => "ELSE"
    case WHILE => "WHILE"
    case RETURN => "RETURN"
    case PRINTLN => "PRINTLN"
    case U8 => "U8"
    case U16 => "U16"
    case U32 => "U32"
    case U64 => "U64"
    case USIZE => "USIZE"
    case I32 => "I32"
    case I64 => "I64"
    case F32 => "F32"
    case F64 => "F64"
    case BOOL => "BOOL"
    case TRUE => "TRUE"
    case FALSE => "FALSE"
    case FUN => "FUN"
    case ENDFUN => "ENDFUN"
    case VAR => "VAR"
    case PRINT => "PRINT"
    case AND_LEGACY => "AND_LEGACY"
  }

  /** END, the primitive type kinds and AND_LEGACY print without text. */
  predicate PrintsWithoutText(k: Kind) {
    k == END || k == U8 || k == U16 || k == U32 || k == U64 || k == USIZE
    || k == I32 || k == I64 || k == F32 || k == F64 || k == BOOL || k == AND_LEGACY
  }

  function WithText(name: string, text: string): string {
    "TOKEN(" + name + ", \"" + text + "\")"
  }

  /** `operator<<` on a token. */
  function Print(t: Token): string {
    if PrintsWithoutText(t.kind) then "TOKEN(" + Name(t.kind) + ")"
    else WithText(Name(t.kind), t.text)
  }

  /** The kinds in declaration order: the enumeration's values 0 to 63. */
  const AllKinds: seq<Kind> := [
    NUMBER, STRING_LITERAL, IDENTIFIER, ERR, END, LPAREN, RPAREN, LBRACE,
    RBRACE, LBRACKET, RBRACKET, COMMA, SEMICOL, COLON, DOT, DOTDOT,
    ARROW, PLUS, MINUS, MUL, DIV, MOD, POW, ASSIGN,
    PLUS_ASSIGN, MINUS_ASSIGN, OR, AND, NOT, EQ, NEQ, LT,
    GT, LE, GE, FN, STRUCT, TYPE, LET, MUT,
    FOR, IN, IF, ELSE, WHILE, RETURN, PRINTLN, U8,
    U16, U32, U64, USIZE, I32, I64, F32, F64,
    BOOL, TRUE, FALSE, FUN, ENDFUN, VAR, PRINT, AND_LEGACY]

  /** `operator<<` applied to a raw kind value: the values of the
      enumeration print as their kind, anything else reaches the default
      branch and prints as UNKNOWN with its text. */
  function PrintRaw(code: int, text: string): (s: string)
    ensures 0 <= code < |AllKinds| ==> s == Print(Token(AllKinds[code], text))
    ensures !(0 <= code < |AllKinds|) ==> s == "TOKEN(UNKNOWN, \"" + text + "\")"
  {
    if 0 <= code < |AllKinds| then Print(Token(AllKinds[code], text))
    else WithText("UNKNOWN", text)
  }

  /** `operator<<` on a token pointer: null, or the token itself. */
  function PrintPtr(t: Option<Token>): (s: string)
    ensures t.None? ==> s == "TOKEN(NULL)"
    ensures t.Some? ==> s == Print(t.value)
  {
    match t
    case None => "TOKEN(NULL)"
    case Some(tok) => Print(tok)
  }

  /** Text-bearing kinds show their text verbatim inside the printed form,
      between the kind's name and the closing parenthesis. */
  lemma PrintShowsText(t: Token)
    requires !PrintsWithoutText(t.kind)
    ensures Print(t) == "TOKEN(" + Name(t.kind) + ", \"" + t.text + "\")"
    ensures Contains(Print(t), t.text)
  {
    ContainsMiddle("TOKEN(" + Name(t.kind) + ", \"", t.text, "\")");
  }

  /** END, the primitive types and AND_LEGACY print the same whatever
      their text. */
  lemma PrintIgnoresText(k: Kind, a: string, b: string)
    requires PrintsWithoutText(k)
    ensures Print(Token(k, a)) == Print(Token(k, b)) == "TOKEN(" + Name(k) + ")"
  {
  }

  /** The string literal kind prints under the name STRING; END prints
      as `TOKEN(END)`. */
  lemma PrintNames(text: string)
    ensures Print(Token(STRING_LITERAL, text)) == "TOKEN(STRING, \"" + text + "\")"
    ensures Print(Token(END, text)) == "TOKEN(END)"
    ensures Print(Token(I32, text)) == "TOKEN(I32)"
  {
  }

  /** For a kind that prints its text, two tokens of that kind print
      alike only when their texts are equal. */
  lemma PrintKeepsText(k: Kind, a: string, b: string)
    requires !PrintsWithoutText(k)
    ensures Print(Token(k, a)) == Print(Token(k, b)) ==> a == b
  {
    var pre := "TOKEN(" + Name(k) + ", \"";
    var post := "\")";
    if Print(Token(k, a)) == Print(Token(k, b)) {
      assert pre + a + post == pre + b + post;
      assert |a| == |b|;
      forall i | 0 <= i < |a| ensures a[i] == b[i] {
        assert (pre + a + post)[|pre| + i] == a[i];
        assert (pre + b + post)[|pre| + i] == b[i];
      }
    }
  }
}
