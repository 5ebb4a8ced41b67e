/** The basic type tags of the language and their names. */
module SemanticTypes {

  /** The tags, in declaration order. */
  datatype TType = NOTYPE | VOID | BOOL | I32 | I64 | U32 | U64 | F32 | F64

  /** The position of a tag in the enumeration. */
  function Ordinal(t: TType): (n: nat)
    ensures n < |TypeNames|
  {
    match t
    case NOTYPE => 0
    case VOID => 1
    case BOOL => 2
    case I32 => 3
    case I64 => 4
    case U32 => 5
    case U64 => 6
    case F32 => 7
    case F64 => 8
  }

  /** `type_names`, indexed by the tag's ordinal. */
  const TypeNames: seq<string> := ["notype", "void", "bool", "i32", "i64", "u32", "u64", "f32", "f64"]

  function TypeName(t: TType): string {
    TypeNames[Ordinal(t)]
  }

  /** `string_to_type`: the tag a type name denotes, with `int` kept as a
      legacy spelling of `i32`; any other name gives NOTYPE. */
  function StringToType(s: string): (t: TType)
    ensures t != NOTYPE ==> s == TypeName(t) || (s == "int" && t == I32)
  {
    if s == "void" then VOID
    else if s == "bool" then BOOL
    else if s == "int" || s == "i32" then I32
    else if s == "i64" then I64
    else if s == "u32" then U32
    else if s == "u64" then U64
    else if s == "f32" then F32
    else if s == "f64" then F64
    else NOTYPE
  }

  /** `is_numeric`. */
  predicate IsNumeric(t: TType) {
    t == I32 || t == I64 || t == U32 || t == U64 || t == F32 || t == F64
  }

  /** Reading back the name of any of the nine tags gives the tag. */
  lemma StringToTypeRoundTrip(t: TType)
    ensures StringToType(TypeName(t)) == t
  {
  }

  /** The numeric tags are exactly those that are neither NOTYPE, VOID nor BOOL. */
  lemma NumericTags(t: TType)
    ensures IsNumeric(t) <==> t != NOTYPE && t != VOID && t != BOOL
  {
  }

  /** The tag names are pairwise distinct. */
  lemma TypeNamesDistinct(a: TType, b: TType)
    ensures TypeName(a) == TypeName(b) ==> a == b
  {
    StringToTypeRoundTrip(a);
    StringToTypeRoundTrip(b);
  }

  /** A type object; `ttype` is the field `set_basic_type` updates. */
  class Type {
    var ttype: TType

    /** `Type()`: NOTYPE. */
    constructor ()
      ensures ttype == NOTYPE
    {
      ttype := NOTYPE;
    }

    constructor FromTag(tt: TType)
      ensures ttype == tt
    {
      ttype := tt;
    }

    /** `match`: the two objects carry the same tag. */
    predicate Match(t: Type)
      reads this, t
    {
      ttype == t.ttype
    }

    /** `set_basic_type`: an unknown name is refused and leaves the tag
        alone; a known one sets it. */
    method SetBasicType(s: string) returns (ok: bool)
      modifies this
      ensures ok <==> StringToType(s) != NOTYPE
      ensures ok ==> ttype == StringToType(s) && ttype != NOTYPE
      ensures !ok ==> ttype == old(ttype)
    {
      var tt := StringToType(s);
      if tt == NOTYPE {
        return false;
      }
      ttype := tt;
      return true;
    }
  }

  /** `match` is an equivalence between type objects. */
  lemma MatchIsEquivalence(a: Type, b: Type, c: Type)
    ensures a.Match(a)
    ensures a.Match(b) ==> b.Match(a)
    ensures a.Match(b) && b.Match(c) ==> a.Match(c)
  {
  }
}
