/**
 * Reading the goroutine id out of the header of a goroutine stack dump
 * ("goroutine 7 [running]:..."): strip the "goroutine " prefix, take the first
 * whitespace-separated field, and parse it as a decimal integer. The dump text
 * is an input here.
 */
module Goid {
  import opened Wrappers
  import opened Decimal

  const Prefix: string := "goroutine "

  /** Why the id could not be read; the logger panics on either. */
  datatype GoidFault =
    | NoField                   // the dump holds no field at all: indexing Fields(...)[0] fails
    | NotInteger(field: string) // the first field is not an integer Atoi accepts

  /** `strings.TrimPrefix`: drop `p` from the front of `s` when it is there. */
  function TrimPrefix(s: string, p: string): (r: string)
    ensures p <= s ==> p + r == s
    ensures !(p <= s) ==> r == s
  {
    if p <= s then s[|p|..] else s
  }

  /** The white space `unicode.IsSpace` recognises, which separates fields. */
  predicate IsSpace(c: char)
  {
    c == '\t' || c == '\n' || c == '\U{B}' || c == '\U{C}' || c == '\r' || c == ' '
    || c == '\U{85}' || c == '\U{A0}' || c == '\U{1680}'
    || ('\U{2000}' <= c <= '\U{200A}')
    || c == '\U{2028}' || c == '\U{2029}' || c == '\U{202F}' || c == '\U{205F}' || c == '\U{3000}'
  }

  predicate NoSpaces(s: string)
  {
    forall i :: 0 <= i < |s| ==> !IsSpace(s[i])
  }

  /** Drops the leading white space: what remains is empty or starts with a non-space. */
  function TrimLeftSpaces(s: string): (r: string)
    ensures |r| <= |s| && r == s[|s| - |r|..]
    ensures forall i :: 0 <= i < |s| - |r| ==> IsSpace(s[i])
    ensures r != [] ==> !IsSpace(r[0])
  {
    if s != [] && IsSpace(s[0]) then TrimLeftSpaces(s[1..]) else s
  }

  /** The longest prefix of `s` without white space. */
  function FieldPrefix(s: string): (r: string)
    ensures r <= s && NoSpaces(r)
    ensures |r| < |s| ==> IsSpace(s[|r|])
  {
    if s == [] || IsSpace(s[0]) then [] else [s[0]] + FieldPrefix(s[1..])
  }

  /** `strings.Fields(s)[0]`: the first maximal run of non-space characters, if any. */
  function FirstField(s: string): Option<string>
  {
    var t := TrimLeftSpaces(s);
    if t == [] then None else Some(FieldPrefix(t))
  }

  /** The id parse of `goid`, on the dump text. */
  function ParseGoid(dump: string): Result<int, GoidFault>
  {
    match FirstField(TrimPrefix(dump, Prefix))
    case None => Failure(NoField)
    case Some(field) =>
      match Atoi(field)
      case None => Failure(NotInteger(field))
      case Some(id) => Success(id)
  }

  /**
   * The first field is absent exactly when the text is all white space, and
   * otherwise it is a non-empty run without white space.
   */
  lemma FirstFieldFound(s: string)
    ensures FirstField(s).None? <==> forall i :: 0 <= i < |s| ==> IsSpace(s[i])
    ensures FirstField(s).Some? ==> FirstField(s).value != [] && NoSpaces(FirstField(s).value)
  {
  }

  /**
   * What the id parse can end in: an id in the 64-bit range, no field at all,
   * or a non-empty, space-free first field that Atoi refuses.
   */
  lemma ParseGoidOutcomes(dump: string)
    ensures ParseGoid(dump).Success? ==> MinInt64 <= ParseGoid(dump).value <= MaxInt64
    ensures var r := ParseGoid(dump);
      r.Failure? && r.error.NotInteger? ==> r.error.field != [] && NoSpaces(r.error.field) && Atoi(r.error.field) == None
  {
    FirstFieldFound(TrimPrefix(dump, Prefix));
  }

  /** A field followed by white space (or by nothing) is taken whole and no further. */
  lemma {:induction false} FieldPrefixOfField(field: string, rest: string)
    requires NoSpaces(field)
    requires rest == [] || IsSpace(rest[0])
    ensures FieldPrefix(field + rest) == field
    decreases |field|
  {
    if field == [] {
      assert field + rest == rest;
    } else {
      assert (field + rest)[1..] == field[1..] + rest;
      FieldPrefixOfField(field[1..], rest);
    }
  }

  /** The first field is found whatever comes after it. */
  lemma FirstFieldOf(field: string, rest: string)
    requires field != [] && NoSpaces(field)
    requires rest == [] || IsSpace(rest[0])
    ensures FirstField(field + rest) == Some(field)
  {
    assert (field + rest)[0] == field[0];
    FieldPrefixOfField(field, rest);
  }

  /**
   * A header "goroutine N" followed by white space and anything else yields N,
   * for every N that fits in 64 bits.
   */
  lemma GoidOfHeader(id: int, rest: string)
    requires MinInt64 <= id <= MaxInt64
    requires rest == [] || IsSpace(rest[0])
    ensures ParseGoid(Prefix + IntToString(id) + rest) == Success(id)
  {
    var digits := IntToString(id);
    assert NoSpaces(digits) by {
      forall i | 0 <= i < |digits| ensures !IsSpace(digits[i]) {
        if i > 0 { assert digits[1..][i - 1] == digits[i]; }
      }
    }
    var dump := Prefix + digits + rest;
    assert Prefix <= dump;
    assert TrimPrefix(dump, Prefix) == digits + rest;
    FirstFieldOf(digits, rest);
    AtoiOfIntToString(id);
  }

  /** A first field that Atoi refuses makes the parse fail with that field. */
  lemma GoidRejectsNonInteger(field: string, rest: string)
    requires field != [] && NoSpaces(field) && Atoi(field) == None
    requires rest == [] || IsSpace(rest[0])
    ensures ParseGoid(Prefix + field + rest) == Failure(NotInteger(field))
  {
    var dump := Prefix + field + rest;
    assert Prefix <= dump;
    assert TrimPrefix(dump, Prefix) == field + rest;
    FirstFieldOf(field, rest);
  }

  /** The parse finds no field exactly when all that follows the prefix is white space. */
  lemma GoidNoFieldIffBlank(dump: string)
    ensures var body := TrimPrefix(dump, Prefix);
      ParseGoid(dump) == Failure(NoField) <==> forall i :: 0 <= i < |body| ==> IsSpace(body[i])
  {
    FirstFieldFound(TrimPrefix(dump, Prefix));
  }

  /** A dump that is only white space after the prefix has no field to read. */
  lemma GoidRejectsBlank(blank: string)
    requires forall i :: 0 <= i < |blank| ==> IsSpace(blank[i])
    ensures ParseGoid(Prefix + blank) == Failure(NoField)
  {
    assert Prefix <= Prefix + blank;
    assert TrimPrefix(Prefix + blank, Prefix) == blank;
  }
}
