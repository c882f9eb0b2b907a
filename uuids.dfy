/**
 * Player identities (java.util.UUID) and their canonical text form, the
 * form `UUID.toString` writes and `UUID.fromString` reads back: 32 hexadecimal
 * digits in groups of 8-4-4-4-12 separated by '-'.
 */
module Uuids {
  import opened Wrappers

  type Nibble = x: int | 0 <= x < 16

  /** A 128-bit identity, as its 32 hexadecimal digits, most significant first. */
  type Uuid = s: seq<Nibble> | |s| == 32 witness seq(32, _ => 0)

  const TextLength := 36

  /** Positions of the four dashes in the text form. */
  predicate IsDash(j: int) {
    j == 8 || j == 13 || j == 18 || j == 23
  }

  /** The digit shown at text position j (j not a dash). */
  function DigitIndex(j: int): int {
    if j < 8 then j else if j < 13 then j - 1 else if j < 18 then j - 2
    else if j < 23 then j - 3 else j - 4
  }

  /** The text position where digit i is written. */
  function TextPosition(i: int): int {
    if i < 8 then i else if i < 12 then i + 1 else if i < 16 then i + 2
    else if i < 20 then i + 3 else i + 4
  }

  function HexChar(n: Nibble): char {
    if n < 10 then (48 + n) as char else (87 + n) as char
  }

  predicate IsHexChar(c: char) {
    ('0' <= c <= '9') || ('a' <= c <= 'f')
  }

  function HexValue(c: char): Nibble
    requires IsHexChar(c)
  {
    if c <= '9' then c as int - 48 else c as int - 87
  }

  /** UUID.toString: the lower-case canonical text form. */
  function ToString(u: Uuid): (s: string)
    ensures |s| == TextLength
    ensures forall j :: 0 <= j < |s| ==> (s[j] == '-' <==> IsDash(j))
    ensures forall j :: 0 <= j < |s| ==> s[j] != '.'
    ensures IsCanonical(s)
  {
    seq(TextLength, j requires 0 <= j < TextLength =>
      if IsDash(j) then '-' else HexChar(u[DigitIndex(j)]))
  }

  predicate IsCanonical(s: string) {
    |s| == TextLength &&
    forall j :: 0 <= j < TextLength ==> if IsDash(j) then s[j] == '-' else IsHexChar(s[j])
  }

  /** UUID.fromString, restricted to the canonical form: None where Java throws. */
  function FromString(s: string): (r: Option<Uuid>)
    ensures r.Some? <==> IsCanonical(s)
    ensures r.Some? ==> forall i :: 0 <= i < 32 ==> HexChar(r.value[i]) == s[TextPosition(i)]
  {
    if IsCanonical(s) then
      Some(seq(32, i requires 0 <= i < 32 => HexValue(s[TextPosition(i)])))
    else None
  }

  /** Reading back what ToString wrote gives the same identity. */
  lemma ParseOfToString(u: Uuid)
    ensures FromString(ToString(u)) == Some(u)
  {
    var s := ToString(u);
    forall j | 0 <= j < TextLength
      ensures if IsDash(j) then s[j] == '-' else IsHexChar(s[j])
    {
      if !IsDash(j) {
        assert s[j] == HexChar(u[DigitIndex(j)]);
      }
    }
    assert IsCanonical(s);
    var v := FromString(s).value;
    forall i | 0 <= i < 32 ensures v[i] == u[i] {
      assert !IsDash(TextPosition(i)) && DigitIndex(TextPosition(i)) == i;
      assert HexValue(HexChar(u[i])) == u[i];
    }
    assert v == u;
  }

  /** A text that parses is exactly the ToString of what it parses to. */
  lemma ToStringOfParse(s: string, u: Uuid)
    requires FromString(s) == Some(u)
    ensures ToString(u) == s
  {
    var t := ToString(u);
    forall j | 0 <= j < TextLength ensures t[j] == s[j] {
      if !IsDash(j) {
        assert TextPosition(DigitIndex(j)) == j;
        assert u[DigitIndex(j)] == HexValue(s[j]);
      }
    }
  }

  /** Distinct identities have distinct text forms. */
  lemma ToStringInjective(u: Uuid, v: Uuid)
    requires ToString(u) == ToString(v)
    ensures u == v
  {
    ParseOfToString(u);
    ParseOfToString(v);
  }
}
