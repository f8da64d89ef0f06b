/** java.util.UUID as the model sees it: 128 bits held as 32 hexadecimal
    digits, with the textual form of section 3 of RFC 4122 (8-4-4-4-12 hex
    digits separated by '-') that UUID.toString writes and UUID.fromString
    reads. */
module Uuids {
  import opened Text
  import opened Wrappers

  type Nibble = n: int | 0 <= n < 16

  datatype UuidBits = UuidBits(nibbles: seq<Nibble>)

  /** A UUID: exactly 32 hex digits, most significant first. */
  type Uuid = u: UuidBits | |u.nibbles| == 32 witness UuidBits(seq(32, _ => 0))

  /** The lower-case hex digit UUID.toString writes for n. */
  function HexDigit(n: Nibble): char
  {
    "0123456789abcdef"[n]
  }

  /** The value of a hex digit of either case, as Long.parseLong(_, 16)
      reads it; None for any other character. */
  function HexValue(c: char): (r: Option<Nibble>)
  {
    if '0' <= c <= '9' then Some(c as int - '0' as int)
    else if 'a' <= c <= 'f' then Some(c as int - 'a' as int + 10)
    else if 'A' <= c <= 'F' then Some(c as int - 'A' as int + 10)
    else None
  }

  /** Positions of the four '-' separators in the 36-character form. */
  predicate IsDashPosition(i: int)
  {
    i == 8 || i == 13 || i == 18 || i == 23
  }

  /** Text position of hex digit k (0 <= k < 32). */
  function DigitPosition(k: int): int
  {
    if k < 8 then k else if k < 12 then k + 1 else if k < 16 then k + 2
    else if k < 20 then k + 3 else k + 4
  }

  /** Hex digit index of a non-separator text position i (0 <= i < 36). */
  function DigitIndex(i: int): int
  {
    if i < 8 then i else if i < 13 then i - 1 else if i < 18 then i - 2
    else if i < 23 then i - 3 else i - 4
  }

  /** The textual form of section 3 of RFC 4122, hex digits of either case. */
  predicate IsUuidText(s: string)
  {
    |s| == 36
    && (forall i :: 0 <= i < 36 && IsDashPosition(i) ==> s[i] == '-')
    && (forall i :: 0 <= i < 36 && !IsDashPosition(i) ==> HexValue(s[i]).Some?)
  }

  /** UUID.toString. */
  function ToString(u: Uuid): (r: string)
    ensures IsUuidText(r)
  {
    seq(36, i requires 0 <= i < 36 =>
      if IsDashPosition(i) then '-' else HexDigit(u.nibbles[DigitIndex(i)]))
  }

  /** UUID.fromString on the canonical form; None is the
      IllegalArgumentException it throws. */
  function FromString(s: string): (r: Option<Uuid>)
    ensures r.Some? <==> IsUuidText(s)
  {
    if IsUuidText(s) then
      var u: Uuid := UuidBits(seq(32, k requires 0 <= k < 32 => HexValue(s[DigitPosition(k)]).value));
      Some(u)
    else None
  }

  /** fromString(toString(u)) == u. */
  lemma FromStringToString(u: Uuid)
    ensures FromString(ToString(u)) == Some(u)
  {
    var t := ToString(u);
    var v := FromString(t).value;
    forall k | 0 <= k < 32 ensures v.nibbles[k] == u.nibbles[k] {
      assert DigitIndex(DigitPosition(k)) == k;
      assert t[DigitPosition(k)] == HexDigit(u.nibbles[k]);
    }
    assert v.nibbles == u.nibbles;
  }

  /** toString(fromString(s)) is s in lower case. */
  lemma ToStringFromString(s: string)
    requires IsUuidText(s)
    ensures ToString(FromString(s).value) == LowerCase(s)
  {
    var u := FromString(s).value;
    var t := ToString(u);
    forall i | 0 <= i < 36 ensures t[i] == LowerCase(s)[i] {
      if !IsDashPosition(i) {
        assert DigitPosition(DigitIndex(i)) == i;
      }
    }
  }
}
