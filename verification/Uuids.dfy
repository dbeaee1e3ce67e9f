/**
 UUIDs and their text form. The library that formats and parses them is not part of this model:
 everything else holds for any `UuidText` that is `Lawful`, and `CanonicalTextIsLawful` shows that the
 text form of section 4 of RFC 9562 is one.
 */
module Uuids {
  import opened Base

  newtype Uuid = x: int | 0 <= x < 0x1_0000_0000_0000_0000_0000_0000_0000_0000

  const NIL: Uuid := 0

  datatype UuidText = UuidText(format: Uuid -> string, parse: string -> Option<Uuid>)

  /** The unreserved characters of section 2.3 of RFC 3986. */
  predicate Unreserved(c: char) {
    'a' <= c <= 'z' || 'A' <= c <= 'Z' || '0' <= c <= '9' || c in "-._~"
  }

  predicate AllUnreserved(s: string) {
    forall i :: 0 <= i < |s| ==> Unreserved(s[i])
  }

  /** What the services rely on: parsing a formatted UUID gives it back, and its text is plain and not empty. */
  ghost predicate Lawful(t: UuidText) {
    forall u: Uuid :: t.parse(t.format(u)) == Some(u) && t.format(u) != "" && AllUnreserved(t.format(u))
  }

  lemma FormatIsInjective(t: UuidText, u: Uuid, v: Uuid)
    requires Lawful(t)
    ensures t.format(u) == t.format(v) <==> u == v
  {
    assert t.parse(t.format(u)) == Some(u) && t.parse(t.format(v)) == Some(v);
  }

  // The canonical text: 32 hexadecimal digits in groups of 8, 4, 4, 4 and 12.

  const HEX: string := "0123456789abcdef"

  function HexDigits(n: nat, k: nat): (s: string)
    ensures |s| == k
    ensures forall i :: 0 <= i < k ==> Unreserved(s[i])
  {
    if k == 0 then "" else HexDigits(n / 16, k - 1) + [HEX[n % 16]]
  }

  function DigitValue(c: char): Option<nat> {
    if '0' <= c <= '9' then Some((c - '0') as nat)
    else if 'a' <= c <= 'f' then Some((c - 'a') as nat + 10)
    else if 'A' <= c <= 'F' then Some((c - 'A') as nat + 10)
    else None
  }

  function HexValue(s: string): Option<nat> {
    if s == "" then Some(0) else
      var high := HexValue(s[..|s| - 1]);
      var low := DigitValue(s[|s| - 1]);
      if high.Some? && low.Some? then Some(high.value * 16 + low.value) else None
  }

  function Pow16(k: nat): nat {
    if k == 0 then 1 else 16 * Pow16(k - 1)
  }

  lemma Pow16Of32()
    ensures Pow16(32) == 0x1_0000_0000_0000_0000_0000_0000_0000_0000
  {
    assert Pow16(8) == 0x1_0000_0000;
    assert Pow16(16) == 0x1_0000_0000_0000_0000;
    assert Pow16(24) == 0x1_0000_0000_0000_0000_0000_0000;
  }

  lemma DigitOfValue(d: nat)
    requires d < 16
    ensures DigitValue(HEX[d]) == Some(d)
  {}

  lemma NoDigits()
    ensures HexValue("") == Some(0)
  {}

  lemma OneMoreDigit(s: string, high: nat, d: nat)
    requires HexValue(s) == Some(high) && d < 16
    ensures HexValue(s + [HEX[d]]) == Some(high * 16 + d)
  {
    hide DigitValue;
    DigitOfValue(d);
    assert (s + [HEX[d]])[..|s|] == s;
  }

  lemma {:induction false} HexRoundTrip(n: nat, k: nat)
    requires n < Pow16(k)
    ensures HexValue(HexDigits(n, k)) == Some(n)
  {
    hide HexValue;
    if k == 0 {
      NoDigits();
    } else {
      HexRoundTrip(n / 16, k - 1);
      OneMoreDigit(HexDigits(n / 16, k - 1), n / 16, n % 16);
    }
  }

  function Grouped(h: string): (s: string)
    requires |h| == 32
  {
    h[..8] + "-" + h[8..12] + "-" + h[12..16] + "-" + h[16..20] + "-" + h[20..]
  }

  function CanonicalFormat(u: Uuid): string {
    Grouped(HexDigits(u as nat, 32))
  }

  function CanonicalParse(s: string): Option<Uuid> {
    if |s| != 36 || s[8] != '-' || s[13] != '-' || s[18] != '-' || s[23] != '-' then None else
      var n := HexValue(s[..8] + s[9..13] + s[14..18] + s[19..23] + s[24..]);
      if n.Some? && n.value < 0x1_0000_0000_0000_0000_0000_0000_0000_0000 then Some(n.value as Uuid) else None
  }

  lemma UngroupedAgain(h: string)
    requires |h| == 32
    ensures var s := Grouped(h);
      && |s| == 36 && s[8] == s[13] == s[18] == s[23] == '-'
      && s[..8] + s[9..13] + s[14..18] + s[19..23] + s[24..] == h
      && (AllUnreserved(h) ==> AllUnreserved(s))
  {
    var s := Grouped(h);
    assert s[..8] == h[..8] && s[9..13] == h[8..12] && s[14..18] == h[12..16];
    assert s[19..23] == h[16..20] && s[24..] == h[20..];
    assert h[..8] + h[8..12] + h[12..16] + h[16..20] + h[20..] == h;
  }

  lemma CanonicalRoundTrip(u: Uuid)
    ensures CanonicalParse(CanonicalFormat(u)) == Some(u)
    ensures |CanonicalFormat(u)| == 36 && AllUnreserved(CanonicalFormat(u))
  {
    UngroupedAgain(HexDigits(u as nat, 32));
    Pow16Of32();
    HexRoundTrip(u as nat, 32);
  }

  lemma CanonicalTextIsLawful()
    ensures Lawful(UuidText(CanonicalFormat, CanonicalParse))
  {
    forall u: Uuid
      ensures CanonicalParse(CanonicalFormat(u)) == Some(u)
      ensures |CanonicalFormat(u)| == 36 && AllUnreserved(CanonicalFormat(u))
    {
      CanonicalRoundTrip(u);
    }
  }
}
