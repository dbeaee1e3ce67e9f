/**
 The required-field check of the generated decoders: a bit set of the fields that were seen, compared byte by byte
 with a mask of the required ones, and a loop that takes the lowest missing bit until none is left.
 */
module RequiredFields {

  /** The byte with the single bit i, as `1 << i` gives it. */
  function BitOf(i: nat): bv8
    requires i < 8
  {
    match i
    case 0 => 1 case 1 => 2 case 2 => 4 case 3 => 8 case 4 => 16 case 5 => 32 case 6 => 64 case 7 => 128
  }

  predicate HasBit(b: bv8, i: nat)
    requires i < 8
  {
    b & BitOf(i) != 0
  }

  /** The positions from `from` on of the bits of a byte, in ascending order. */
  function BitsFrom(b: bv8, from: nat): seq<nat>
    requires from <= 8
    decreases 8 - from
  {
    if from == 8 then [] else (if HasBit(b, from) then [from] else []) + BitsFrom(b, from + 1)
  }

  function OnesCount8(b: bv8): nat {
    |BitsFrom(b, 0)|
  }

  /** The number of zero bits below the lowest one bit; 8 for the zero byte. */
  function ZerosFrom(b: bv8, from: nat): (n: nat)
    requires from <= 8
    ensures from <= n <= 8 && (n < 8 ==> HasBit(b, n))
    ensures forall i :: from <= i < n ==> !HasBit(b, i)
    decreases 8 - from
  {
    if from == 8 || HasBit(b, from) then from else ZerosFrom(b, from + 1)
  }

  function TrailingZeros8(b: bv8): nat {
    ZerosFrom(b, 0)
  }

  lemma ZeroHasNoBits(b: bv8)
    ensures b == 0 <==> forall i :: 0 <= i < 8 ==> !HasBit(b, i)
  {
    if forall i :: 0 <= i < 8 ==> !HasBit(b, i) {
      assert !HasBit(b, 0) && !HasBit(b, 1) && !HasBit(b, 2) && !HasBit(b, 3);
      assert !HasBit(b, 4) && !HasBit(b, 5) && !HasBit(b, 6) && !HasBit(b, 7);
    }
  }

  lemma ClearedBit(b: bv8, i: nat, j: nat)
    requires i < 8 && j < 8
    ensures HasBit(b & !BitOf(i), j) <==> HasBit(b, j) && i != j
  {}

  lemma SetBit(b: bv8, i: nat, j: nat)
    requires i < 8 && j < 8
    ensures HasBit(b | BitOf(i), j) <==> HasBit(b, j) || i == j
  {}

  function MissingByte(seen: bv8, mask: bv8): bv8 {
    (seen & mask) ^ mask
  }

  lemma MissingBit(seen: bv8, mask: bv8, i: nat)
    requires i < 8
    ensures HasBit(MissingByte(seen, mask), i) <==> HasBit(mask, i) && !HasBit(seen, i)
  {}

  lemma {:induction false} BitsOfEqual(a: bv8, b: bv8, from: nat)
    requires from <= 8 && forall i :: from <= i < 8 ==> (HasBit(a, i) <==> HasBit(b, i))
    ensures BitsFrom(a, from) == BitsFrom(b, from)
    decreases 8 - from
  {
    if from < 8 {
      BitsOfEqual(a, b, from + 1);
    }
  }

  lemma {:induction false} SkipZeros(b: bv8, from: nat, to: nat)
    requires from <= to <= 8 && forall i :: from <= i < to ==> !HasBit(b, i)
    ensures BitsFrom(b, from) == BitsFrom(b, to)
    decreases 8 - from
  {
    if from < to {
      SkipZeros(b, from + 1, to);
    }
  }

  /** Taking the lowest bit of a byte that is not zero takes the head of its list of bits. */
  lemma LowestBitIsHead(b: bv8)
    requires b != 0
    ensures TrailingZeros8(b) < 8
    ensures BitsFrom(b, 0) == [TrailingZeros8(b)] + BitsFrom(b & !BitOf(TrailingZeros8(b)), 0)
  {
    var t := TrailingZeros8(b);
    ZeroHasNoBits(b);
    var rest := b & !BitOf(t);
    forall i | 0 <= i < 8 ensures HasBit(rest, i) <==> HasBit(b, i) && i != t {
      ClearedBit(b, t, i);
    }
    SkipZeros(b, 0, t);
    SkipZeros(rest, 0, t + 1);
    BitsOfEqual(b, rest, t + 1);
  }

  /** The missing fields, byte by byte: the index of every required field that was not seen. */
  function Missing(seen: seq<bv8>, masks: seq<bv8>): seq<nat>
    requires |seen| == |masks|
  {
    if masks == [] then [] else
      var n := |masks| - 1;
      Missing(seen[..n], masks[..n]) + Shifted(BitsFrom(MissingByte(seen[n], masks[n]), 0), n * 8)
  }

  function Shifted(bits: seq<nat>, offset: nat): (s: seq<nat>)
    ensures |s| == |bits| && forall i :: 0 <= i < |bits| ==> s[i] == offset + bits[i]
  {
    seq(|bits|, i requires 0 <= i < |bits| => offset + bits[i])
  }

  predicate Required(masks: seq<bv8>, f: nat) {
    f / 8 < |masks| && HasBit(masks[f / 8], f % 8)
  }

  ghost predicate Ascending(s: seq<nat>) {
    forall i, j :: 0 <= i < j < |s| ==> s[i] < s[j]
  }

  lemma {:induction false} BitsAreExact(b: bv8, from: nat)
    requires from <= 8
    ensures forall i :: i in BitsFrom(b, from) <==> from <= i < 8 && HasBit(b, i)
    decreases 8 - from
  {
    hide HasBit;
    if from < 8 {
      BitsAreExact(b, from + 1);
    }
  }

  lemma {:induction false} BitsAreListed(b: bv8, from: nat)
    requires from <= 8
    ensures Ascending(BitsFrom(b, from))
    ensures forall i :: i in BitsFrom(b, from) <==> from <= i < 8 && HasBit(b, i)
    decreases 8 - from
  {
    hide HasBit, Ascending;
    BitsAreExact(b, from);
    if from < 8 {
      BitsAreListed(b, from + 1);
      OneAscends(from);
      AscendingSplit([from], BitsFrom(b, from + 1), from + 1);
      assert [] + BitsFrom(b, from + 1) == BitsFrom(b, from + 1);
    } else {
      NoneAscends();
    }
  }

  lemma OneAscends(f: nat)
    ensures Ascending([f])
  {}

  lemma NoneAscends()
    ensures Ascending([])
  {}

  lemma ShiftedIsExact(bits: seq<nat>, n: nat, f: nat)
    requires forall i :: i in bits ==> i < 8
    ensures f in Shifted(bits, n * 8) <==> f / 8 == n && f % 8 in bits
  {
    var last := Shifted(bits, n * 8);
    if f / 8 == n && f % 8 in bits {
      var i :| 0 <= i < |bits| && bits[i] == f % 8;
      assert last[i] == f;
    }
    if f in last {
      var i :| 0 <= i < |last| && last[i] == f;
      assert bits[i] in bits && f == n * 8 + bits[i];
    }
  }

  lemma AscendingSplit(a: seq<nat>, b: seq<nat>, bound: nat)
    requires Ascending(a) && Ascending(b)
    requires (forall f :: f in a ==> f < bound) && (forall f :: f in b ==> f >= bound)
    ensures Ascending(a + b)
  {
    assert forall i :: 0 <= i < |a| ==> a[i] in a;
    assert forall i :: 0 <= i < |b| ==> b[i] in b;
  }

  lemma RequiredInPrefix(masks: seq<bv8>, n: nat, f: nat)
    requires n < |masks|
    ensures Required(masks[..n], f) <==> f / 8 < n && Required(masks, f)
  {}

  lemma LastByteIsExact(seen: seq<bv8>, masks: seq<bv8>, n: nat, f: nat)
    requires n < |seen| == |masks|
    ensures f in Shifted(BitsFrom(MissingByte(seen[n], masks[n]), 0), n * 8)
            <==> f / 8 == n && Required(masks, f) && !Required(seen, f)
  {
    hide HasBit, MissingByte, BitsFrom;
    BitsAreListed(MissingByte(seen[n], masks[n]), 0);
    ShiftedIsExact(BitsFrom(MissingByte(seen[n], masks[n]), 0), n, f);
    if f / 8 == n { MissingBit(seen[n], masks[n], f % 8); }
  }

  lemma ShiftedAscends(bits: seq<nat>, offset: nat)
    requires Ascending(bits)
    ensures Ascending(Shifted(bits, offset))
  {}

  /** Every required field that was not seen is listed once, in ascending order, and nothing else is. */
  lemma {:induction false} MissingIsExact(seen: seq<bv8>, masks: seq<bv8>)
    requires |seen| == |masks|
    ensures Ascending(Missing(seen, masks))
    ensures forall f: nat :: f in Missing(seen, masks) <==> Required(masks, f) && !Required(seen, f)
  {
    hide HasBit, MissingByte, BitsFrom, Shifted;
    if masks != [] {
      var n := |masks| - 1;
      MissingIsExact(seen[..n], masks[..n]);
      var before := Missing(seen[..n], masks[..n]);
      BitsAreListed(MissingByte(seen[n], masks[n]), 0);
      ShiftedAscends(BitsFrom(MissingByte(seen[n], masks[n]), 0), n * 8);
      var last := Shifted(BitsFrom(MissingByte(seen[n], masks[n]), 0), n * 8);
      assert Missing(seen, masks) == before + last;
      forall f: nat
        ensures f in before <==> f / 8 < n && Required(masks, f) && !Required(seen, f)
        ensures f in last <==> f / 8 == n && Required(masks, f) && !Required(seen, f)
        ensures Required(masks, f) ==> f / 8 <= n
      {
        RequiredInPrefix(masks, n, f);
        RequiredInPrefix(seen, n, f);
        LastByteIsExact(seen, masks, n, f);
      }
      hide Required, Missing;
      assert forall f :: f in before ==> f < n * 8;
      assert forall f :: f in last ==> f >= n * 8;
      AscendingSplit(before, last, n * 8);
    }
  }

  // ---- Names ----

  function Decimal(n: nat): string {
    (if n < 10 then "" else Decimal(n / 10)) + ["0123456789"[n % 10]]
  }

  /** A field's declared name, or its number when it has none. */
  function NameOf(names: seq<string>, f: nat): string {
    if f < |names| then names[f] else Decimal(f)
  }

  function NamesOf(names: seq<string>, fields: seq<nat>): (r: seq<string>)
    ensures |r| == |fields| && forall i :: 0 <= i < |fields| ==> r[i] == NameOf(names, fields[i])
  {
    seq(|fields|, i requires 0 <= i < |fields| => NameOf(names, fields[i]))
  }

  /** The loop of the decoders: scans the bytes and takes the missing bits of each that has some. */
  method RequiredFailures(seen: seq<bv8>, masks: seq<bv8>, names: seq<string>) returns (failures: seq<string>)
    requires |seen| == |masks|
    ensures failures == NamesOf(names, Missing(seen, masks))
  {
    hide BitsFrom, HasBit, MissingByte, Missing, NamesOf, Decimal;
    failures := [];
    NothingMissing(names);
    for i := 0 to |masks|
      invariant failures == NamesOf(names, Missing(seen[..i], masks[..i]))
    {
      var result := MissingByte(seen[i], masks[i]);
      MissingGrows(seen, masks, i);
      NamesOfSum(names, Missing(seen[..i], masks[..i]), Shifted(BitsFrom(result, 0), i * 8));
      NotZero(result);
      if result != 0 {
        var more := TakeBits(result, i, names);
        failures := failures + more;
      } else {
        assert Shifted(BitsFrom(result, 0), i * 8) == [];
      }
    }
    assert seen[..|seen|] == seen && masks[..|masks|] == masks;
  }

  lemma NothingMissing(names: seq<string>)
    ensures NamesOf(names, Missing([], [])) == []
    ensures forall offset: nat :: NamesOf(names, Shifted([], offset)) == []
  {}

  lemma OneMoreName(names: seq<string>, bits: seq<nat>, bit: nat, offset: nat)
    ensures NamesOf(names, Shifted(bits + [bit], offset)) ==
            NamesOf(names, Shifted(bits, offset)) + [NameOf(names, offset + bit)]
  {}

  lemma MissingGrows(seen: seq<bv8>, masks: seq<bv8>, i: nat)
    requires i < |seen| == |masks|
    ensures Missing(seen[..i + 1], masks[..i + 1]) ==
            Missing(seen[..i], masks[..i]) + Shifted(BitsFrom(MissingByte(seen[i], masks[i]), 0), i * 8)
  {
    hide BitsFrom, HasBit, MissingByte;
    assert seen[..i + 1][..i] == seen[..i] && masks[..i + 1][..i] == masks[..i];
  }

  lemma NamesOfSum(names: seq<string>, a: seq<nat>, b: seq<nat>)
    ensures NamesOf(names, a + b) == NamesOf(names, a) + NamesOf(names, b)
  {}

  lemma LowestBitMoves(emitted: seq<nat>, b: bv8)
    requires b != 0
    ensures var t := TrailingZeros8(b);
      && t < 8
      && emitted + [t] + BitsFrom(b & !BitOf(t), 0) == emitted + BitsFrom(b, 0)
      && |BitsFrom(b & !BitOf(t), 0)| == |BitsFrom(b, 0)| - 1
  {
    hide BitsFrom, HasBit, BitOf, TrailingZeros8;
    LowestBitIsHead(b);
    HeadMoves(emitted, TrailingZeros8(b), BitsFrom(b & !BitOf(TrailingZeros8(b)), 0));
  }

  lemma HeadMoves(a: seq<nat>, x: nat, rest: seq<nat>)
    ensures a + [x] + rest == a + ([x] + rest)
  {}

  /** The inner loop: takes the lowest bit as often as there are bits; no zero byte is scanned and none is left. */
  method TakeBits(missing: bv8, i: nat, names: seq<string>) returns (failures: seq<string>)
    requires missing != 0
    ensures failures == NamesOf(names, Shifted(BitsFrom(missing, 0), i * 8))
  {
    hide BitsFrom, HasBit, BitOf, TrailingZeros8, NameOf, NamesOf, Shifted;
    failures := [];
    NothingMissing(names);
    var result := missing;
    var missed := OnesCount8(result);
    ghost var emitted: seq<nat> := [];
    for bitN := 0 to missed
      invariant emitted + BitsFrom(result, 0) == BitsFrom(missing, 0)
      invariant |BitsFrom(result, 0)| == missed - bitN
      invariant failures == NamesOf(names, Shifted(emitted, i * 8))
    {
      NotZero(result);
      LowestBitMoves(emitted, result);
      var bitIdx := TrailingZeros8(result);
      var fieldIdx := i * 8 + bitIdx;
      OneMoreName(names, emitted, bitIdx, i * 8);
      failures := failures + [NameOf(names, fieldIdx)];
      emitted := emitted + [bitIdx];
      result := result & !BitOf(bitIdx);
    }
    NotZero(result);
    assert result == 0 && emitted == BitsFrom(missing, 0);
  }

  /** A byte has bits to list exactly when it is not zero. */
  lemma NotZero(b: bv8)
    ensures b != 0 <==> BitsFrom(b, 0) != []
  {
    if b != 0 {
      LowestBitIsHead(b);
    } else {
      ZeroHasNoBits(b);
      SkipZeros(b, 0, 8);
    }
  }

  /** With masks that only cover declared fields, every missing field is reported by its declared name. */
  lemma NamesAreDeclared(seen: seq<bv8>, masks: seq<bv8>, names: seq<string>)
    requires |seen| == |masks| && forall f: nat :: Required(masks, f) ==> f < |names|
    ensures forall i :: 0 <= i < |Missing(seen, masks)| ==>
              Missing(seen, masks)[i] < |names|
              && NamesOf(names, Missing(seen, masks))[i] == names[Missing(seen, masks)[i]]
  {
    MissingIsExact(seen, masks);
    assert forall i :: 0 <= i < |Missing(seen, masks)| ==> Missing(seen, masks)[i] in Missing(seen, masks);
  }
}
