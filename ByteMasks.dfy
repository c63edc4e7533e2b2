/** Bit-level facts about single bytes and the prefix masks
    `0xFF << (8 - b)` that CIDR rules are built from. Bit 0 is the most
    significant bit, as in network order. */
module ByteMasks {
  /** Bitwise and of two bytes. */
  function And(x: bv8, y: bv8): bv8 { x & y }

  /** The byte with only bit j set (bit 0 is the most significant). */
  function BitMask(j: nat): bv8
    requires j < 8
  {
    match j
    case 0 => 0x80 case 1 => 0x40 case 2 => 0x20 case 3 => 0x10
    case 4 => 0x08 case 5 => 0x04 case 6 => 0x02 case _ => 0x01
  }

  /** Bit j (0 = most significant) of a byte. */
  predicate BitOf(x: bv8, j: nat)
    requires j < 8
  {
    x & BitMask(j) != 0
  }

  /** Bit k of an address in network order (bit 0 is the top bit of byte 0). */
  predicate Bit(bytes: seq<bv8>, k: nat)
    requires k < 8 * |bytes|
  {
    BitOf(bytes[k / 8], k % 8)
  }

  /** The byte whose first b bits are set. */
  function FullMask(b: int): bv8
    requires 0 <= b <= 8
  {
    match b
    case 0 => 0x00 case 1 => 0x80 case 2 => 0xC0 case 3 => 0xE0 case 4 => 0xF0
    case 5 => 0xF8 case 6 => 0xFC case 7 => 0xFE case _ => 0xFF
  }

  lemma ShiftIsFullMask(b: int)
    requires 0 < b < 8
    ensures (0xFF as bv8) << (8 - b) == FullMask(b)
  {
    if b == 1 {} else if b == 2 {} else if b == 3 {}
    else if b == 4 {} else if b == 5 {} else if b == 6 {} else {}
  }

  /** Bit j of the b-bit mask is set iff j < b. */
  lemma FullMaskBits(b: int, j: nat)
    requires 0 <= b <= 8 && j < 8
    ensures BitOf(FullMask(b), j) <==> j < b
  {
  }

  /** The first b bits of x and y agree. */
  predicate AgreeBelow(x: bv8, y: bv8, b: nat)
    requires b <= 8
  {
    forall j :: 0 <= j < b ==> (BitOf(x, j) <==> BitOf(y, j))
  }

  /** x and y are equal under the b-bit mask. */
  predicate MaskedEqual(x: bv8, y: bv8, b: nat)
    requires b <= 8
  {
    And(x, FullMask(b)) == And(y, FullMask(b))
  }

  /** Masking with the b-bit mask equates exactly the bytes that agree on their first b bits. */
  lemma {:induction false} MaskedEqualIffAgree(x: bv8, y: bv8, b: nat)
    requires b <= 8
    ensures MaskedEqual(x, y, b) <==> AgreeBelow(x, y, b)
  {
    if b > 0 {
      MaskedEqualIffAgree(x, y, b - 1);
      MaskStep(x, y, b - 1);
    }
  }

  /** Widening the mask by one bit adds the agreement of that bit. */
  lemma MaskStep(x: bv8, y: bv8, k: nat)
    requires k < 8
    ensures MaskedEqual(x, y, k + 1) <==> MaskedEqual(x, y, k) && (BitOf(x, k) <==> BitOf(y, k))
  {
    if k == 0 { MaskStep0(x, y, k); }
    else if k == 1 { MaskStep1(x, y, k); }
    else if k == 2 { MaskStep2(x, y, k); }
    else if k == 3 { MaskStep3(x, y, k); }
    else if k == 4 { MaskStep4(x, y, k); }
    else if k == 5 { MaskStep5(x, y, k); }
    else if k == 6 { MaskStep6(x, y, k); }
    else { MaskStep7(x, y, k); }
  }

  lemma MaskStep0(x: bv8, y: bv8, k: nat)
    requires k == 0
    ensures MaskedEqual(x, y, k + 1) <==> MaskedEqual(x, y, k) && (BitOf(x, k) <==> BitOf(y, k))
  {
    assert FullMask(0) == 0x00 && FullMask(1) == 0x80 && BitMask(0) == 0x80;
    assert MaskedEqual(x, y, 1) <==> x & 0x80 == y & 0x80;
    assert MaskedEqual(x, y, 0) <==> x & 0x00 == y & 0x00;
    assert BitOf(x, 0) <==> x & 0x80 != 0;
    assert BitOf(y, 0) <==> y & 0x80 != 0;
    RawMaskStep0(x, y);
  }

  lemma RawMaskStep0(x: bv8, y: bv8)
    ensures (x & 0x80 == y & 0x80) <==>
            (x & 0x00 == y & 0x00 && ((x & 0x80 != 0) <==> (y & 0x80 != 0)))
  {
  }

  lemma MaskStep1(x: bv8, y: bv8, k: nat)
    requires k == 1
    ensures MaskedEqual(x, y, k + 1) <==> MaskedEqual(x, y, k) && (BitOf(x, k) <==> BitOf(y, k))
  {
    assert FullMask(1) == 0x80 && FullMask(2) == 0xC0 && BitMask(1) == 0x40;
    assert MaskedEqual(x, y, 2) <==> x & 0xC0 == y & 0xC0;
    assert MaskedEqual(x, y, 1) <==> x & 0x80 == y & 0x80;
    assert BitOf(x, 1) <==> x & 0x40 != 0;
    assert BitOf(y, 1) <==> y & 0x40 != 0;
    RawMaskStep1(x, y);
  }

  lemma RawMaskStep1(x: bv8, y: bv8)
    ensures (x & 0xC0 == y & 0xC0) <==>
            (x & 0x80 == y & 0x80 && ((x & 0x40 != 0) <==> (y & 0x40 != 0)))
  {
  }

  lemma MaskStep2(x: bv8, y: bv8, k: nat)
    requires k == 2
    ensures MaskedEqual(x, y, k + 1) <==> MaskedEqual(x, y, k) && (BitOf(x, k) <==> BitOf(y, k))
  {
    assert FullMask(2) == 0xC0 && FullMask(3) == 0xE0 && BitMask(2) == 0x20;
    assert MaskedEqual(x, y, 3) <==> x & 0xE0 == y & 0xE0;
    assert MaskedEqual(x, y, 2) <==> x & 0xC0 == y & 0xC0;
    assert BitOf(x, 2) <==> x & 0x20 != 0;
    assert BitOf(y, 2) <==> y & 0x20 != 0;
    RawMaskStep2(x, y);
  }

  lemma RawMaskStep2(x: bv8, y: bv8)
    ensures (x & 0xE0 == y & 0xE0) <==>
            (x & 0xC0 == y & 0xC0 && ((x & 0x20 != 0) <==> (y & 0x20 != 0)))
  {
  }

  lemma MaskStep3(x: bv8, y: bv8, k: nat)
    requires k == 3
    ensures MaskedEqual(x, y, k + 1) <==> MaskedEqual(x, y, k) && (BitOf(x, k) <==> BitOf(y, k))
  {
    assert FullMask(3) == 0xE0 && FullMask(4) == 0xF0 && BitMask(3) == 0x10;
    assert MaskedEqual(x, y, 4) <==> x & 0xF0 == y & 0xF0;
    assert MaskedEqual(x, y, 3) <==> x & 0xE0 == y & 0xE0;
    assert BitOf(x, 3) <==> x & 0x10 != 0;
    assert BitOf(y, 3) <==> y & 0x10 != 0;
    RawMaskStep3(x, y);
  }

  lemma RawMaskStep3(x: bv8, y: bv8)
    ensures (x & 0xF0 == y & 0xF0) <==>
            (x & 0xE0 == y & 0xE0 && ((x & 0x10 != 0) <==> (y & 0x10 != 0)))
  {
  }

  lemma MaskStep4(x: bv8, y: bv8, k: nat)
    requires k == 4
    ensures MaskedEqual(x, y, k + 1) <==> MaskedEqual(x, y, k) && (BitOf(x, k) <==> BitOf(y, k))
  {
    assert FullMask(4) == 0xF0 && FullMask(5) == 0xF8 && BitMask(4) == 0x08;
    assert MaskedEqual(x, y, 5) <==> x & 0xF8 == y & 0xF8;
    assert MaskedEqual(x, y, 4) <==> x & 0xF0 == y & 0xF0;
    assert BitOf(x, 4) <==> x & 0x08 != 0;
    assert BitOf(y, 4) <==> y & 0x08 != 0;
    RawMaskStep4(x, y);
  }

  lemma RawMaskStep4(x: bv8, y: bv8)
    ensures (x & 0xF8 == y & 0xF8) <==>
            (x & 0xF0 == y & 0xF0 && ((x & 0x08 != 0) <==> (y & 0x08 != 0)))
  {
  }

  lemma MaskStep5(x: bv8, y: bv8, k: nat)
    requires k == 5
    ensures MaskedEqual(x, y, k + 1) <==> MaskedEqual(x, y, k) && (BitOf(x, k) <==> BitOf(y, k))
  {
    assert FullMask(5) == 0xF8 && FullMask(6) == 0xFC && BitMask(5) == 0x04;
    assert MaskedEqual(x, y, 6) <==> x & 0xFC == y & 0xFC;
    assert MaskedEqual(x, y, 5) <==> x & 0xF8 == y & 0xF8;
    assert BitOf(x, 5) <==> x & 0x04 != 0;
    assert BitOf(y, 5) <==> y & 0x04 != 0;
    RawMaskStep5(x, y);
  }

  lemma RawMaskStep5(x: bv8, y: bv8)
    ensures (x & 0xFC == y & 0xFC) <==>
            (x & 0xF8 == y & 0xF8 && ((x & 0x04 != 0) <==> (y & 0x04 != 0)))
  {
  }

  lemma MaskStep6(x: bv8, y: bv8, k: nat)
    requires k == 6
    ensures MaskedEqual(x, y, k + 1) <==> MaskedEqual(x, y, k) && (BitOf(x, k) <==> BitOf(y, k))
  {
    assert FullMask(6) == 0xFC && FullMask(7) == 0xFE && BitMask(6) == 0x02;
    assert MaskedEqual(x, y, 7) <==> x & 0xFE == y & 0xFE;
    assert MaskedEqual(x, y, 6) <==> x & 0xFC == y & 0xFC;
    assert BitOf(x, 6) <==> x & 0x02 != 0;
    assert BitOf(y, 6) <==> y & 0x02 != 0;
    RawMaskStep6(x, y);
  }

  lemma RawMaskStep6(x: bv8, y: bv8)
    ensures (x & 0xFE == y & 0xFE) <==>
            (x & 0xFC == y & 0xFC && ((x & 0x02 != 0) <==> (y & 0x02 != 0)))
  {
  }

  lemma MaskStep7(x: bv8, y: bv8, k: nat)
    requires k == 7
    ensures MaskedEqual(x, y, k + 1) <==> MaskedEqual(x, y, k) && (BitOf(x, k) <==> BitOf(y, k))
  {
    assert FullMask(7) == 0xFE && FullMask(8) == 0xFF && BitMask(7) == 0x01;
    assert MaskedEqual(x, y, 8) <==> x & 0xFF == y & 0xFF;
    assert MaskedEqual(x, y, 7) <==> x & 0xFE == y & 0xFE;
    assert BitOf(x, 7) <==> x & 0x01 != 0;
    assert BitOf(y, 7) <==> y & 0x01 != 0;
    RawMaskStep7(x, y);
  }

  lemma RawMaskStep7(x: bv8, y: bv8)
    ensures (x & 0xFF == y & 0xFF) <==>
            (x & 0xFE == y & 0xFE && ((x & 0x01 != 0) <==> (y & 0x01 != 0)))
  {
  }

}
