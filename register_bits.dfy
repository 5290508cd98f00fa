// Bit-field arithmetic of the ADS1115 driver (src/ADS1115.cpp): the mask
// built by createMask, the extraction done by getValueFromBits/shiftDown, and
// the read-modify-write expressions of writeBitW, writeBitsW and readBitsW.
// Register words are 16-bit. Bit positions are bv8 throughout: they are
// uint8_t in writeBitW, writeBitsW and readBitsW, and the unsigned and int
// positions of createMask and getValueFromBits are below 32 wherever the C
// shifts are defined, so they fit as well.
//
// Each word identity is proved once on plain variables (the lemmas named
// ...Inline, with the definitions written out) and then restated on the
// model's functions.

module RegisterBits {

  /** Bit j of a 16-bit word. */
  predicate Bit16(x: bv16, j: bv8)
    requires j < 16
  {
    (x >> j) & 1 == 1
  }

  /** Bit j of a 32-bit word. */
  predicate Bit32(x: bv32, j: bv8)
    requires j < 32
  {
    (x >> j) & 1 == 1
  }

  /** The n lowest bits set: (1 << n) - 1. */
  function Ones16(n: bv8): bv16
    requires n <= 16
  {
    ((1 as bv16) << n) - 1
  }

  /** A field of `length` bits whose highest bit is `bitStart`, inside a
      16-bit word. Positions are uint8_t in writeBitsW and readBitsW; a field
      reaching below bit 0 would shift by a negative amount. */
  predicate ValidField(bitStart: bv8, length: bv8)
  {
    1 <= length && length <= bitStart + 1 && bitStart < 16
  }

  /** The mask writeBitsW and readBitsW build: ((1 << length) - 1) << (bitStart - length + 1). */
  function FieldMask(bitStart: bv8, length: bv8): bv16
    requires ValidField(bitStart, length)
  {
    Ones16(length) << (bitStart - length + 1)
  }

  /** The word writeBitsW writes back: data shifted into place and masked,
      merged with the bits of `val` outside the mask. */
  function WriteField(val: bv16, bitStart: bv8, length: bv8, data: bv16): bv16
    requires ValidField(bitStart, length)
  {
    (val & !FieldMask(bitStart, length)) | ((data << (bitStart - length + 1)) & FieldMask(bitStart, length))
  }

  /** shiftDown: a plain right shift. */
  function ShiftDown(extractFrom: bv16, places: bv8): bv16
    requires places < 16
  {
    extractFrom >> places
  }

  /** The bits of `val` under the field's mask, in place. */
  function Masked(val: bv16, bitStart: bv8, length: bv8): bv16
    requires ValidField(bitStart, length)
  {
    val & FieldMask(bitStart, length)
  }

  /** The value readBitsW returns for a register word: the masked word
      shifted down to bit 0. */
  function ReadField(val: bv16, bitStart: bv8, length: bv8): bv16
    requires ValidField(bitStart, length)
  {
    ShiftDown(Masked(val, bitStart, length), bitStart - length + 1)
  }

  /** The word writeBitW writes back: bit `bitNum` set when `data` is non-zero,
      cleared otherwise. */
  function WriteBit(val: bv16, bitNum: bv8, data: bv16): bv16
    requires bitNum < 16
  {
    if data != 0 then val | (1 << bitNum) else val & !(1 << bitNum)
  }

  /** Bits a .. i - 1 set and no others: the reference value for createMask. */
  function SpanMask(a: bv8, i: bv8): bv32
    requires a <= i <= 32
  {
    (((1 as bv32) << (i - a)) - 1) << a
  }

  /** One step of createMask's loop: `mask |= 1 << i`. */
  function AddBit(mask: bv32, i: bv8): bv32
    requires i < 32
  {
    mask | (1 << i)
  }

  /** createMask: `for (i = a; i <= b; i++) mask |= 1 << i`. The result has
      exactly the bits a .. b set (SpanMaskBits); it is 0 when b < a. */
  method CreateMask(a: bv8, b: bv8) returns (mask: bv32)
    requires a <= b ==> b < 32
    ensures a <= b ==> mask == SpanMask(a, b + 1)
    ensures b < a ==> mask == 0
  {
    mask := 0;
    var i := a;
    while i <= b
      invariant a <= i
      invariant a <= b ==> i <= b + 1 && mask == SpanMask(a, i)
      invariant b < a ==> mask == 0
      decreases 32 - i
    {
      SpanGrow(a, i);
      mask := AddBit(mask, i);
      i := i + 1;
    }
    if a <= b {
      SpanDone(a, b, i, mask);
    }
  }

  /** getValueFromBits: build the mask of bits high - length + 1 .. high with
      createMask, cut it to the uint16_t it is stored in, and shift the masked
      word down. The result is readBitsW's field value, and it is the word
      shifted down and cut to `length` bits. */
  method GetValueFromBits(extractFrom: bv16, high: bv8, length: bv8) returns (r: bv16)
    requires ValidField(high, length)
    ensures r == ReadField(extractFrom, high, length)
    ensures r == (extractFrom >> (high - length + 1)) & Ones16(length)
  {
    var mask := CreateMask(high - length + 1, high);
    TruncatedSpan(high, length, mask);
    r := ShiftDown(extractFrom & ((mask & 0xFFFF) as bv16), high - length + 1);
    ReadFieldClosed(extractFrom, high, length);
  }

  // ---------------------------------------------------------------------
  // createMask sets exactly the bits a .. b

  lemma SpanGrowInline(a: bv8, i: bv8)
    requires a <= i < 32
    ensures ((((1 as bv32) << (i - a)) - 1) << a) | (1 << i) == (((1 as bv32) << (i + 1 - a)) - 1) << a
  {
  }

  /** Setting bit i extends the span a .. i - 1 by one bit. */
  lemma SpanGrow(a: bv8, i: bv8)
    requires a <= i < 32
    ensures AddBit(SpanMask(a, i), i) == SpanMask(a, i + 1)
  {
    SpanGrowInline(a, i);
  }

  lemma SpanDone(a: bv8, b: bv8, i: bv8, m: bv32)
    requires a <= b < 32 && a <= i <= b + 1 && !(i <= b) && m == SpanMask(a, i)
    ensures m == SpanMask(a, b + 1)
  {
    assert i == b + 1;
  }

  lemma SpanBitInline(a: bv8, i: bv8, j: bv8)
    requires a <= i <= 32 && j < 32
    ensures ((((((1 as bv32) << (i - a)) - 1) << a) >> j) & 1 == 1) <==> a <= j < i
  {
  }

  /** Bit j of the span is set exactly when a <= j < i. */
  lemma SpanMaskBits(a: bv8, i: bv8, j: bv8)
    requires a <= i <= 32 && j < 32
    ensures Bit32(SpanMask(a, i), j) <==> a <= j < i
  {
    SpanBitInline(a, i, j);
  }

  // ---------------------------------------------------------------------
  // getValueFromBits is readBitsW's field extraction

  lemma CastOnesInline(n: bv8, k: bv8)
    requires n <= 16 && k <= 16 - n
    ensures ((((((1 as bv32) << n) - 1) << k) & 0xFFFF) as bv16) == (((1 as bv16) << n) - 1) << k
  {
  }

  /** The low half of createMask(high - length + 1, high) is the field mask. */
  lemma TruncatedSpan(high: bv8, length: bv8, m: bv32)
    requires ValidField(high, length) && m == SpanMask(high - length + 1, high + 1)
    ensures ((m & 0xFFFF) as bv16) == FieldMask(high, length)
  {
    assert high + 1 - (high - length + 1) == length;
    CastOnesInline(length, high - length + 1);
  }

  // ---------------------------------------------------------------------
  // Read-modify-write of a field

  /** readBitsW's value is the word shifted down, cut to `length` bits. */
  lemma ReadFieldClosed(val: bv16, bitStart: bv8, length: bv8)
    requires ValidField(bitStart, length)
    ensures ReadField(val, bitStart, length) == (val >> (bitStart - length + 1)) & Ones16(length)
  {
  }

  /** The field mask covers exactly bits bitStart - length + 1 .. bitStart. */
  lemma FieldMaskBits(bitStart: bv8, length: bv8, j: bv8)
    requires ValidField(bitStart, length) && j < 16
    ensures Bit16(FieldMask(bitStart, length), j) <==> bitStart - length + 1 <= j <= bitStart
  {
  }

  lemma RawInline(v: bv16, s: bv8, l: bv8, d: bv16)
    requires 1 <= l && l <= s + 1 && s < 16
    ensures ((((v & !((((1 as bv16) << l) - 1) << (s - l + 1))) | ((d << (s - l + 1)) & ((((1 as bv16) << l) - 1) << (s - l + 1)))) & ((((1 as bv16) << l) - 1) << (s - l + 1))) >> (s - l + 1))
         == d & (((1 as bv16) << l) - 1)
  {
  }

  /** Reading a field back after writing it yields the data cut to the field
      width, data mod 2^length. */
  lemma ReadAfterWrite(val: bv16, bitStart: bv8, length: bv8, data: bv16)
    requires ValidField(bitStart, length)
    ensures ReadField(WriteField(val, bitStart, length, data), bitStart, length) == data & Ones16(length)
  {
    RawInline(val, bitStart, length, data);
  }

  lemma FrameInline(v: bv16, s: bv8, l: bv8, d: bv16)
    requires 1 <= l && l <= s + 1 && s < 16
    ensures ((v & !((((1 as bv16) << l) - 1) << (s - l + 1))) | ((d << (s - l + 1)) & ((((1 as bv16) << l) - 1) << (s - l + 1)))) & !((((1 as bv16) << l) - 1) << (s - l + 1))
         == v & !((((1 as bv16) << l) - 1) << (s - l + 1))
  {
  }

  /** Writing a field leaves every bit outside the field's mask unchanged. */
  lemma WriteFieldFrame(val: bv16, bitStart: bv8, length: bv8, data: bv16)
    requires ValidField(bitStart, length)
    ensures WriteField(val, bitStart, length, data) & !FieldMask(bitStart, length)
         == val & !FieldMask(bitStart, length)
  {
    FrameInline(val, bitStart, length, data);
  }

  lemma OutsideMaskBit(x: bv16, y: bv16, mask: bv16, j: bv8)
    requires j < 16 && !Bit16(mask, j) && x & !mask == y & !mask
    ensures Bit16(x, j) == Bit16(y, j)
  {
  }

  /** Bit by bit: writeBitsW changes no bit outside bitStart - length + 1 .. bitStart. */
  lemma WriteFieldOnlyTouchesField(val: bv16, bitStart: bv8, length: bv8, data: bv16, j: bv8)
    requires ValidField(bitStart, length) && j < 16
    requires !(bitStart - length + 1 <= j <= bitStart)
    ensures Bit16(WriteField(val, bitStart, length, data), j) == Bit16(val, j)
  {
    FieldMaskBits(bitStart, length, j);
    WriteFieldFrame(val, bitStart, length, data);
    OutsideMaskBit(WriteField(val, bitStart, length, data), val, FieldMask(bitStart, length), j);
  }

  /** Masks of fields that do not overlap have no common bit. */
  lemma DisjointMasks(s1: bv8, l1: bv8, s2: bv8, l2: bv8)
    requires ValidField(s1, l1) && ValidField(s2, l2)
    requires s1 < s2 - l2 + 1 || s2 < s1 - l1 + 1
    ensures FieldMask(s1, l1) & FieldMask(s2, l2) == 0
  {
  }

  lemma UnderDisjointRaw(w: bv16, val: bv16, m1: bv16, m2: bv16)
    requires w & !m1 == val & !m1 && m1 & m2 == 0
    ensures w & m2 == val & m2
  {
  }

  /** Writing one field leaves the bits under a disjoint field's mask. */
  lemma UnderDisjointMask(val: bv16, s1: bv8, l1: bv8, s2: bv8, l2: bv8, data: bv16)
    requires ValidField(s1, l1) && ValidField(s2, l2)
    requires s1 < s2 - l2 + 1 || s2 < s1 - l1 + 1
    ensures WriteField(val, s1, l1, data) & FieldMask(s2, l2) == val & FieldMask(s2, l2)
  {
    WriteFieldFrame(val, s1, l1, data);
    DisjointMasks(s1, l1, s2, l2);
    UnderDisjointRaw(WriteField(val, s1, l1, data), val, FieldMask(s1, l1), FieldMask(s2, l2));
  }

  lemma MaskedDisjoint(val: bv16, s1: bv8, l1: bv8, s2: bv8, l2: bv8, data: bv16)
    requires ValidField(s1, l1) && ValidField(s2, l2)
    requires s1 < s2 - l2 + 1 || s2 < s1 - l1 + 1
    ensures Masked(WriteField(val, s1, l1, data), s2, l2) == Masked(val, s2, l2)
  {
    UnderDisjointMask(val, s1, l1, s2, l2, data);
  }

  /** Fields that do not overlap are independent: writing one leaves the other's value. */
  lemma DisjointFields(val: bv16, s1: bv8, l1: bv8, s2: bv8, l2: bv8, data: bv16)
    requires ValidField(s1, l1) && ValidField(s2, l2)
    requires s1 < s2 - l2 + 1 || s2 < s1 - l1 + 1
    ensures ReadField(WriteField(val, s1, l1, data), s2, l2) == ReadField(val, s2, l2)
  {
    MaskedDisjoint(val, s1, l1, s2, l2, data);
  }

  // ---------------------------------------------------------------------
  // Single-bit write

  /** writeBitW sets bit bitNum exactly when data is non-zero and leaves every
      other bit as it was. */
  lemma WriteBitBits(val: bv16, bitNum: bv8, data: bv16, j: bv8)
    requires bitNum < 16 && j < 16
    ensures j == bitNum ==> (Bit16(WriteBit(val, bitNum, data), j) <==> data != 0)
    ensures j != bitNum ==> Bit16(WriteBit(val, bitNum, data), j) == Bit16(val, j)
  {
  }

  lemma SetBitIsField(val: bv16, k: bv8)
    requires k < 16
    ensures val | (1 << k) == WriteField(val, k, 1, 1)
  {
  }

  lemma ClearBitIsField(val: bv16, k: bv8)
    requires k < 16
    ensures val & !(1 << k) == WriteField(val, k, 1, 0)
  {
  }

  /** A bit write is the one-bit field write of 1 or 0. */
  lemma WriteBitIsWriteField(val: bv16, bitNum: bv8, data: bv16)
    requires bitNum < 16
    ensures WriteBit(val, bitNum, data) == WriteField(val, bitNum, 1, if data != 0 then 1 else 0)
  {
    if data != 0 {
      SetBitIsField(val, bitNum);
    } else {
      ClearBitIsField(val, bitNum);
    }
  }
}
