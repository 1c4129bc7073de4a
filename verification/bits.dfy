/**
 * Bytes and 32-bit words as both thermocouple drivers see them on the SPI bus:
 * a word is clocked in as four bytes, most significant byte first, and the
 * drivers then read it either as raw bits or as a two's-complement integer.
 */
module Bits {

  datatype Option<T> = None | Some(value: T)

  const TWO_POW_32: int := 0x1_0000_0000

  /** Byte k of w, counting from the most significant one (the first on the bus). */
  function WordByte(w: bv32, k: nat): bv8
    requires k < 4
  {
    if k == 0 then (w >> 24) as bv8
    else if k == 1 then ((w >> 16) & 0xFF) as bv8
    else if k == 2 then ((w >> 8) & 0xFF) as bv8
    else (w & 0xFF) as bv8
  }

  /** The word whose bytes, most significant first, are b. */
  function BigEndian(b: seq<bv8>): (w: bv32)
    requires |b| == 4
    ensures forall k :: 0 <= k < 4 ==> WordByte(w, k) == b[k]
  {
    ((b[0] as bv32) << 24) | ((b[1] as bv32) << 16) | ((b[2] as bv32) << 8) | (b[3] as bv32)
  }

  /** The four bytes of w, most significant first. */
  function Bytes(w: bv32): (b: seq<bv8>)
    ensures |b| == 4 && BigEndian(b) == w
  {
    [WordByte(w, 0), WordByte(w, 1), WordByte(w, 2), WordByte(w, 3)]
  }

  /** A word is determined by its four bytes. */
  lemma BytesDetermineWord(w: bv32, v: bv32)
    requires forall k :: 0 <= k < 4 ==> WordByte(w, k) == WordByte(v, k)
    ensures w == v
  {
    assert Bytes(w) == Bytes(v);
  }

  /** Shifting a word left by a byte and or-ing b in: every byte moves up one place and b comes in last. */
  lemma ShiftInByte(d: bv32, b: bv8)
    ensures WordByte((d << 8) | b as bv32, 0) == WordByte(d, 1)
    ensures WordByte((d << 8) | b as bv32, 1) == WordByte(d, 2)
    ensures WordByte((d << 8) | b as bv32, 2) == WordByte(d, 3)
    ensures WordByte((d << 8) | b as bv32, 3) == b
  {
  }

  /** A byte read as an 8-bit two's-complement number (sign-extended from bit 7). */
  function SignedByte(b: bv8): (x: int)
    ensures -0x80 <= x < 0x80
    ensures x < 0 <==> b & 0x80 != 0
    ensures (x + 0x100) % 0x100 == b as int
  {
    if b & 0x80 != 0 then b as int - 0x100 else b as int
  }

  /** A word read as a 32-bit two's-complement number: the top byte carries the sign. */
  function Signed(w: bv32): (x: int)
    ensures -0x8000_0000 <= x < 0x8000_0000
    ensures x < 0 <==> w & 0x8000_0000 != 0
  {
    SignedByte(WordByte(w, 0)) * 0x100_0000 + WordByte(w, 1) as int * 0x1_0000
      + WordByte(w, 2) as int * 0x100 + WordByte(w, 3) as int
  }

  /** The only word that reads as -1 is all ones. */
  lemma MinusOneIsAllOnes(w: bv32)
    ensures Signed(w) == -1 <==> w == 0xFFFF_FFFF
  {
    if Signed(w) == -1 {
      assert WordByte(w, 0) as int == 0xFF;
      assert WordByte(w, 1) as int == 0xFF;
      assert WordByte(w, 2) as int == 0xFF;
      assert WordByte(w, 3) as int == 0xFF;
      BytesDetermineWord(w, 0xFFFF_FFFF);
    }
  }

  /** The only word that reads as 0 is all zeros. */
  lemma ZeroIsAllZeros(w: bv32)
    ensures Signed(w) == 0 <==> w == 0
  {
    if Signed(w) == 0 {
      assert WordByte(w, 0) as int == 0;
      assert WordByte(w, 1) as int == 0;
      assert WordByte(w, 2) as int == 0;
      assert WordByte(w, 3) as int == 0;
      BytesDetermineWord(w, 0);
    }
  }
}
