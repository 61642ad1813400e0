/**
 * How a pin handle turns a bank word into a level and a level into the mask
 * it writes. Pin `n` of a bank is bit `n` of the bank's 32-bit word; a pin
 * index must be below 32 for the shift `1 << n` to stay inside the word.
 */
module Encoding {
  import opened GpioTypes

  /** Bit `i` of `w` is set. */
  predicate Bit(w: bv32, i: nat)
    requires i < 32
  {
    w & (1 << i) != 0
  }

  /** The level pin `n` reads as in the bank word `word`. */
  function LevelOf(word: bv32, n: nat): (r: Level)
    requires n < 32
    ensures r == High <==> Bit(word, n)
    ensures r == Low <==> !Bit(word, n)
  {
    if word & (1 << n) != 0 then High else Low
  }

  /**
   * The mask written to drive pin `n` to `level`: for `High` only bit `n` is
   * set, for `Low` every bit but bit `n` is set.
   */
  function MaskOf(level: Level, n: nat): (r: bv32)
    requires n < 32
    ensures level == High ==> forall i :: 0 <= i < 32 ==> (Bit(r, i) <==> i == n)
    ensures level == Low ==> forall i :: 0 <= i < 32 ==> (Bit(r, i) <==> i != n)
  {
    match level
    case Low => 0xFFFF_FFFF ^ (1 << n)
    case High => 1 << n
  }

  /** The `Low` mask is the bitwise complement of the `High` mask. */
  lemma LowMaskIsComplement(n: nat)
    requires n < 32
    ensures MaskOf(Low, n) == !MaskOf(High, n)
    ensures MaskOf(Low, n) & MaskOf(High, n) == 0
    ensures MaskOf(Low, n) | MaskOf(High, n) == 0xFFFF_FFFF
  {
  }

  /** Reading back the mask written for a level gives that level. */
  lemma ReadsBackWrittenLevel(level: Level, n: nat)
    requires n < 32
    ensures LevelOf(MaskOf(level, n), n) == level
  {
  }

  /**
   * The mask for pin `n` reads, at every other pin, as the opposite level:
   * a `High` write leaves every other bit clear, a `Low` write every other
   * bit set.
   */
  lemma OtherPinsReadOpposite(level: Level, n: nat, m: nat)
    requires n < 32 && m < 32 && m != n
    ensures LevelOf(MaskOf(level, n), m) != level
  {
  }

  /** 2 to the power `n`. */
  function Pow2(n: nat): (r: nat)
    ensures r >= 1
  {
    if n == 0 then 1 else 2 * Pow2(n - 1)
  }

  /** Doubling a word below 2^31 by a left shift does not wrap. */
  lemma ShiftLeftDoubles(x: bv32)
    requires x < 0x8000_0000
    ensures (x << 1) as int == 2 * x as int
  {
  }

  /** Shifting one by `n` is shifting one by `n - 1` and then by one more, without wrapping. */
  lemma ShiftStep(n: nat)
    requires 0 < n < 32
    ensures (1 as bv32) << n == ((1 as bv32) << (n - 1)) << 1
    ensures (1 as bv32) << (n - 1) < 0x8000_0000
  {
  }

  /** As an unsigned number, `1 << n` is 2^n. */
  lemma {:induction false} ShiftedOneValue(n: nat)
    requires n < 32
    ensures ((1 as bv32) << n) as int == Pow2(n)
  {
    if n > 0 {
      ShiftedOneValue(n - 1);
      ShiftStep(n);
      ShiftLeftDoubles((1 as bv32) << (n - 1));
    }
  }

  /** As an unsigned number, `u32::MAX ^ (1 << n)` is 2^32 - 1 - 2^n. */
  lemma {:induction false} ClearedBitValue(n: nat)
    requires n < 32
    ensures (0xFFFF_FFFF ^ ((1 as bv32) << n)) as int == 0xFFFF_FFFF - Pow2(n)
  {
    if n > 0 {
      ClearedBitValue(n - 1);
    }
  }

  /**
   * As unsigned numbers, the `High` mask for pin `n` is 2^n and the `Low`
   * mask is 2^32 - 1 - 2^n.
   */
  lemma MaskValues(n: nat)
    requires n < 32
    ensures MaskOf(High, n) as int == Pow2(n)
    ensures MaskOf(Low, n) as int == 0xFFFF_FFFF - Pow2(n)
  {
    ShiftedOneValue(n);
    ClearedBitValue(n);
  }
}
