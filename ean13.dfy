/** The EAN-13 check digit that closes a NAVS13: `ean13_check` in src/main.rs. */
module Ean13 {

  /** An unsigned 8-bit value, Rust's `u8`. */
  type Byte = x: int | 0 <= x < 0x100

  /** An unsigned 16-bit value, Rust's `u16`: the type of the running sum. */
  type U16 = x: int | 0 <= x < 0x1_0000

  /** The weight of position `i`: 1 at even positions, 3 at odd ones. */
  function Weight(i: nat): (w: int)
    ensures w == 1 <==> i % 2 == 0
    ensures w == 3 <==> i % 2 == 1
    ensures w % 2 == 1 && w % 5 != 0
  {
    if i % 2 == 0 then 1 else 3
  }

  /** The weighted sum of a payload, accumulated from the front as the loop of `ean13_check` does. */
  function WeightedSum(d: seq<Byte>): int
  {
    if d == [] then 0 else WeightedSum(d[..|d| - 1]) + d[|d| - 1] * Weight(|d| - 1)
  }

  /** The check digit of a payload: the one digit that completes its weighted sum to a multiple of ten. */
  function Check(d: seq<Byte>): (c: int)
    ensures 0 <= c <= 9
    ensures (WeightedSum(d) + c) % 10 == 0
    ensures c == 0 <==> WeightedSum(d) % 10 == 0
  {
    var s := WeightedSum(d);
    if s % 10 == 0 then 0 else 10 - s % 10
  }

  /** No other digit completes the weighted sum: `Check` is the only check digit a payload can have. */
  lemma CheckIsUnique(d: seq<Byte>, c: int)
    requires 0 <= c <= 9
    ensures (WeightedSum(d) + c) % 10 == 0 <==> c == Check(d)
  {
  }

  /** Every weight is at most 3, so the sum stays below 3 * 255 per position. */
  lemma {:induction false} WeightedSumBound(d: seq<Byte>)
    ensures 0 <= WeightedSum(d) <= 3 * 255 * |d|
  {
    if d != [] {
      WeightedSumBound(d[..|d| - 1]);
    }
  }

  /** Replacing the digit at position `i` moves the sum by the difference times that position's weight. */
  lemma {:induction false} WeightedSumUpdate(d: seq<Byte>, i: nat, x: Byte)
    requires i < |d|
    ensures WeightedSum(d[i := x]) == WeightedSum(d) + (x - d[i]) * Weight(i)
  {
    var n := |d| - 1;
    assert d[i := x][..n] == if i < n then d[..n][i := x] else d[..n];
    if i < n {
      WeightedSumUpdate(d[..n], i, x);
    }
  }

  /** Adding a multiple of ten does not change the last decimal digit. */
  lemma AddMultipleOfTen(a: int, b: int)
    requires a % 10 == 0
    ensures (a + b) % 10 == b % 10
  {
    var q := a / 10;
    assert a == 10 * q;
    assert (a + b) - b == 10 * q;
  }

  /** A non-zero digit difference times a weight of 1 or 3 is never a multiple of ten: 1 and 3 are coprime to 10. */
  lemma WeightedDifferenceNotMultipleOfTen(k: int, i: nat)
    requires -9 <= k <= 9 && k != 0
    ensures (k * Weight(i)) % 10 != 0
  {
    if i % 2 == 0 {
      assert k * Weight(i) == k;
    } else {
      assert k * Weight(i) == 3 * k;
    }
  }

  /** The check digit catches every single-digit error: changing one decimal digit of the payload changes it. */
  lemma DetectsSingleDigitError(d: seq<Byte>, i: nat, x: Byte)
    requires i < |d| && d[i] <= 9 && x <= 9 && x != d[i]
    ensures Check(d[i := x]) != Check(d)
  {
    var c := Check(d);
    var k := x - d[i];
    WeightedSumUpdate(d, i, x);
    WeightedDifferenceNotMultipleOfTen(k, i);
    AddMultipleOfTen(WeightedSum(d) + c, k * Weight(i));
    assert (WeightedSum(d[i := x]) + c) % 10 != 0;
  }

  /** Extending a prefix by one position adds that digit times its weight. */
  lemma PrefixStep(d: seq<Byte>, k: nat)
    requires k < |d|
    ensures WeightedSum(d[..k + 1]) == WeightedSum(d[..k]) + d[k] * Weight(k)
  {
    assert d[..k + 1][..k] == d[..k];
  }

  /** The weighted sum of a twelve-digit payload written out: weight 1 at even positions, 3 at odd ones. */
  lemma WeightedSumOfTwelve(d: seq<Byte>)
    requires |d| == 12
    ensures WeightedSum(d) == (d[0] as int) + 3 * (d[1] as int) + (d[2] as int) + 3 * (d[3] as int)
                            + (d[4] as int) + 3 * (d[5] as int) + (d[6] as int) + 3 * (d[7] as int)
                            + (d[8] as int) + 3 * (d[9] as int) + (d[10] as int) + 3 * (d[11] as int)
  {
    assert d[..0] == [];
    PrefixStep(d, 0); PrefixStep(d, 1); PrefixStep(d, 2); PrefixStep(d, 3);
    PrefixStep(d, 4); PrefixStep(d, 5); PrefixStep(d, 6); PrefixStep(d, 7);
    PrefixStep(d, 8); PrefixStep(d, 9); PrefixStep(d, 10); PrefixStep(d, 11);
    assert d[..12] == d;
  }

  /** The three check digits the program's unit tests expect. */
  lemma KnownCheckDigits()
    ensures Check([7, 5, 6, 1, 2, 3, 4, 5, 6, 7, 8, 9]) == 7
    ensures Check([7, 5, 6, 4, 9, 6, 5, 7, 6, 6, 5, 6]) == 0
    ensures Check([4, 7, 1, 9, 5, 1, 2, 0, 0, 2, 8, 8]) == 9
  {
    WeightedSumOfTwelve([7, 5, 6, 1, 2, 3, 4, 5, 6, 7, 8, 9]);
    WeightedSumOfTwelve([7, 5, 6, 4, 9, 6, 5, 7, 6, 6, 5, 6]);
    WeightedSumOfTwelve([4, 7, 1, 9, 5, 1, 2, 0, 0, 2, 8, 8]);
  }

  /** `ean13_check`: the loop accumulates the weighted sum in a `u16`, which never overflows. */
  method ComputeCheck(digits: array<Byte>) returns (c: Byte)
    requires digits.Length == 12
    ensures c == Check(digits[..])
  {
    var s: U16 := 0;
    for i := 0 to 12
      invariant s == WeightedSum(digits[..i])
    {
      var p: U16 := if i % 2 == 0 then 1 else 3;
      WeightedSumBound(digits[..i]);
      assert digits[..i + 1][..i] == digits[..i];
      s := s + digits[i] * p;
    }
    assert digits[..12] == digits[..];
    c := if s % 10 == 0 then 0 else 10 - s % 10;
  }
}
