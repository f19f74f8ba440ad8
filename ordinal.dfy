/**
 * The range test applied to the publisher ordinal the user typed, after it was
 * parsed into an `int`: the input is refused when `id > publisher_names.size()`.
 * That comparison is between a signed `int` and an unsigned `size_t`, so
 * `id` is first converted to `size_t` (taken modulo 2^64, for a 64-bit build).
 */
module Ordinal {

  const SizeTModulus := 0x1_0000_0000_0000_0000

  type Int32 = x: int | -0x8000_0000 <= x < 0x8000_0000

  type SizeT = x: int | 0 <= x < SizeTModulus

  /** The usual arithmetic conversion of an `int` to `size_t`. */
  function ToSizeT(x: Int32): (r: SizeT)
    ensures x >= 0 ==> r == x
    ensures x < 0 ==> r == SizeTModulus + x
  {
    x % SizeTModulus
  }

  /** The test as written: not `id > count` after the conversion. */
  function Accepts(id: Int32, count: SizeT): (r: bool)
    ensures id >= 0 ==> (r <==> id <= count)
    ensures id < 0 ==> (r <==> SizeTModulus + id <= count)
  {
    !(ToSizeT(id) > count)
  }

  /**
   * For any realistic number of publishers, the test accepts exactly the
   * ordinals in [0, count]: negative ones wrap to huge unsigned values and
   * are refused, but 0 gets through.
   */
  lemma AcceptsExactly(id: Int32, count: SizeT)
    requires count < 0x8000_0000
    ensures Accepts(id, count) <==> 0 <= id <= count
  {
  }

  /**
   * The test lets through an ordinal the query cannot use: 0 passes, and the
   * query then reads `publisher_names[0 - 1]`.
   */
  lemma AcceptsOutOfRange(count: SizeT)
    ensures exists id: Int32 :: Accepts(id, count) && !(1 <= id <= count)
  {
    assert Accepts(0, count);
  }

  /** The test as evidently intended: the ordinal is also at least 1. */
  function AcceptsOrdinal(id: Int32, count: SizeT): (r: bool)
    ensures r <==> Accepts(id, count) && id != 0
  {
    ToSizeT(id) >= 1 && !(ToSizeT(id) > count)
  }

  /** The intended test accepts exactly the 1-based ordinals of the list. */
  lemma AcceptsOrdinalExactly(id: Int32, count: SizeT)
    requires count < 0x8000_0000
    ensures AcceptsOrdinal(id, count) <==> 1 <= id <= count
  {
  }
}
