/** Joining and splitting 14-bit values carried as two 7-bit data bytes. */
module MidiUtil {
  import opened JsNumber

  /** The 14-bit value of a most/least significant data byte pair. */
  function CalculateMultiByteValue(msb: int, lsb: int): (value: int)
    ensures 0 <= msb < 128 && 0 <= lsb < 128 ==> 0 <= value < 16384
    ensures 0 <= lsb < 128 ==> value / 128 == msb && value % 128 == lsb
  {
    msb * 128 + lsb
  }

  /**
   * Splits a value into `[msb, lsb]` with `Math.floor(value / 128)` and the
   * JavaScript remainder `value % 128`.
   */
  function GetMsbAndLsb(value: int): (parts: (int, int))
    ensures 0 <= value ==> CalculateMultiByteValue(parts.0, parts.1) == value
    ensures 0 <= value ==> 0 <= parts.1 < 128
    ensures 0 <= value < 16384 ==> 0 <= parts.0 < 128
  {
    (value / 128, Rem(value, 128))
  }

  /** Splitting a joined pair of data bytes gives the pair back. */
  lemma SplitAfterJoin(msb: int, lsb: int)
    requires 0 <= msb < 128 && 0 <= lsb < 128
    ensures GetMsbAndLsb(CalculateMultiByteValue(msb, lsb)) == (msb, lsb)
  {
  }

  /**
   * Joining is a bijection from pairs of data bytes onto 0..16383: it is injective,
   * and enumerating the msb in the outer loop and the lsb in the inner loop
   * visits 0, 1, ..., 16383 in order.
   */
  lemma JoinIsOrderedBijection(m1: int, l1: int, m2: int, l2: int)
    requires 0 <= m1 < 128 && 0 <= l1 < 128 && 0 <= m2 < 128 && 0 <= l2 < 128
    ensures CalculateMultiByteValue(m1, l1) == CalculateMultiByteValue(m2, l2) ==> m1 == m2 && l1 == l2
    ensures l1 < 127 ==> CalculateMultiByteValue(m1, l1 + 1) == CalculateMultiByteValue(m1, l1) + 1
    ensures l1 == 127 && m1 < 127 ==> CalculateMultiByteValue(m1 + 1, 0) == CalculateMultiByteValue(m1, l1) + 1
    ensures CalculateMultiByteValue(0, 0) == 0 && CalculateMultiByteValue(127, 127) == 16383
  {
  }

  /** The spot values of the 14-bit conversion. */
  lemma MultiByteSpotValues()
    ensures CalculateMultiByteValue(64, 0) == 8192 && GetMsbAndLsb(8192) == (64, 0)
    ensures CalculateMultiByteValue(100, 33) == 12833 && GetMsbAndLsb(12833) == (100, 33)
    ensures CalculateMultiByteValue(127, 127) == 16383 && GetMsbAndLsb(16383) == (127, 127)
    ensures GetMsbAndLsb(0) == (0, 0)
  {
  }
}
