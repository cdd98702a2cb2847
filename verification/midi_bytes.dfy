/**
 * Range predicates over raw message numbers. A non-integer or out-of-range
 * number fails the predicate; Dafny's `int` already excludes non-integers.
 */
module MidiBytes {

  predicate IsByte(b: int) {
    0 <= b <= 255
  }

  /** Every number of the sequence is a byte. */
  predicate AllBytes(s: seq<int>) {
    forall i :: 0 <= i < |s| ==> IsByte(s[i])
  }

  predicate IsStatusByte(b: int) {
    IsByte(b) && b >= 128
  }

  predicate IsDataByte(b: int) {
    IsByte(b) && b <= 127
  }

  predicate IsMultiByteValue(v: int) {
    0 <= v <= 16383
  }

  predicate IsChannelNumber(c: int) {
    0 <= c <= 15
  }

}
