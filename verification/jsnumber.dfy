/** The parts of JavaScript number arithmetic that differ from Dafny's. */
module JsNumber {

  /**
   * The JavaScript remainder operator `a % d` for a positive divisor: it truncates
   * toward zero, so its sign follows the dividend (Dafny's `%` is Euclidean).
   * The source only divides by 7 (letter steps), 12 (semitones) and 128 (data bytes).
   */
  function Rem(a: int, d: int): (r: int)
    requires d == 7 || d == 12 || d == 128
    ensures -d < r < d
    ensures a >= 0 ==> 0 <= r
    ensures a <= 0 ==> r <= 0
  {
    if a >= 0 then a % d else -((-a) % d)
  }

  /**
   * The normalisation `diff < 0 ? d + diff : diff` the source applies after `%`:
   * it turns the truncated remainder into the Euclidean one.
   */
  function Wrap(a: int, d: int): (r: int)
    requires d == 7 || d == 12
    ensures 0 <= r < d
    ensures r == a % d
  {
    var diff := Rem(a, d);
    RemWraps(a, d);
    if diff < 0 then d + diff else diff
  }

  /** Adding the divisor to a negative truncated remainder gives the Euclidean one. */
  lemma RemWraps(a: int, d: int)
    requires d == 7 || d == 12
    ensures Rem(a, d) < 0 ==> d + Rem(a, d) == a % d
    ensures Rem(a, d) >= 0 ==> Rem(a, d) == a % d
  {
    if d == 7 {
    } else {
    }
  }

  function Abs(a: int): (r: int)
    ensures r >= 0
    ensures r == a || r == -a
  {
    if a < 0 then -a else a
  }

  function Min(a: int, b: int): (r: int)
    ensures r <= a && r <= b
    ensures r == a || r == b
  {
    if a < b then a else b
  }
}
