/** Headings in turns and their reduction into the canonical range [0, 1). */
module Angles {

  /** `d` is a whole number of turns. */
  predicate WholeTurns(d: real) {
    d.Floor as real == d
  }

  /** Reduction of a heading modulo one turn. */
  function Normalize(a: real): (r: real)
    ensures 0.0 <= r < 1.0
    ensures WholeTurns(a - r)
  {
    a - a.Floor as real
  }

  /** A number strictly between two consecutive integers is not a whole
      number of turns. */
  lemma NotWholeBetween(d: real, k: int)
    requires k as real < d < k as real + 1.0
    ensures !WholeTurns(d)
  {
    assert d.Floor == k;
  }

  /** Shifts by two different fractions of a turn never land on the same
      heading, nor a whole number of turns apart, and a non-zero shift is
      never a whole number of turns away from the unshifted heading. */
  lemma NormalizeSeparates(a: real, x: real, y: real)
    requires 0.0 <= x < y < 1.0
    ensures !WholeTurns(Normalize(a + x) - Normalize(a + y))
    ensures Normalize(a + x) != Normalize(a + y)
    ensures x > 0.0 ==> !WholeTurns(a - Normalize(a + x))
    ensures x > 0.0 ==> Normalize(a + x) != a
  {
    var m := (a + y).Floor - (a + x).Floor;
    assert Normalize(a + x) - Normalize(a + y) == (x - y) + m as real;
    NotWholeBetween((x - y) + m as real, m - 1);
    var f := (a + x).Floor;
    assert a - Normalize(a + x) == f as real - x;
    if x > 0.0 {
      NotWholeBetween(f as real - x, f - 1);
    }
  }
}
