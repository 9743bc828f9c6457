/**
 * Java's `int`: a signed 32-bit two's-complement integer, and its `+`
 * operator, which never fails but keeps only the low-order 32 bits of the
 * exact sum (section 15.18.2 of the Java Language Specification, with the
 * value set of `int` given in section 4.2.1).
 */
module JavaInt {

  const TWO_31: int := 0x8000_0000
  const TWO_32: int := 0x1_0000_0000

  /** `Integer.MIN_VALUE` and `Integer.MAX_VALUE`. */
  const MIN_VALUE: int := -TWO_31
  const MAX_VALUE: int := TWO_31 - 1

  /** The values a Java `int` (or a non-null `Integer`) can hold. */
  type Int32 = x: int | -0x8000_0000 <= x < 0x8000_0000

  /**
   * The `int` whose 32-bit pattern is the low-order 32 bits of `x`: the
   * unique value of the `int` range congruent to `x` modulo 2^32.
   */
  function Wrap(x: int): (r: Int32)
    ensures r % TWO_32 == x % TWO_32
  {
    var low := x % TWO_32;
    if low < TWO_31 then low else low - TWO_32
  }

  /** No other `int` has the same low-order 32 bits as `x`. */
  lemma WrapUnique(x: int, y: Int32)
    requires y % TWO_32 == x % TWO_32
    ensures y == Wrap(x)
  {
    var w := Wrap(x);
    assert w % TWO_32 == y % TWO_32;
    // Both lie in one window of width 2^32 and agree modulo 2^32.
    assert (w + TWO_31) % TWO_32 == (y + TWO_31) % TWO_32;
    assert 0 <= w + TWO_31 < TWO_32 && 0 <= y + TWO_31 < TWO_32;
  }

  /** A value that is already an `int` is left alone. */
  lemma WrapInRange(x: int)
    requires MIN_VALUE <= x <= MAX_VALUE
    ensures Wrap(x) == x
  {
    WrapUnique(x, x);
  }

  /**
   * Wrapping an intermediate result and wrapping only at the end agree:
   * the low-order 32 bits of a sum depend only on the low-order 32 bits of
   * its summands.
   */
  lemma WrapAdd(a: int, b: int)
    ensures Wrap(Wrap(a) + b) == Wrap(a + b)
  {
    var w := Wrap(a);
    assert (w + b) % TWO_32 == (a + b) % TWO_32 by {
      assert w % TWO_32 == a % TWO_32;
    }
    WrapUnique(w + b, Wrap(a + b));
  }

  /**
   * Java's `a + b` on two `int` operands (also what `count += x` stores).
   * The exact sum when it fits; otherwise the sum shifted by 2^32 back into
   * range, so that overflow wraps around instead of failing.
   */
  function AddWrap(a: Int32, b: Int32): (r: Int32)
    ensures MIN_VALUE <= a + b <= MAX_VALUE ==> r == a + b
    ensures a + b > MAX_VALUE ==> r == a + b - TWO_32
    ensures a + b < MIN_VALUE ==> r == a + b + TWO_32
  {
    Wrap(a + b)
  }
}
