/**
 * The benchmark input generator: a list and an array of `size` values, each
 * one drawn from a process-wide pseudo-random generator.
 */
module DataGenerator {
  import opened JavaInt

  /** The exceptions the two generators can raise. */
  datatype Error =
    | IllegalArgument     // `new ArrayList<>(size)` with a negative capacity
    | NegativeArraySize   // `new int[size]` with a negative length

  datatype Result<T> = Success(value: T) | Failure(error: Error)

  /**
   * The shared `java.util.Random`. Its values are not modelled: each draw is
   * an arbitrary `int`. The ghost field `drawn` records every value handed
   * out so far, in order, so that callers can say which draws they consumed.
   */
  class Random {
    ghost var drawn: seq<Int32>

    constructor ()
      ensures drawn == []
    {
      drawn := [];
    }

    /** `nextInt()`: one more arbitrary `int`, appended to the history. */
    method NextInt() returns (r: Int32)
      modifies this
      ensures drawn == old(drawn) + [r]
    {
      r :| MIN_VALUE <= r <= MAX_VALUE;
      drawn := drawn + [r];
    }
  }

  /**
   * `listOfRandomIntegers(size)`: a new list of exactly `size` elements,
   * element `i` being the `i`-th value drawn by this call. A negative size
   * fails when the list is allocated, before anything is drawn.
   */
  method ListOfRandomIntegers(size: Int32, rnd: Random) returns (r: Result<seq<Int32>>)
    modifies rnd
    ensures size < 0 ==> r == Failure(IllegalArgument) && rnd.drawn == old(rnd.drawn)
    ensures size >= 0 ==> r.Success? && |r.value| == size
    ensures size >= 0 ==> rnd.drawn == old(rnd.drawn) + r.value
  {
    if size < 0 {
      return Failure(IllegalArgument);
    }
    var list: seq<Int32> := [];
    var i: Int32 := 0;
    while i < size
      invariant 0 <= i <= size
      invariant |list| == i
      invariant rnd.drawn == old(rnd.drawn) + list
    {
      var x := rnd.NextInt();
      list := list + [x];
      i := i + 1;
    }
    return Success(list);
  }

  /**
   * `arrayOfRandomInts(size)`: a fresh array of length `size` whose every
   * slot holds the value drawn for it, slots filled in index order. A
   * negative size fails when the array is allocated, before anything is
   * drawn.
   */
  method ArrayOfRandomInts(size: Int32, rnd: Random) returns (r: Result<array<Int32>>)
    modifies rnd
    ensures size < 0 ==> r == Failure(NegativeArraySize) && rnd.drawn == old(rnd.drawn)
    ensures size >= 0 ==> r.Success? && fresh(r.value) && r.value.Length == size
    ensures size >= 0 ==> rnd.drawn == old(rnd.drawn) + r.value[..]
  {
    if size < 0 {
      return Failure(NegativeArraySize);
    }
    var a := new Int32[size];
    var i: Int32 := 0;
    while i < size
      invariant 0 <= i <= size
      invariant rnd.drawn == old(rnd.drawn) + a[..i]
    {
      var x := rnd.NextInt();
      a[i] := x;
      i := i + 1;
    }
    assert a[..i] == a[..];
    return Success(a);
  }
}
