/**
 * The list-iteration benchmark: one list of random `int`s, summed by an
 * enhanced `for` loop, by an index loop that asks for the size on every step,
 * and by an index loop that reads the size once. All three must compute the
 * same 32-bit wrap-around sum.
 */
module ForLoopOverList {
  import opened JavaInt
  import DataGenerator

  /**
   * The exact, unbounded sum of the elements, with no overflow; `WrapSum`
   * reduces it modulo 2^32. It lies between `|s|` times the least and `|s|`
   * times the greatest `int`.
   */
  function Sum(s: seq<Int32>): (r: int)
    ensures |s| * MIN_VALUE <= r <= |s| * MAX_VALUE
  {
    if s == [] then 0 else Sum(s[..|s| - 1]) + s[|s| - 1]
  }

  /**
   * What summing `s` into a Java `int` gives: the exact sum reduced modulo
   * 2^32 into the `int` range.
   */
  function WrapSum(s: seq<Int32>): (r: Int32)
    ensures r % TWO_32 == Sum(s) % TWO_32
  {
    Wrap(Sum(s))
  }

  /**
   * One step of any of the three loops: adding the next element with Java's
   * `+` to the wrapped sum of a prefix gives the wrapped sum of the longer
   * prefix.
   */
  lemma {:induction false} WrapSumAppend(s: seq<Int32>, x: Int32)
    ensures WrapSum(s + [x]) == AddWrap(WrapSum(s), x)
  {
    assert (s + [x])[..|s|] == s;
    WrapAdd(Sum(s), x);
  }

  /** The sum wraps only when the exact sum leaves the `int` range. */
  lemma WrapSumExact(s: seq<Int32>)
    requires MIN_VALUE <= Sum(s) <= MAX_VALUE
    ensures WrapSum(s) == Sum(s)
  {
    WrapInRange(Sum(s));
  }

  /** The empty list sums to 0. */
  lemma WrapSumEmpty()
    ensures WrapSum([]) == 0
  {
  }

  /** `Integer.MAX_VALUE + 1` overflows to `Integer.MIN_VALUE`. */
  lemma WrapSumOverflow()
    ensures Sum([MAX_VALUE, 1]) == MAX_VALUE + 1
    ensures WrapSum([MAX_VALUE, 1]) == MIN_VALUE
  {
    var s: seq<Int32> := [MAX_VALUE, 1];
    assert s[..1] == [MAX_VALUE];
    assert Sum(s[..1]) == MAX_VALUE;
  }

  /** A list whose sum does not overflow: [1, 2, 3, 4, 5] sums to 15. */
  lemma WrapSumSmall()
    ensures WrapSum([1, 2, 3, 4, 5]) == 15
  {
    var s: seq<Int32> := [1, 2, 3, 4, 5];
    assert s[..1] == [1] && Sum(s[..1]) == 1;
    assert s[..2][..1] == s[..1] && Sum(s[..2]) == 3;
    assert s[..3][..2] == s[..2] && Sum(s[..3]) == 6;
    assert s[..4][..3] == s[..3] && Sum(s[..4]) == 10;
    assert s[..4] == s[..|s| - 1];
    WrapInRange(Sum(s));
  }

  /** The values JMH injects into the `size` parameter. */
  const ParamSizes: set<int> := {1, 10, 100, 1000, 10000}

  /**
   * One benchmark state object: the `size` parameter and the list that
   * `Setup` fills. A Java `ArrayList<Integer>` holds at most
   * `Integer.MAX_VALUE` non-null elements.
   */
  class ForLoopOverListBenchmark {
    var size: Int32
    var arrayList: seq<Int32>

    ghost predicate Valid()
      reads this
    {
      size in ParamSizes && |arrayList| <= MAX_VALUE
    }

    /** The state object as JMH creates it, `size` injected, not yet set up. */
    constructor (size: Int32)
      requires size in ParamSizes
      ensures Valid() && this.size == size && arrayList == []
    {
      this.size := size;
      arrayList := [];
    }

    /**
     * `setup()`: replaces the list by `size` fresh draws of the generator,
     * in draw order; `size` itself is left alone.
     */
    method Setup(rnd: DataGenerator.Random)
      requires Valid()
      modifies this, rnd
      ensures Valid() && size == old(size)
      ensures |arrayList| == size
      ensures rnd.drawn == old(rnd.drawn) + arrayList
    {
      var list := DataGenerator.ListOfRandomIntegers(size, rnd);
      arrayList := list.value;
    }

    /**
     * `forInLoop`: the enhanced `for` loop. The list's iterator is modelled
     * by the elements it has yet to yield: `hasNext()` is `rest != []` and
     * `next()` takes the head of `rest`. No index is used.
     */
    method ForInLoop() returns (count: Int32)
      ensures count == WrapSum(arrayList)
    {
      count := 0;
      var rest := arrayList;
      ghost var seen: seq<Int32> := [];
      while rest != []
        invariant seen + rest == arrayList
        invariant count == WrapSum(seen)
      {
        var integer := rest[0];
        rest := rest[1..];
        WrapSumAppend(seen, integer);
        count := AddWrap(count, integer);
        seen := seen + [integer];
      }
      assert seen == arrayList;
    }

    /**
     * `forIndexLoop`: an `int` index from 0, compared with the list's size
     * afresh on every step; every `get(i)` is within bounds.
     */
    method ForIndexLoop() returns (count: Int32)
      requires |arrayList| <= MAX_VALUE
      ensures count == WrapSum(arrayList)
    {
      count := 0;
      var i: Int32 := 0;
      while i < |arrayList|
        invariant 0 <= i <= |arrayList|
        invariant count == WrapSum(arrayList[..i])
      {
        var integer := arrayList[i];
        assert arrayList[..i + 1] == arrayList[..i] + [integer];
        WrapSumAppend(arrayList[..i], integer);
        count := AddWrap(count, integer);
        i := i + 1;
      }
      assert arrayList[..i] == arrayList;
    }

    /**
     * `forIndexOptimizedLoop`: the size is read once into `arrayListSize`
     * before the loop; since nothing changes the list, it stays equal to the
     * list's size, and every `get(i)` is within bounds.
     */
    method ForIndexOptimizedLoop() returns (count: Int32)
      requires |arrayList| <= MAX_VALUE
      ensures count == WrapSum(arrayList)
    {
      count := 0;
      var i: Int32, arrayListSize: Int32 := 0, |arrayList|;
      while i < arrayListSize
        invariant arrayListSize == |arrayList|
        invariant 0 <= i <= arrayListSize
        invariant count == WrapSum(arrayList[..i])
      {
        var integer := arrayList[i];
        assert arrayList[..i + 1] == arrayList[..i] + [integer];
        WrapSumAppend(arrayList[..i], integer);
        count := AddWrap(count, integer);
        i := i + 1;
      }
      assert arrayList[..i] == arrayList;
    }

    /**
     * The three strategies, run one after the other on the same state, give
     * one and the same result, which is 0 for an empty list. None of them
     * may change the object, so the list each one sees is the same.
     */
    method AllLoopsAgree() returns (forIn: Int32, forIndex: Int32, forIndexOptimized: Int32)
      requires |arrayList| <= MAX_VALUE
      ensures forIn == forIndex == forIndexOptimized == WrapSum(arrayList)
      ensures arrayList == [] ==> forIn == 0
    {
      forIn := ForInLoop();
      forIndex := ForIndexLoop();
      forIndexOptimized := ForIndexOptimizedLoop();
    }
  }

  /**
   * A state whose list is `[Integer.MAX_VALUE, 1]`: every strategy wraps the
   * sum around to `Integer.MIN_VALUE` rather than failing.
   */
  method OverflowScenario() returns (forIn: Int32, forIndex: Int32, forIndexOptimized: Int32)
    ensures forIn == forIndex == forIndexOptimized == MIN_VALUE
  {
    var b := new ForLoopOverListBenchmark(10);
    // The list is fixed directly instead of by `Setup`, whose draws are
    // arbitrary; the resulting state need not have `size` elements.
    b.arrayList := [MAX_VALUE, 1];
    WrapSumOverflow();
    forIn, forIndex, forIndexOptimized := b.AllLoopsAgree();
  }

  /** A state whose list is `[1, 2, 3, 4, 5]`: every strategy returns 15. */
  method SmallListScenario() returns (forIn: Int32, forIndex: Int32, forIndexOptimized: Int32)
    ensures forIn == forIndex == forIndexOptimized == 15
  {
    var b := new ForLoopOverListBenchmark(10);
    // The list is fixed directly instead of by `Setup`, whose draws are
    // arbitrary; the resulting state need not have `size` elements.
    b.arrayList := [1, 2, 3, 4, 5];
    WrapSumSmall();
    forIn, forIndex, forIndexOptimized := b.AllLoopsAgree();
  }
}
