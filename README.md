# java-common-benchmarks: list iteration and data generation, in Dafny

This project models the behaviour in the `java-common-benchmarks` microbenchmarks that can be stated as a contract:

- **`ForLoopOverListBenchmark`** holds a list of random `int`s. It sums the list in three ways:
  - an enhanced `for` loop over the list's iterator;
  - an index loop that calls `size()` on every step;
  - an index loop that reads the size once into `arrayListSize`.
- **`DataGenerator`** builds an `ArrayList<Integer>` or an `int[]` of `size` elements. It draws one value per element from a shared `java.util.Random`.

The three loops accumulate into an `int` with Java's `+`. That operator wraps on overflow: the result is the low-order 32 bits of the exact sum (Java Language Specification, section 15.18.2). The model writes this out:

- `JavaInt.Wrap` maps an unbounded integer to the unique `int` with the same low-order 32 bits.
- `JavaInt.AddWrap` is Java's `int` addition.
- `ForLoopOverList.Sum` is the exact, unbounded sum of the list, which `WrapSum` reduces modulo 2^32.
- `ForLoopOverList.WrapSum` is the specification of every loop: the exact sum of the list, wrapped into the `int` range.
- Each loop method is proved to return `WrapSum` of the list. The invariant says that the count so far is `WrapSum` of the prefix already visited. `WrapSumAppend` carries that invariant across one step.

Modules and files:

- `java_int.dfy`, module `JavaInt`: the `int` range, `Wrap`, `AddWrap` and their lemmas.
- `data_generator.dfy`, module `DataGenerator`: the random source, the error cases and the two fill loops.
- `for_loop_over_list.dfy`, module `ForLoopOverList`: `Sum`, `WrapSum`, their lemmas, and the benchmark state class with `Setup` and the three loops.

How the Java entities are represented:

- `ArrayList<Integer>` becomes `seq<Int32>`. The type `Int32` covers exactly the values of a non-null `Integer`.
- The benchmark's `arrayList` field is a `seq` field of the class `ForLoopOverListBenchmark`. `Setup` assigns it.
- The three loop methods have no `modifies` clause. Dafny therefore guarantees that they leave the object, and so the list, unchanged. `AllLoopsAgree` relies on this: it runs the three loops one after another on the same state and proves that the results are equal.
- Each index loop reads elements only through `arrayList[i]`. Dafny proves every such access is within bounds.
- The enhanced `for` loop's iterator is modelled by the elements it has not yet yielded: `hasNext()` is "some remain" and `next()` takes the first of them.
- The shared static `RND` becomes a `Random` object passed as a parameter. Each `NextInt()` returns an arbitrary `int`. The ghost history `drawn` lets the contracts state which draws each call consumed, and in what order.
- `Blackhole.consume(count)` becomes the method's return value.
- Exceptions become a `Result` with an `Error`:
  - `new ArrayList<>(size)` with a negative size throws `IllegalArgumentException` (`IllegalArgument`).
  - `new int[size]` with a negative size throws `NegativeArraySizeException` (`NegativeArraySize`).
  - Either way, the exception comes before any draw.

## Model

| member | source | states |
|---|---|---|
| `JavaInt.Wrap` | src/main/java/com/oblac/jcb/collection/ForLoopOverListBenchmark.java:77 | The result is an `int` whose low-order 32 bits equal those of the exact value. |
| `JavaInt.WrapUnique` | src/main/java/com/oblac/jcb/collection/ForLoopOverListBenchmark.java:77 | Any `int` with the same low-order 32 bits as `x` is `Wrap(x)`, so `Wrap` is determined by its contract. |
| `JavaInt.WrapInRange` | src/main/java/com/oblac/jcb/collection/ForLoopOverListBenchmark.java:77 | A value already in the `int` range is not changed by wrapping. |
| `JavaInt.WrapAdd` | src/main/java/com/oblac/jcb/collection/ForLoopOverListBenchmark.java:77 | Wrapping a partial sum before adding the next term gives the same `int` as wrapping only at the end. |
| `JavaInt.AddWrap` | src/main/java/com/oblac/jcb/collection/ForLoopOverListBenchmark.java:77 | Java `int` `+`: the exact sum when it fits; otherwise the sum minus 2^32 on positive overflow and plus 2^32 on negative overflow. |
| `ForLoopOverList.Sum` | src/main/java/com/oblac/jcb/collection/ForLoopOverListBenchmark.java:75-78 | The exact sum of the elements, before any wrap-around, lies between the list length times `Integer.MIN_VALUE` and the list length times `Integer.MAX_VALUE`. |
| `ForLoopOverList.WrapSum` | src/main/java/com/oblac/jcb/collection/ForLoopOverListBenchmark.java:75-78 | The summed `int` has the same low-order 32 bits as the exact sum of the elements. |
| `ForLoopOverList.WrapSumAppend` | src/main/java/com/oblac/jcb/collection/ForLoopOverListBenchmark.java:76-78 | `count += x` on the wrapped sum of a prefix gives the wrapped sum of that prefix extended by `x`. This is the step of every loop invariant. |
| `ForLoopOverList.WrapSumExact` | src/main/java/com/oblac/jcb/collection/ForLoopOverListBenchmark.java:77 | When the exact sum fits in an `int`, the wrapped sum equals it. |
| `ForLoopOverList.WrapSumEmpty` | src/main/java/com/oblac/jcb/collection/ForLoopOverListBenchmark.java:75 | An empty list sums to 0. |
| `ForLoopOverList.WrapSumOverflow` | src/main/java/com/oblac/jcb/collection/ForLoopOverListBenchmark.java:77 | `[Integer.MAX_VALUE, 1]` has exact sum 2^31 and wrapped sum `Integer.MIN_VALUE`. |
| `ForLoopOverList.WrapSumSmall` | src/main/java/com/oblac/jcb/collection/ForLoopOverListBenchmark.java:75-78 | `[1, 2, 3, 4, 5]` sums to 15. |
| `ForLoopOverList.ForLoopOverListBenchmark.constructor` | src/main/java/com/oblac/jcb/collection/ForLoopOverListBenchmark.java:63-66 | `size` is one of the parameter values 1, 10, 100, 1000, 10000, and the list is empty before setup. |
| `ForLoopOverList.ForLoopOverListBenchmark.Setup` | src/main/java/com/oblac/jcb/collection/ForLoopOverListBenchmark.java:68-71 | After setup, the list has exactly `size` elements. They are the values just drawn from the generator, in draw order, and `size` is unchanged. |
| `ForLoopOverList.ForLoopOverListBenchmark.ForInLoop` | src/main/java/com/oblac/jcb/collection/ForLoopOverListBenchmark.java:73-80 | Iterator traversal returns the 32-bit wrap-around sum of the list. |
| `ForLoopOverList.ForLoopOverListBenchmark.ForIndexLoop` | src/main/java/com/oblac/jcb/collection/ForLoopOverListBenchmark.java:82-90 | An index loop that re-reads the size on every step returns the wrap-around sum. Every `get(i)` is in bounds. |
| `ForLoopOverList.ForLoopOverListBenchmark.ForIndexOptimizedLoop` | src/main/java/com/oblac/jcb/collection/ForLoopOverListBenchmark.java:92-100 | An index loop with the size cached returns the wrap-around sum. The cached size equals the list's size throughout, and every `get(i)` is in bounds. |
| `ForLoopOverList.ForLoopOverListBenchmark.AllLoopsAgree` | src/main/java/com/oblac/jcb/collection/ForLoopOverListBenchmark.java:73-100 | On one state, the three strategies return the same value, namely the wrap-around sum. They return 0 for an empty list. |
| `ForLoopOverList.OverflowScenario` | src/main/java/com/oblac/jcb/collection/ForLoopOverListBenchmark.java:73-100 | On the list `[Integer.MAX_VALUE, 1]`, all three strategies return `Integer.MIN_VALUE`. |
| `ForLoopOverList.SmallListScenario` | src/main/java/com/oblac/jcb/collection/ForLoopOverListBenchmark.java:73-100 | On the list `[1, 2, 3, 4, 5]`, all three strategies return 15. |
| `DataGenerator.Random.constructor` | src/main/java/com/oblac/jcb/DataGenerator.java:11 | A new generator has handed out no values yet. |
| `DataGenerator.Random.NextInt` | src/main/java/com/oblac/jcb/DataGenerator.java:21 | Each draw yields one `int`, which is appended to the history of values drawn. |
| `DataGenerator.ListOfRandomIntegers` | src/main/java/com/oblac/jcb/DataGenerator.java:17-25 | A negative size fails with `IllegalArgument` before any draw. Otherwise the list has exactly `size` elements, exactly `size` values are drawn, and element `i` is the `i`-th of them (none for size 0). |
| `DataGenerator.ArrayOfRandomInts` | src/main/java/com/oblac/jcb/DataGenerator.java:31-39 | A negative size fails with `NegativeArraySize` before any draw. Otherwise the array is fresh and of length `size`, exactly `size` values are drawn, and slot `i` holds the `i`-th of them. |

## Left out

- JMH machinery is not modelled: `@Benchmark`, `@Setup`, `@State`, `@Param`, the warmup, measurement, fork and thread settings, and `Blackhole`. These are harness configuration and timing, not behaviour. The sink is replaced by a return value, and `@Param` by the constructor's precondition on `size`.
- Concurrency is not modelled: `@Threads(2)` with per-thread state, and the sharing of the static `RND` between threads. The harness confines each state object to one thread, and the thread safety of `java.util.Random` is a library property.
- The values and distribution of `Random.nextInt()` are not modelled. Each draw is an arbitrary `int`, so no statistical property is stated.
- The benchmark results table and its conclusion in the class comment are measurements, not contracts.
- `ArrayList` internals are not modelled: capacity growth, the iterator's fail-fast modification check, and `Integer` boxing and caching. The list is a `seq` of `int` values.
- The state before `setup()` is not modelled faithfully. In Java, `arrayList` is `null` until `setup()` runs, and JMH always calls `setup()` before any benchmark. The model starts from an empty list instead, so it does not model the `NullPointerException` a loop would raise before setup.
- ForLoopOverList.ForLoopOverListBenchmark.ForInLoop, ForIndexLoop, ForIndexOptimizedLoop: "the list is not changed" is not a postcondition. Each method has no `modifies` clause, so Dafny's framing already guarantees it.
