/**
 * `[document_layout[i:i + 10] for i in range(0, len(document_layout), 10)]`:
 * contiguous chunks of at most ten items.
 */
module Batching {

  const BatchSize: nat := 10

  function Min(a: int, b: int): int
  {
    if a <= b then a else b
  }

  /** `range(0, n, 10)` has this many elements: n / 10 rounded up. */
  function BatchCount(n: nat): nat
  {
    (n + BatchSize - 1) / BatchSize
  }

  /** The comprehension itself: batch k is the slice `s[10k : 10k + 10]`, clamped to the end. */
  function Batches<T>(s: seq<T>): (r: seq<seq<T>>)
    ensures |r| == BatchCount(|s|)
    ensures forall k :: 0 <= k < |r| ==> 0 < |r[k]| <= BatchSize
    ensures forall k :: 0 <= k < |r| - 1 ==> |r[k]| == BatchSize
  {
    seq(BatchCount(|s|), k requires 0 <= k < BatchCount(|s|) => s[BatchSize * k .. Min(BatchSize * k + BatchSize, |s|)])
  }

  /** The items one after the other: Python's `sum(batches, [])`. */
  function Concat<T>(batches: seq<seq<T>>): seq<T>
  {
    if batches == [] then [] else batches[0] + Concat(batches[1..])
  }

  /** Peeling the first batch off: a sequence longer than ten is its first ten, then the batches of the rest. */
  lemma BatchesUnfold<T>(s: seq<T>)
    requires |s| > BatchSize
    ensures Batches(s) == [s[..BatchSize]] + Batches(s[BatchSize..])
  {
    var r, rest := Batches(s), Batches(s[BatchSize..]);
    assert |r| == |rest| + 1;
    forall k | 0 < k < |r| ensures r[k] == rest[k - 1] {
      assert s[BatchSize..][BatchSize * (k - 1) .. Min(BatchSize * (k - 1) + BatchSize, |s| - BatchSize)]
          == s[BatchSize * k .. Min(BatchSize * k + BatchSize, |s|)];
    }
  }

  /** Concatenating the batches in order gives back exactly the input. */
  lemma {:induction false} ConcatBatches<T>(s: seq<T>)
    ensures Concat(Batches(s)) == s
    decreases |s|
  {
    if |s| == 0 {
    } else if |s| <= BatchSize {
      assert BatchCount(|s|) == 1;
      assert Batches(s)[0] == s[0 .. |s|];
      assert s[0 .. |s|] == s;
      assert Batches(s) == [s];
      assert Concat([s]) == s + Concat([]);
    } else {
      BatchesUnfold(s);
      ConcatBatches(s[BatchSize..]);
      assert ([s[..BatchSize]] + Batches(s[BatchSize..]))[1..] == Batches(s[BatchSize..]);
    }
  }

  /** Item i of the input is item i % 10 of batch i / 10: membership is a function of position only. */
  lemma BatchOfPosition<T>(s: seq<T>, i: nat)
    requires i < |s|
    ensures i / BatchSize < |Batches(s)|
    ensures i % BatchSize < |Batches(s)[i / BatchSize]|
    ensures Batches(s)[i / BatchSize][i % BatchSize] == s[i]
  {
  }

  /** No items, no batches; 23 items make batches of 10, 10 and 3. */
  lemma BatchExamples<T>(s: seq<T>)
    ensures |s| == 0 ==> Batches(s) == []
    ensures |s| == 23 ==> |Batches(s)| == 3 && |Batches(s)[0]| == 10 && |Batches(s)[1]| == 10 && |Batches(s)[2]| == 3
  {
  }
}
