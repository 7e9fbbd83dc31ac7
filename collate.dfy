/**
 * Label-subset collation of the conditional DSM runner (runners/mnist_exp_runner.py).
 *
 * A batch is a list of (image, label) pairs. `my_collate` keeps the pairs whose label
 * lies in range(nSeg), `my_collate_rev` those whose label lies in range(nSeg, 10); both
 * walk the batch in order and append, then hand the survivors to the default collation,
 * which splits them into an image column and a label column and fails on an empty list.
 */
module Collate {
  import opened Results

  /** One dataset item: an image of any representation and its integer class label (`target`). */
  datatype Item<I> = Item(image: I, target: int)

  /** What the default collation produces: the images and the labels, position by position. */
  datatype Batch<I> = Batch(images: seq<I>, labels: seq<int>)

  /** The default collation indexes the first element of its input, so an empty list fails. */
  datatype CollateError = EmptyBatch

  /** The label window [lo, hi) that Python's `label in range(lo, hi)` tests. */
  predicate InRange(target: int, lo: int, hi: int) {
    lo <= target < hi
  }

  /** The items of `batch` whose label is in [lo, hi), in their original order. */
  function Keep<I>(batch: seq<Item<I>>, lo: int, hi: int): (r: seq<Item<I>>)
    ensures |r| <= |batch|
    ensures forall k :: 0 <= k < |r| ==> InRange(r[k].target, lo, hi)
  {
    if batch == [] then []
    else
      var last := batch[|batch| - 1];
      Keep(batch[..|batch| - 1], lo, hi) + (if InRange(last.target, lo, hi) then [last] else [])
  }

  /** `sub` can be obtained from `s` by deleting elements, keeping the order of the rest. */
  ghost predicate IsSubsequence<T>(sub: seq<T>, s: seq<T>)
    decreases |s|
  {
    if sub == [] then true
    else if s == [] then false
    else
      (sub[|sub| - 1] == s[|s| - 1] && IsSubsequence(sub[..|sub| - 1], s[..|s| - 1]))
      || IsSubsequence(sub, s[..|s| - 1])
  }

  /** The default collation: the image column and the label column of a non-empty list. */
  function DefaultCollate<I>(items: seq<Item<I>>): (r: Result<Batch<I>, CollateError>)
    ensures r.Err? <==> items == []
    ensures r.Ok? ==> |r.value.images| == |items| && |r.value.labels| == |items|
    ensures r.Ok? ==> forall k :: 0 <= k < |items| ==>
                        r.value.images[k] == items[k].image && r.value.labels[k] == items[k].target
  {
    if items == [] then Err(EmptyBatch)
    else Ok(Batch(seq(|items|, k requires 0 <= k < |items| => items[k].image),
                  seq(|items|, k requires 0 <= k < |items| => items[k].target)))
  }

  /** The loop shared by both collate functions: append every item whose label is in [lo, hi). */
  method FilterByLabel<I>(batch: seq<Item<I>>, lo: int, hi: int) returns (kept: seq<Item<I>>)
    ensures kept == Keep(batch, lo, hi)
  {
    kept := [];
    for i := 0 to |batch|
      invariant kept == Keep(batch[..i], lo, hi)
    {
      var item := batch[i];
      assert batch[..i + 1][..i] == batch[..i];
      if InRange(item.target, lo, hi) {
        kept := kept + [item];
      }
    }
    assert batch[..|batch|] == batch;
  }

  /** `my_collate(batch, nSeg)`: keep the labels 0 .. nSeg-1, then collate. */
  method MyCollate<I>(batch: seq<Item<I>>, nSeg: int) returns (r: Result<Batch<I>, CollateError>)
    ensures r == DefaultCollate(Keep(batch, 0, nSeg))
    ensures r.Err? <==> forall k :: 0 <= k < |batch| ==> !InRange(batch[k].target, 0, nSeg)
    ensures r.Ok? ==> forall k :: 0 <= k < |r.value.labels| ==> 0 <= r.value.labels[k] < nSeg
  {
    var kept := FilterByLabel(batch, 0, nSeg);
    KeepEmptyIff(batch, 0, nSeg);
    r := DefaultCollate(kept);
  }

  /** `my_collate_rev(batch, nSeg)`: keep the labels nSeg .. 9, then collate. */
  method MyCollateRev<I>(batch: seq<Item<I>>, nSeg: int) returns (r: Result<Batch<I>, CollateError>)
    ensures r == DefaultCollate(Keep(batch, nSeg, 10))
    ensures r.Err? <==> forall k :: 0 <= k < |batch| ==> !InRange(batch[k].target, nSeg, 10)
    ensures r.Ok? ==> forall k :: 0 <= k < |r.value.labels| ==> nSeg <= r.value.labels[k] < 10
  {
    var kept := FilterByLabel(batch, nSeg, 10);
    KeepEmptyIff(batch, nSeg, 10);
    r := DefaultCollate(kept);
  }

  /** Nothing survives exactly when no label of the batch is in the window. */
  lemma {:induction false} KeepEmptyIff<I>(batch: seq<Item<I>>, lo: int, hi: int)
    ensures Keep(batch, lo, hi) == [] <==> forall k :: 0 <= k < |batch| ==> !InRange(batch[k].target, lo, hi)
  {
    if batch != [] {
      var init := batch[..|batch| - 1];
      KeepEmptyIff(init, lo, hi);
      if Keep(batch, lo, hi) == [] {
        forall k | 0 <= k < |batch| ensures !InRange(batch[k].target, lo, hi) {
          if k < |batch| - 1 { assert batch[k] == init[k]; }
        }
      }
    }
  }

  /** Each item occurs in the result as often as in the batch if its label is in the window, else never. */
  lemma {:induction false} KeepCounts<I>(batch: seq<Item<I>>, lo: int, hi: int, x: Item<I>)
    ensures multiset(Keep(batch, lo, hi))[x] == if InRange(x.target, lo, hi) then multiset(batch)[x] else 0
  {
    if batch != [] {
      var init := batch[..|batch| - 1];
      var last := batch[|batch| - 1];
      KeepCounts(init, lo, hi, x);
      assert batch == init + [last];
      assert multiset(batch) == multiset(init) + multiset{last};
    }
  }

  /** Exactly the items whose label is in the window survive. */
  lemma KeepMembers<I>(batch: seq<Item<I>>, lo: int, hi: int, x: Item<I>)
    ensures x in Keep(batch, lo, hi) <==> x in batch && InRange(x.target, lo, hi)
  {
    KeepCounts(batch, lo, hi, x);
    assert x in Keep(batch, lo, hi) <==> multiset(Keep(batch, lo, hi))[x] > 0;
    assert x in batch <==> multiset(batch)[x] > 0;
  }

  /** The survivors keep their original relative order. */
  lemma {:induction false} KeepIsSubsequence<I>(batch: seq<Item<I>>, lo: int, hi: int)
    ensures IsSubsequence(Keep(batch, lo, hi), batch)
  {
    if batch != [] {
      var init := batch[..|batch| - 1];
      var last := batch[|batch| - 1];
      KeepIsSubsequence(init, lo, hi);
      var kept := Keep(batch, lo, hi);
      if InRange(last.target, lo, hi) {
        assert kept[..|kept| - 1] == Keep(init, lo, hi);
      } else {
        assert kept == Keep(init, lo, hi);
        SubsequenceDropLast(kept, batch);
      }
    }
  }

  /** A subsequence of the batch without its last element is a subsequence of the batch. */
  lemma SubsequenceDropLast<T>(sub: seq<T>, s: seq<T>)
    requires s != [] && IsSubsequence(sub, s[..|s| - 1])
    ensures IsSubsequence(sub, s)
  {
  }

  /**
   * For labels 0 .. 9 and any nSeg, `my_collate` and `my_collate_rev` together keep the
   * whole batch: nothing is lost or duplicated (that no item goes to both is CollateDisjoint).
   */
  lemma {:induction false} CollatePartition<I>(batch: seq<Item<I>>, nSeg: int)
    requires forall k :: 0 <= k < |batch| ==> 0 <= batch[k].target < 10
    ensures multiset(Keep(batch, 0, nSeg)) + multiset(Keep(batch, nSeg, 10)) == multiset(batch)
  {
    if batch != [] {
      var init, last := batch[..|batch| - 1], batch[|batch| - 1];
      assert forall k :: 0 <= k < |init| ==> init[k] == batch[k];
      CollatePartition(init, nSeg);
      assert batch == init + [last];
      PartitionStep(Keep(init, 0, nSeg), Keep(init, nSeg, 10), init, last,
                    Keep(batch, 0, nSeg), Keep(batch, nSeg, 10), InRange(last.target, 0, nSeg));
    }
  }

  /** One item appended to exactly one of the two parts of a split keeps it a split. */
  lemma PartitionStep<T>(first: seq<T>, rest: seq<T>, s: seq<T>, last: T,
                         first': seq<T>, rest': seq<T>, toFirst: bool)
    requires multiset(first) + multiset(rest) == multiset(s)
    requires toFirst ==> first' == first + [last] && rest' == rest
    requires !toFirst ==> first' == first && rest' == rest + [last]
    ensures multiset(first') + multiset(rest') == multiset(s + [last])
  {
  }

  /** No item passes both filters, whatever its label. */
  lemma CollateDisjoint<I>(batch: seq<Item<I>>, nSeg: int)
    ensures multiset(Keep(batch, 0, nSeg)) !! multiset(Keep(batch, nSeg, 10))
  {
    forall x | x in multiset(Keep(batch, 0, nSeg))
      ensures x !in multiset(Keep(batch, nSeg, 10))
    {
      KeepMembers(batch, 0, nSeg, x);
      KeepMembers(batch, nSeg, 10, x);
    }
  }

  /** With the default nSeg = 8 used by the transfer-baseline loaders, only digits 8 and 9 survive. */
  lemma CollateRevDefault<I>(batch: seq<Item<I>>, x: Item<I>)
    ensures x in Keep(batch, 8, 10) <==> x in batch && (x.target == 8 || x.target == 9)
  {
    KeepMembers(batch, 8, 10, x);
  }
}
