/**
 * The in-place label shift `y -= y.min()` of the DSM training loop
 * (runners/mnist_exp_runner.py), which makes the labels of a collated batch start at 0
 * before they index the columns of the final-layer weight matrix.
 */
module LabelShift {
  import opened Results
  import opened Collate

  /** The smallest label of a non-empty batch. */
  function Min(s: seq<int>): (m: int)
    requires |s| > 0
    ensures m in s
    ensures forall k :: 0 <= k < |s| ==> m <= s[k]
  {
    if |s| == 1 then s[0]
    else
      var rest := Min(s[..|s| - 1]);
      if s[|s| - 1] < rest then s[|s| - 1] else rest
  }

  /** The labels after subtracting their minimum. */
  function Shifted(s: seq<int>): (r: seq<int>)
    requires |s| > 0
    ensures |r| == |s|
    ensures 0 in r
    ensures forall k :: 0 <= k < |r| ==> r[k] >= 0
  {
    var m := Min(s);
    var r := seq(|s|, k requires 0 <= k < |s| => s[k] - m);
    assert forall k :: 0 <= k < |s| ==> r[k] == s[k] - m;
    assert exists i :: 0 <= i < |s| && s[i] == m && r[i] == 0;
    r
  }

  /** `y -= y.min()`: the tensor of labels is updated in place, all positions at once. */
  method ShiftLabels(y: array<int>)
    requires y.Length > 0
    modifies y
    ensures y[..] == Shifted(old(y[..]))
  {
    var m := Min(y[..]);
    forall k | 0 <= k < y.Length {
      y[k] := y[k] - m;
    }
  }

  /** The shift changes no difference between two labels, hence no comparison between them. */
  lemma ShiftKeepsDifferences(s: seq<int>, i: int, j: int)
    requires |s| > 0 && 0 <= i < |s| && 0 <= j < |s|
    ensures Shifted(s)[i] - Shifted(s)[j] == s[i] - s[j]
    ensures Shifted(s)[i] < Shifted(s)[j] <==> s[i] < s[j]
  {
  }

  /** Shifting labels that already start at 0 leaves them alone, so the shift is idempotent. */
  lemma ShiftZeroBased(s: seq<int>)
    requires 0 in s && forall k :: 0 <= k < |s| ==> s[k] >= 0
    ensures Shifted(s) == s
  {
    assert Min(s) == 0;
  }

  lemma ShiftIdempotent(s: seq<int>)
    requires |s| > 0
    ensures Shifted(Shifted(s)) == Shifted(s)
  {
    ShiftZeroBased(Shifted(s));
  }

  /** Labels that all lie in [lo, hi) land in [0, hi - lo) once shifted. */
  lemma ShiftBounds(s: seq<int>, lo: int, hi: int)
    requires |s| > 0
    requires forall k :: 0 <= k < |s| ==> lo <= s[k] < hi
    ensures forall k :: 0 <= k < |s| ==> 0 <= Shifted(s)[k] < hi - lo
  {
    assert lo <= Min(s);
  }

  /** A batch that passed `my_collate(nSeg)` keeps its shifted labels in [0, nSeg). */
  lemma CollatedShiftBelowNSeg<I>(batch: seq<Item<I>>, nSeg: int)
    requires DefaultCollate(Keep(batch, 0, nSeg)).Ok?
    ensures var ys := DefaultCollate(Keep(batch, 0, nSeg)).value.labels;
            forall k :: 0 <= k < |ys| ==> 0 <= Shifted(ys)[k] < nSeg
  {
    var ys := DefaultCollate(Keep(batch, 0, nSeg)).value.labels;
    ShiftBounds(ys, 0, nSeg);
  }

  /**
   * A batch that passed `my_collate_rev(nSeg)` has shifted labels in [0, 10 - nSeg);
   * with the default nSeg = 8 they are 0 or 1.
   */
  lemma CollatedRevShiftBelow<I>(batch: seq<Item<I>>, nSeg: int)
    requires DefaultCollate(Keep(batch, nSeg, 10)).Ok?
    ensures var ys := DefaultCollate(Keep(batch, nSeg, 10)).value.labels;
            forall k :: 0 <= k < |ys| ==> 0 <= Shifted(ys)[k] < 10 - nSeg
  {
    var ys := DefaultCollate(Keep(batch, nSeg, 10)).value.labels;
    ShiftBounds(ys, nSeg, 10);
  }

  lemma CollatedRevDefaultShift<I>(batch: seq<Item<I>>)
    requires DefaultCollate(Keep(batch, 8, 10)).Ok?
    ensures var ys := DefaultCollate(Keep(batch, 8, 10)).value.labels;
            forall k :: 0 <= k < |ys| ==> Shifted(ys)[k] in {0, 1}
  {
    CollatedRevShiftBelow(batch, 8);
  }
}
