/**
 * The iteration and epoch accounting of `IVAE_wrapper` (models/ivae/IVAE_wrapper.py).
 *
 * The loader yields `L = len(train_loader)` batches per epoch. The iteration counter `it`
 * grows by one per batch but is compared with `max_iter` only at the top of the outer
 * loop, so training always runs whole epochs. The negated ELBO of the batch processed as
 * iteration i is `negElbo(i)`, an opaque function standing for the model, the batch drawn
 * and the optimizer state. The final forward pass on the whole dataset is the parameter
 * `forward`, returning (decoder params, encoder params, z, prior params).
 */
module IvaeTraining {
  import opened Results
  import opened Arith

  /** `max_iter // len(train_loader)` on an empty loader raises ZeroDivisionError. */
  datatype TrainError = EmptyLoader

  /** What the training loop did, as seen from the optimizer and the scheduler. */
  datatype Accounting = Accounting(
    it: int,                    // the final iteration counter
    maxEpochs: int,             // max_epochs = max_iter // L + 1
    epochIndices: seq<int>,     // the value of `epoch` at the top of each epoch run
    optimizerSteps: nat,        // calls of optimizer.step()
    schedulerMetrics: seq<real> // the argument of each scheduler.step() call, in order
  )

  /** The value returned by `IVAE_wrapper`: (z, model, params), the model left abstract. */
  datatype Output<P, Z> = Output(z: Z, params: map<string, P>, accounting: Accounting)

  /** The sum of the negated ELBOs of the n batches after iteration `base`. */
  function EpochSum(negElbo: nat -> real, base: nat, n: nat): real {
    if n == 0 then 0.0 else EpochSum(negElbo, base, n - 1) + negElbo(base + n)
  }

  /** `elbo_train` at the end of epoch e (0-based): the mean negated ELBO over its L batches. */
  function EpochMean(negElbo: nat -> real, L: nat, e: nat): real
    requires L > 0
  {
    EpochSum(negElbo, e * L, L) / (L as real)
  }

  /** One pass over the loader: one optimizer step per batch, `elbo_train` summed then divided by L. */
  method TrainEpoch(negElbo: nat -> real, L: nat, it0: nat, steps0: nat)
    returns (it: nat, steps: nat, elboTrain: real)
    requires L > 0
    ensures it == it0 + L
    ensures steps == steps0 + L
    ensures elboTrain == EpochSum(negElbo, it0, L) / (L as real)
  {
    it := it0;
    steps := steps0;
    elboTrain := 0.0;
    for b := 0 to L
      invariant it == it0 + b
      invariant steps == steps0 + b
      invariant elboTrain == EpochSum(negElbo, it0, b)
    {
      it := it + 1;
      elboTrain := elboTrain + negElbo(it);
      steps := steps + 1;
    }
    elboTrain := elboTrain / (L as real);
  }

  /** What the loop of `IVAE_wrapper` leaves behind, for a loader of L batches. */
  predicate AccountingMatches(a: Accounting, L: nat, maxIter: int, negElbo: nat -> real)
    requires L > 0
  {
    var epochs := CeilDiv(maxIter, L);
    && a.it == epochs * L
    && a.optimizerSteps == a.it
    && a.maxEpochs == maxIter / L + 1
    && |a.epochIndices| == epochs
    && (forall k :: 0 <= k < epochs ==> a.epochIndices[k] == k + 1)
    && |a.schedulerMetrics| == epochs
    && (forall k :: 0 <= k < epochs ==> a.schedulerMetrics[k] == EpochMean(negElbo, L, k))
  }

  /** The `while it < max_iter` loop, with `max_epochs` computed before it. */
  method TrainLoop(L: nat, maxIter: int, negElbo: nat -> real) returns (a: Accounting)
    requires L > 0
    ensures AccountingMatches(a, L, maxIter, negElbo)
    ensures a.it >= maxIter && (maxIter > 0 ==> a.it - maxIter < L)
  {
    var maxEpochs := maxIter / L + 1;

    var it: nat := 0;
    var optimizerSteps: nat := 0;
    var epochIndices: seq<int> := [];
    var metrics: seq<real> := [];
    ghost var e: nat := 0;
    while it < maxIter
      invariant it == e * L
      invariant e == 0 || (e - 1) * L < maxIter
      invariant optimizerSteps == it
      invariant |epochIndices| == e && forall k :: 0 <= k < e ==> epochIndices[k] == k + 1
      invariant |metrics| == e && forall k :: 0 <= k < e ==> metrics[k] == EpochMean(negElbo, L, k)
      decreases maxIter - it
    {
      EpochStart(e, L, 0);
      var epoch := it / L + 1;
      assert epoch == e + 1;
      epochIndices := epochIndices + [epoch];
      var elboTrain;
      it, optimizerSteps, elboTrain := TrainEpoch(negElbo, L, it, optimizerSteps);
      assert elboTrain == EpochMean(negElbo, L, e);
      metrics := metrics + [elboTrain];
      assert (e + 1) * L == e * L + L;
      e := e + 1;
    }
    if maxIter > 0 {
      CeilDivUnique(maxIter, L, e);
    }
    WholeEpochs(maxIter, L);
    a := Accounting(it, maxEpochs, epochIndices, optimizerSteps, metrics);
  }

  /** `IVAE_wrapper` with the loader length L and the losses and final forward pass as parameters. */
  method IvaeWrapper<D, P, Z>(data: D, L: nat, maxIter: int, negElbo: nat -> real,
                              forward: D -> (P, P, Z, P))
    returns (r: Result<Output<P, Z>, TrainError>)
    ensures r.Err? <==> L == 0
    ensures r.Ok? ==> AccountingMatches(r.value.accounting, L, maxIter, negElbo)
    ensures r.Ok? ==>
              var (dec, enc, z, prior) := forward(data);
              && r.value.z == z
              && r.value.params.Keys == {"decoder", "encoder", "prior"}
              && r.value.params["decoder"] == dec
              && r.value.params["encoder"] == enc
              && r.value.params["prior"] == prior
  {
    if L == 0 {
      return Err(EmptyLoader);
    }
    var accounting := TrainLoop(L, maxIter, negElbo);
    var (decoderParams, encoderParams, z, priorParams) := forward(data);
    var params := map["decoder" := decoderParams, "encoder" := encoderParams, "prior" := priorParams];
    return Ok(Output(z, params, accounting));
  }

  /** Training ends at the first epoch boundary at or past `max_iter`: it overshoots by less than one epoch. */
  lemma WholeEpochs(maxIter: int, L: nat)
    requires L > 0
    ensures CeilDiv(maxIter, L) * L >= maxIter
    ensures maxIter > 0 ==> CeilDiv(maxIter, L) * L - maxIter < L
    ensures (CeilDiv(maxIter, L) * L) % L == 0
  {
    MulMod(CeilDiv(maxIter, L), L);
    if maxIter > 0 {
      var e := CeilDiv(maxIter, L);
      assert (e - 1) * L == e * L - L;
    }
  }

  /**
   * For max_iter >= -L the epochs run never exceed `max_epochs = max_iter // L + 1`; for a
   * positive max_iter, `max_epochs` counts one epoch too many exactly when L divides max_iter.
   */
  lemma EpochsVersusMaxEpochs(maxIter: int, L: nat)
    requires L > 0
    ensures maxIter + L >= 0 ==> CeilDiv(maxIter, L) <= maxIter / L + 1
    ensures maxIter > 0 ==>
              maxIter / L + 1 == CeilDiv(maxIter, L) + (if maxIter % L == 0 then 1 else 0)
  {
    if maxIter > 0 {
      var q, rem := maxIter / L, maxIter % L;
      assert q * L + rem == maxIter;
      if rem == 0 {
        assert (q - 1) * L == q * L - L;
        CeilDivUnique(maxIter, L, q);
      } else {
        assert (q + 1) * L == q * L + L;
        CeilDivUnique(maxIter, L, q + 1);
      }
    } else if maxIter + L >= 0 {
      DivAtLeastMinusOne(maxIter, L);
    }
  }

  /** If every batch of an epoch has the same negated ELBO c, the scheduler is given c. */
  lemma {:induction false} ConstantEpochSum(negElbo: nat -> real, base: nat, n: nat, c: real)
    requires forall i :: base < i <= base + n ==> negElbo(i) == c
    ensures EpochSum(negElbo, base, n) == (n as real) * c
  {
    if n > 0 {
      ConstantEpochSum(negElbo, base, n - 1, c);
    }
  }

  lemma ConstantEpochMean(negElbo: nat -> real, L: nat, e: nat, c: real)
    requires L > 0
    requires forall i :: e * L < i <= e * L + L ==> negElbo(i) == c
    ensures EpochMean(negElbo, L, e) == c
  {
    ConstantEpochSum(negElbo, e * L, L, c);
  }
}
