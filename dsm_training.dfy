/**
 * The step / stop / checkpoint logic of `mnist_runner.train`
 * (runners/mnist_exp_runner.py), over abstract batches.
 *
 * An epoch is `B` batches (the loader's length, the same every epoch). Every batch
 * advances the global `step` by one and makes one optimizer update; the loss of the batch
 * processed at step s is `lossAt(s)`, an opaque function standing for the network, the
 * dequantisation, the label shift and the conditional DSM loss. After the update the loss
 * is appended to `loss_vals` (emptied at each epoch start); then `step >= n_iters` ends
 * training with `return 0`, and otherwise `step % snapshot_freq == 0` triggers a checkpoint.
 */
module DsmTraining {
  import opened Results
  import opened Dispatch
  import opened Arith

  /** The fields of the run arguments and of the configuration that `train` reads. */
  datatype TrainConfig = TrainConfig(
    dataset: string,
    optim: OptimConfig,
    nEpochs: int,
    nIters: int,
    snapshotFreq: int,
    storeLoss: bool,
    subsetSize: int,
    seed: int)

  datatype TrainError =
    | Config(cause: ConfigError)  // raised before the first batch
    | SnapshotModuloByZero        // `step % snapshot_freq` with snapshot_freq == 0

  /** How training ended: `return 0` at the iteration budget, or the epochs ran out. */
  datatype Stop = HardStop | EpochsExhausted

  /** A file written at a given step. */
  datatype Write = Write(step: nat, artefact: Artefact)

  /** `steps` is the final value of `step`, which is also the number of optimizer updates. */
  datatype Run = Run(stop: Stop, steps: nat, writes: seq<Write>)

  predicate ConfigOk(cfg: TrainConfig) {
    ParseDataset(cfg.dataset).Ok? && GetOptimizer(cfg.optim).Ok?
  }

  /** `range(n_epochs)` runs no epoch for a negative count. */
  function EpochCount(nEpochs: int): nat {
    if nEpochs < 0 then 0 else nEpochs
  }

  /** The hard stop fires iff some processed step reaches `n_iters`. */
  predicate HardStops(nIters: int, total: nat) {
    total >= 1 && nIters <= total
  }

  /**
   * The final step: the first step s >= 1 with s >= n_iters when there is one among the
   * `total` batches, else `total`. One update happens even for n_iters <= 1.
   */
  function StepsRun(nIters: int, total: nat): (r: nat)
    ensures r <= total
    ensures total >= 1 ==> r >= 1
    ensures nIters >= 1 ==> r == if nIters <= total then nIters else total
    ensures HardStops(nIters, total) ==> nIters <= r
  {
    if HardStops(nIters, total) then (if nIters < 1 then 1 else nIters) else total
  }

  /** A checkpoint is due at step s when the hard stop has not fired and s is a multiple of the frequency. */
  predicate Due(cfg: TrainConfig, s: nat) {
    cfg.snapshotFreq != 0 && s < cfg.nIters && s % cfg.snapshotFreq == 0
  }

  /** The number of steps completed before the epoch that holds step s >= 1 began. */
  function EpochBase(B: nat, s: nat): (base: nat)
    requires B > 0 && s >= 1
    ensures base < s <= base + B
    ensures base % B == 0
  {
    var e := (s - 1) / B;
    MulMonotone(0, e, B);
    assert (e + 1) * B == e * B + B;
    MulMod(e, B);
    e * B
  }

  /** `loss_vals` at step s >= 1: the losses of the steps of s's epoch, up to s. */
  function EpochLosses(lossAt: nat -> real, B: nat, s: nat): (r: seq<real>)
    requires B > 0 && s >= 1
    ensures 1 <= |r| <= B
  {
    var base := EpochBase(B, s);
    seq(s - base, j requires 0 <= j < s - base => lossAt(base + j + 1))
  }

  function Stamp(s: nat, arts: seq<Artefact>): (r: seq<Write>)
    ensures |r| == |arts|
    ensures forall k :: 0 <= k < |r| ==> r[k] == Write(s, arts[k])
  {
    seq(|arts|, k requires 0 <= k < |arts| => Write(s, arts[k]))
  }

  /** All files written during steps 1 .. n, in the order they are written. */
  function WritesUpTo(cfg: TrainConfig, d: DatasetKind, B: nat, lossAt: nat -> real, n: nat): seq<Write>
    requires n == 0 || B > 0
  {
    if n == 0 then []
    else
      WritesUpTo(cfg, d, B, lossAt, n - 1)
      + if Due(cfg, n)
        then Stamp(n, CheckpointWrites(d, cfg.storeLoss, n, EpochLosses(lossAt, B, n), cfg.subsetSize, cfg.seed))
        else []
  }

  /** The outcome at the step where `step >= n_iters` first holds. */
  lemma HardStopAt(nIters: int, total: nat, step: nat)
    requires 1 <= step <= total && nIters <= step
    requires step - 1 == 0 || step - 1 < nIters
    ensures HardStops(nIters, total) && StepsRun(nIters, total) == step
  {
  }

  /** The outcome when every batch of every epoch was processed. */
  lemma ExhaustedAt(nIters: int, total: nat)
    requires total == 0 || total < nIters
    ensures !HardStops(nIters, total) && StepsRun(nIters, total) == total
  {
  }

  /** `loss_vals` at step s holds the losses of s's epoch so far. */
  lemma LossValsAt(lossAt: nat -> real, B: nat, e: nat, i: nat, lossVals: seq<real>)
    requires B > 0 && i < B
    requires |lossVals| == i + 1
    requires forall j :: 0 <= j <= i ==> lossVals[j] == lossAt(e * B + j + 1)
    ensures lossVals == EpochLosses(lossAt, B, e * B + i + 1)
  {
    EpochStart(e, B, i);
    assert EpochBase(B, e * B + i + 1) == e * B;
  }

  /** What a finished run looks like: its final step, how it stopped and what it wrote. */
  predicate RunMatches(cfg: TrainConfig, d: DatasetKind, B: nat, lossAt: nat -> real, total: nat, run: Run) {
    && run.steps == StepsRun(cfg.nIters, total)
    && (run.stop == HardStop <==> HardStops(cfg.nIters, total))
    && (run.steps == 0 || B > 0)
    && run.writes == WritesUpTo(cfg, d, B, lossAt, run.steps)
  }

  /** The loop state at an epoch boundary: no stop has fired and no modulo by zero has been taken. */
  predicate Between(cfg: TrainConfig, d: DatasetKind, B: nat, lossAt: nat -> real, step: nat, writes: seq<Write>) {
    && (step == 0 || step < cfg.nIters)
    && (cfg.snapshotFreq == 0 ==> step == 0)
    && (step == 0 || B > 0)
    && writes == WritesUpTo(cfg, d, B, lossAt, step)
  }

  /**
   * One pass of the batch loop of `train` (one epoch), starting from `step` with an empty
   * `loss_vals`. `stopped` carries the value of `train` if the epoch ended it.
   */
  method TrainEpoch(cfg: TrainConfig, d: DatasetKind, B: nat, lossAt: nat -> real, ghost epoch: nat,
                    ghost total: nat, step0: nat, writes0: seq<Write>)
    returns (step: nat, writes: seq<Write>, stopped: Option<Result<Run, TrainError>>)
    requires step0 == epoch * B && step0 + B <= total
    requires Between(cfg, d, B, lossAt, step0, writes0)
    ensures stopped.None? ==> step == step0 + B && Between(cfg, d, B, lossAt, step, writes)
    ensures stopped.Some? && stopped.value.Ok? ==>
              && RunMatches(cfg, d, B, lossAt, total, stopped.value.value)
              && (cfg.snapshotFreq == 0 ==> cfg.nIters <= 1)
    ensures stopped.Some? && stopped.value.Err? ==>
              && stopped.value.error == SnapshotModuloByZero
              && cfg.snapshotFreq == 0 && total >= 1 && cfg.nIters > 1
  {
    step, writes, stopped := step0, writes0, None;
    var lossVals: seq<real> := [];
    for i := 0 to B
      invariant step == step0 + i
      invariant Between(cfg, d, B, lossAt, step, writes)
      invariant |lossVals| == i
      invariant forall j :: 0 <= j < i ==> lossVals[j] == lossAt(step0 + j + 1)
      invariant stopped.None?
    {
      step, writes, lossVals, stopped := TrainStep(cfg, d, B, lossAt, epoch, total, i, step, writes, lossVals);
      if stopped.Some? {
        return;
      }
    }
  }

  /**
   * One batch of `train`: count the step, record its loss, stop at `n_iters`, then write
   * a checkpoint when the step is a multiple of `snapshot_freq`.
   */
  method TrainStep(cfg: TrainConfig, d: DatasetKind, B: nat, lossAt: nat -> real, ghost epoch: nat,
                   ghost total: nat, ghost i: nat, step0: nat, writes0: seq<Write>, lossVals0: seq<real>)
    returns (step: nat, writes: seq<Write>, lossVals: seq<real>, stopped: Option<Result<Run, TrainError>>)
    requires i < B && step0 == epoch * B + i && epoch * B + B <= total
    requires Between(cfg, d, B, lossAt, step0, writes0)
    requires |lossVals0| == i && forall j :: 0 <= j < i ==> lossVals0[j] == lossAt(epoch * B + j + 1)
    ensures step == step0 + 1
    ensures |lossVals| == i + 1 && forall j :: 0 <= j <= i ==> lossVals[j] == lossAt(epoch * B + j + 1)
    ensures stopped.None? ==> Between(cfg, d, B, lossAt, step, writes)
    ensures stopped.Some? && stopped.value.Ok? ==>
              && RunMatches(cfg, d, B, lossAt, total, stopped.value.value)
              && (cfg.snapshotFreq == 0 ==> cfg.nIters <= 1)
    ensures stopped.Some? && stopped.value.Err? ==>
              && stopped.value.error == SnapshotModuloByZero
              && cfg.snapshotFreq == 0 && total >= 1 && cfg.nIters > 1
  {
    step, writes, stopped := step0 + 1, writes0, None;
    lossVals := lossVals0 + [lossAt(step)];
    WritesStep(cfg, d, B, lossAt, step);
    if step >= cfg.nIters {
      HardStopAt(cfg.nIters, total, step);
      stopped := Some(Ok(Run(HardStop, step, writes)));
      return;
    }
    if cfg.snapshotFreq == 0 {
      stopped := Some(Err(SnapshotModuloByZero));
      return;
    }
    if step % cfg.snapshotFreq == 0 {
      writes := Checkpoint(cfg, d, B, lossAt, epoch, i, step, writes, lossVals);
    }
  }

  /** The snapshot branch of `train`: the files of a due step, appended to those written so far. */
  method Checkpoint(cfg: TrainConfig, d: DatasetKind, B: nat, lossAt: nat -> real, ghost epoch: nat,
                    ghost i: nat, step: nat, writes0: seq<Write>, lossVals: seq<real>)
    returns (writes: seq<Write>)
    requires i < B && step == epoch * B + i + 1 && Due(cfg, step)
    requires writes0 == WritesUpTo(cfg, d, B, lossAt, step - 1)
    requires |lossVals| == i + 1 && forall j :: 0 <= j <= i ==> lossVals[j] == lossAt(epoch * B + j + 1)
    ensures writes == WritesUpTo(cfg, d, B, lossAt, step)
  {
    LossValsAt(lossAt, B, epoch, i, lossVals);
    WritesStep(cfg, d, B, lossAt, step);
    writes := writes0 + Stamp(step, CheckpointWrites(d, cfg.storeLoss, step, lossVals,
                                                     cfg.subsetSize, cfg.seed));
  }

  /** The files written up to step n are those up to step n - 1 and those of step n. */
  lemma WritesStep(cfg: TrainConfig, d: DatasetKind, B: nat, lossAt: nat -> real, n: nat)
    requires B > 0 && n >= 1
    ensures WritesUpTo(cfg, d, B, lossAt, n) == WritesUpTo(cfg, d, B, lossAt, n - 1)
              + if Due(cfg, n)
                then Stamp(n, CheckpointWrites(d, cfg.storeLoss, n, EpochLosses(lossAt, B, n), cfg.subsetSize, cfg.seed))
                else []
  {
  }

  /** `mnist_runner.train` over `B` batches per epoch. */
  method Train(cfg: TrainConfig, B: nat, lossAt: nat -> real) returns (r: Result<Run, TrainError>)
    ensures ParseDataset(cfg.dataset).Err? ==> r == Err(Config(ParseDataset(cfg.dataset).error))
    ensures ParseDataset(cfg.dataset).Ok? && GetOptimizer(cfg.optim).Err? ==>
              r == Err(Config(GetOptimizer(cfg.optim).error))
    ensures ConfigOk(cfg) ==>
              (r.Err? <==> cfg.snapshotFreq == 0 && EpochCount(cfg.nEpochs) * B >= 1 && cfg.nIters > 1)
    ensures ConfigOk(cfg) && r.Err? ==> r.error == SnapshotModuloByZero
    ensures r.Ok? ==> ConfigOk(cfg)
    ensures r.Ok? ==>
              RunMatches(cfg, ParseDataset(cfg.dataset).value, B, lossAt, EpochCount(cfg.nEpochs) * B, r.value)
  {
    var parsed := ParseDataset(cfg.dataset);
    if parsed.Err? {
      return Err(Config(parsed.error));
    }
    var kind := parsed.value;
    var optimizer := GetOptimizer(cfg.optim);
    if optimizer.Err? {
      return Err(Config(optimizer.error));
    }
    var epochs := EpochCount(cfg.nEpochs);
    ghost var total := epochs * B;

    var step: nat := 0;
    var writes: seq<Write> := [];
    for epoch := 0 to epochs
      invariant step == epoch * B <= total
      invariant Between(cfg, kind, B, lossAt, step, writes)
    {
      EpochWithinTotal(epoch, epochs, B);
      var stopped;
      step, writes, stopped := TrainEpoch(cfg, kind, B, lossAt, epoch, total, step, writes);
      if stopped.Some? {
        return stopped.value;
      }
      assert (epoch + 1) * B == epoch * B + B;
    }
    ExhaustedAt(cfg.nIters, total);
    return Ok(Run(EpochsExhausted, step, writes));
  }

  /**
   * Files are written at step s exactly when a checkpoint is due at s; in particular never
   * at the step that reaches `n_iters`, since `return 0` comes before the snapshot test.
   */
  lemma {:induction false} WritesAtStep(cfg: TrainConfig, d: DatasetKind, B: nat, lossAt: nat -> real,
                                        n: nat, s: nat)
    requires n == 0 || B > 0
    ensures (exists w :: w in WritesUpTo(cfg, d, B, lossAt, n) && w.step == s) <==> 1 <= s <= n && Due(cfg, s)
    ensures 1 <= s <= n && Due(cfg, s) ==>
              Write(s, NumberedCheckpoint(s, CheckpointStates)) in WritesUpTo(cfg, d, B, lossAt, n)
  {
    if n > 0 {
      WritesAtStep(cfg, d, B, lossAt, n - 1, s);
      var prev := WritesUpTo(cfg, d, B, lossAt, n - 1);
      if Due(cfg, n) {
        var stamped := Stamp(n, CheckpointWrites(d, cfg.storeLoss, n, EpochLosses(lossAt, B, n),
                                                 cfg.subsetSize, cfg.seed));
        StampedAt(n, CheckpointWrites(d, cfg.storeLoss, n, EpochLosses(lossAt, B, n), cfg.subsetSize, cfg.seed));
        assert WritesUpTo(cfg, d, B, lossAt, n) == prev + stamped;
      } else {
        assert WritesUpTo(cfg, d, B, lossAt, n) == prev;
      }
    }
  }

  /** The files written at one due step all carry that step, and include its numbered checkpoint. */
  lemma StampedAt(n: nat, arts: seq<Artefact>)
    requires NumberedCheckpoint(n, CheckpointStates) in arts
    ensures forall w :: w in Stamp(n, arts) ==> w.step == n
    ensures Write(n, NumberedCheckpoint(n, CheckpointStates)) in Stamp(n, arts)
  {
    var stamped := Stamp(n, arts);
    var k :| 0 <= k < |arts| && arts[k] == NumberedCheckpoint(n, CheckpointStates);
    assert stamped[k] == Write(n, NumberedCheckpoint(n, CheckpointStates));
  }

  /** The writes carry non-decreasing steps, none beyond n. */
  predicate StepOrdered(ws: seq<Write>, n: nat) {
    forall i, j :: 0 <= i < j < |ws| ==> ws[i].step <= ws[j].step <= n
  }

  lemma OrderedAppend(prev: seq<Write>, stamped: seq<Write>, n: nat)
    requires n >= 1 && StepOrdered(prev, n - 1)
    requires forall w :: w in prev ==> w.step <= n - 1
    requires forall k :: 0 <= k < |stamped| ==> stamped[k].step == n
    ensures StepOrdered(prev + stamped, n)
  {
    var ws := prev + stamped;
    forall i, j | 0 <= i < j < |ws| ensures ws[i].step <= ws[j].step <= n {
      if j < |prev| {
        assert ws[i] == prev[i] && ws[j] == prev[j];
      } else if i < |prev| {
        assert ws[i] == prev[i] && prev[i] in prev;
        assert ws[j] == stamped[j - |prev|];
      } else {
        assert ws[i] == stamped[i - |prev|] && ws[j] == stamped[j - |prev|];
      }
    }
  }

  lemma {:induction false} WritesBounded(cfg: TrainConfig, d: DatasetKind, B: nat, lossAt: nat -> real, n: nat)
    requires n == 0 || B > 0
    ensures forall w :: w in WritesUpTo(cfg, d, B, lossAt, n) ==> 1 <= w.step <= n
  {
    if n > 0 {
      WritesBounded(cfg, d, B, lossAt, n - 1);
    }
  }

  /** Files are written in step order and only at steps already processed. */
  lemma {:induction false} WritesOrdered(cfg: TrainConfig, d: DatasetKind, B: nat, lossAt: nat -> real, n: nat)
    requires n == 0 || B > 0
    ensures StepOrdered(WritesUpTo(cfg, d, B, lossAt, n), n)
  {
    if n > 0 {
      WritesOrdered(cfg, d, B, lossAt, n - 1);
      var prev := WritesUpTo(cfg, d, B, lossAt, n - 1);
      WritesBounded(cfg, d, B, lossAt, n - 1);
      var stamped := if Due(cfg, n)
        then Stamp(n, CheckpointWrites(d, cfg.storeLoss, n, EpochLosses(lossAt, B, n), cfg.subsetSize, cfg.seed))
        else [];
      assert WritesUpTo(cfg, d, B, lossAt, n) == prev + stamped;
      OrderedAppend(prev, stamped, n);
    }
  }

  /**
   * A loss list written at step `w.step` holds 1 .. B values, those of the steps since the
   * start of the current epoch, in step order.
   */
  ghost predicate LossListFits(B: nat, lossAt: nat -> real, w: Write)
    requires B > 0 && w.artefact.LossList?
  {
    var ls := w.artefact.losses;
    && 1 <= |ls| <= B && |ls| <= w.step
    && w.step - |ls| == EpochBase(B, w.step)
    && forall j :: 0 <= j < |ls| ==> ls[j] == lossAt(w.step - |ls| + 1 + j)
  }

  /**
   * Because `loss_vals` is emptied at every epoch start, a pickled loss list holds only the
   * current epoch's losses: those of the steps from the first step of that epoch up to the
   * checkpoint step, in order.
   */
  lemma {:induction false} LossListsFromCurrentEpoch(cfg: TrainConfig, d: DatasetKind, B: nat,
                                                     lossAt: nat -> real, n: nat)
    requires B > 0
    ensures forall w :: w in WritesUpTo(cfg, d, B, lossAt, n) && w.artefact.LossList? ==>
              LossListFits(B, lossAt, w)
  {
    if n > 0 {
      LossListsFromCurrentEpoch(cfg, d, B, lossAt, n - 1);
      var prev := WritesUpTo(cfg, d, B, lossAt, n - 1);
      if Due(cfg, n) {
        var stamped := Stamp(n, CheckpointWrites(d, cfg.storeLoss, n, EpochLosses(lossAt, B, n),
                                                 cfg.subsetSize, cfg.seed));
        assert WritesUpTo(cfg, d, B, lossAt, n) == prev + stamped;
        forall w | w in stamped && w.artefact.LossList?
          ensures LossListFits(B, lossAt, w)
        {
          StampedLossList(cfg, d, B, lossAt, n, w);
        }
      }
    }
  }

  /** The loss list written at a due step holds the losses of that step's epoch so far. */
  lemma StampedLossList(cfg: TrainConfig, d: DatasetKind, B: nat, lossAt: nat -> real, n: nat, w: Write)
    requires B > 0 && n >= 1
    requires w in Stamp(n, CheckpointWrites(d, cfg.storeLoss, n, EpochLosses(lossAt, B, n),
                                            cfg.subsetSize, cfg.seed))
    requires w.artefact.LossList?
    ensures LossListFits(B, lossAt, w)
  {
    var lossVals := EpochLosses(lossAt, B, n);
    var arts := CheckpointWrites(d, cfg.storeLoss, n, lossVals, cfg.subsetSize, cfg.seed);
    var stamped := Stamp(n, arts);
    var k :| 0 <= k < |stamped| && stamped[k] == w;
    assert arts[k] in arts;
    assert w.step == n && w.artefact.losses == lossVals;
    assert forall j :: 0 <= j < |lossVals| ==> lossVals[j] == lossAt(n - |lossVals| + 1 + j);
  }
}
