/**
 * `mnist_runner.Langevin_dynamics` (runners/mnist_exp_runner.py) over real numbers.
 *
 * An image batch is a flat sequence of reals. The score network is a parameter
 * `score` that maps a state to a gradient of the same size; the Gaussian noise of each
 * step, already scaled by sqrt(2 * step_lr), is the parameter `noise`.
 */
module Langevin {

  /** `torch.clamp(v, 0.0, 1.0)` on one entry. */
  function Clamp(v: real): (r: real)
    ensures 0.0 <= r <= 1.0
    ensures 0.0 <= v <= 1.0 ==> r == v
    ensures v < 0.0 ==> r == 0.0
    ensures v > 1.0 ==> r == 1.0
  {
    if v < 0.0 then 0.0 else if v > 1.0 then 1.0 else v
  }

  /** `torch.clamp(x, 0.0, 1.0)`: entrywise, the result lies in the unit cube. */
  function ClampAll(x: seq<real>): (r: seq<real>)
    ensures |r| == |x|
    ensures forall k :: 0 <= k < |r| ==> 0.0 <= r[k] <= 1.0
    ensures forall k :: 0 <= k < |r| && 0.0 <= x[k] <= 1.0 ==> r[k] == x[k]
    ensures forall k :: 0 <= k < |r| && x[k] < 0.0 ==> r[k] == 0.0
    ensures forall k :: 0 <= k < |r| && x[k] > 1.0 ==> r[k] == 1.0
  {
    seq(|x|, k requires 0 <= k < |x| => Clamp(x[k]))
  }

  /** `x_mod + step_lr * grad + noise`. */
  function Update(x: seq<real>, grad: seq<real>, noise: seq<real>, stepLr: real): (r: seq<real>)
    requires |grad| == |x| && |noise| == |x|
    ensures |r| == |x|
  {
    seq(|x|, k requires 0 <= k < |x| => x[k] + stepLr * grad[k] + noise[k])
  }

  /** The score network returns a gradient shaped like its input. */
  ghost predicate ShapePreserving(score: seq<real> -> seq<real>) {
    forall v :: |score(v)| == |v|
  }

  /** There is a noise draw of the right size for each of the first n steps. */
  ghost predicate NoiseFits(noise: seq<seq<real>>, n: nat, dim: nat) {
    n <= |noise| && forall k :: 0 <= k < n ==> |noise[k]| == dim
  }

  /** The state after k updates from x0. */
  ghost function State(x0: seq<real>, score: seq<real> -> seq<real>, noise: seq<seq<real>>,
                       stepLr: real, k: nat): (r: seq<real>)
    requires ShapePreserving(score) && NoiseFits(noise, k, |x0|)
    ensures |r| == |x0|
  {
    if k == 0 then x0
    else
      var prev := State(x0, score, noise, stepLr, k - 1);
      Update(prev, score(prev), noise[k - 1], stepLr)
  }

  /** `range(n_steps)` is empty for a negative count. */
  function StepCount(nSteps: int): nat {
    if nSteps < 0 then 0 else nSteps
  }

  /** The first n snapshots: the clamped states after 0, 1, ..., n - 1 updates. */
  ghost function Snapshots(x0: seq<real>, score: seq<real> -> seq<real>, noise: seq<seq<real>>,
                           stepLr: real, n: nat): seq<seq<real>>
    requires ShapePreserving(score) && NoiseFits(noise, n, |x0|)
  {
    if n == 0 then []
    else Snapshots(x0, score, noise, stepLr, n - 1) + [ClampAll(State(x0, score, noise, stepLr, n - 1))]
  }

  lemma {:induction false} SnapshotAt(x0: seq<real>, score: seq<real> -> seq<real>, noise: seq<seq<real>>,
                                      stepLr: real, n: nat, k: nat)
    requires ShapePreserving(score) && NoiseFits(noise, n, |x0|)
    requires k < n
    ensures |Snapshots(x0, score, noise, stepLr, n)| == n
    ensures Snapshots(x0, score, noise, stepLr, n)[k] == ClampAll(State(x0, score, noise, stepLr, k))
  {
    if k < n - 1 {
      SnapshotAt(x0, score, noise, stepLr, n - 1, k);
    } else if n > 1 {
      SnapshotAt(x0, score, noise, stepLr, n - 1, 0);
    }
  }

  /**
   * `Langevin_dynamics`: one snapshot per step, each taken (clamped to [0, 1]) BEFORE that
   * step's update, so snapshot k is the clamped state after k updates and the state after
   * the last update is never recorded.
   */
  method LangevinDynamics(x0: seq<real>, score: seq<real> -> seq<real>, nSteps: int, stepLr: real,
                          noise: seq<seq<real>>)
    returns (images: seq<seq<real>>)
    requires ShapePreserving(score)
    requires NoiseFits(noise, StepCount(nSteps), |x0|)
    ensures |images| == StepCount(nSteps)
    ensures forall k :: 0 <= k < |images| ==> images[k] == ClampAll(State(x0, score, noise, stepLr, k))
    ensures forall k, j :: 0 <= k < |images| && 0 <= j < |images[k]| ==> 0.0 <= images[k][j] <= 1.0
    ensures images != [] ==> images[0] == ClampAll(x0)
  {
    var n := StepCount(nSteps);
    images := [];
    var x := x0;
    for i := 0 to n
      invariant x == State(x0, score, noise, stepLr, i)
      invariant images == Snapshots(x0, score, noise, stepLr, i)
    {
      images := images + [ClampAll(x)];
      var grad := score(x);
      x := Update(x, grad, noise[i], stepLr);
    }
    forall k | 0 <= k < n ensures |images| == n && images[k] == ClampAll(State(x0, score, noise, stepLr, k)) {
      SnapshotAt(x0, score, noise, stepLr, n, k);
    }
    if n == 0 {
      assert images == [];
    }
  }

  /** The score network that returns zero everywhere. */
  ghost predicate ZeroScore(score: seq<real> -> seq<real>) {
    forall v :: score(v) == seq(|v|, _ => 0.0)
  }

  /** The sum of the first k noise draws at entry j. */
  ghost function NoiseSum(noise: seq<seq<real>>, k: nat, j: nat): real
    requires k <= |noise| && forall i :: 0 <= i < k ==> j < |noise[i]|
  {
    if k == 0 then 0.0 else NoiseSum(noise, k - 1, j) + noise[k - 1][j]
  }

  /** With a zero score there is no drift: the state is the start plus the noise added so far. */
  lemma {:induction false} ZeroScoreNoDrift(x0: seq<real>, score: seq<real> -> seq<real>,
                                            noise: seq<seq<real>>, stepLr: real, k: nat, j: nat)
    requires ZeroScore(score)
    requires NoiseFits(noise, k, |x0|)
    requires j < |x0|
    ensures ShapePreserving(score)
    ensures State(x0, score, noise, stepLr, k)[j] == x0[j] + NoiseSum(noise, k, j)
  {
    assert ShapePreserving(score) by {
      forall v ensures |score(v)| == |v| {
        assert score(v) == seq(|v|, _ => 0.0);
      }
    }
    if k > 0 {
      ZeroScoreNoDrift(x0, score, noise, stepLr, k - 1, j);
      var prev := State(x0, score, noise, stepLr, k - 1);
      assert score(prev)[j] == 0.0;
    }
  }
}
