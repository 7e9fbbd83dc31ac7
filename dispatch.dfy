/**
 * Name-based selection in the conditional DSM runner (runners/mnist_exp_runner.py):
 * the optimizer chosen from `config.optim.optimizer`, the dataset kind chosen from
 * `config.data.dataset`, the training loader each kind gets, and the files one
 * checkpoint step writes for each kind.
 */
module Dispatch {
  import opened Results

  /** The configuration errors `train` raises before any batch is processed. */
  datatype ConfigError =
    | UnknownDataset(dataset: string)           // ValueError('Unknown config dataset ...')
    | OptimizerNotUnderstood(optimizer: string) // NotImplementedError('Optimizer ... not understood.')

  // ---------------------------------------------------------------- optimizer

  /** The fields of `config.optim` that `get_optimizer` reads. */
  datatype OptimConfig = OptimConfig(optimizer: string, lr: real, weightDecay: real, beta1: real, amsgrad: bool)

  /** The optimizer built, with the hyper-parameters it is given. */
  datatype Optimizer =
    | Adam(lr: real, weightDecay: real, beta1: real, beta2: real, amsgrad: bool)
    | RMSprop(lr: real, weightDecay: real)
    | Sgd(lr: real, momentum: real)

  /** The configuration name that selects each optimizer. */
  function OptimizerName(o: Optimizer): string {
    match o
    case Adam(_, _, _, _, _) => "Adam"
    case RMSprop(_, _) => "RMSProp"
    case Sgd(_, _) => "SGD"
  }

  /**
   * `get_optimizer`: exactly the names 'Adam', 'RMSProp' and 'SGD' are understood. Adam's
   * second moment decay is fixed at 0.999; SGD gets momentum 0.9 and no weight decay.
   */
  function GetOptimizer(cfg: OptimConfig): (r: Result<Optimizer, ConfigError>)
    ensures r.Ok? <==> cfg.optimizer in {"Adam", "RMSProp", "SGD"}
    ensures r.Err? ==> r.error == OptimizerNotUnderstood(cfg.optimizer)
    ensures r.Ok? ==> OptimizerName(r.value) == cfg.optimizer && r.value.lr == cfg.lr
    ensures r.Ok? && r.value.Adam? ==>
              r.value == Adam(cfg.lr, cfg.weightDecay, cfg.beta1, 0.999, cfg.amsgrad)
    ensures r.Ok? && r.value.RMSprop? ==> r.value.weightDecay == cfg.weightDecay
    ensures r.Ok? && r.value.Sgd? ==> r.value.momentum == 0.9
  {
    if cfg.optimizer == "Adam" then
      Ok(Adam(cfg.lr, cfg.weightDecay, cfg.beta1, 0.999, cfg.amsgrad))
    else if cfg.optimizer == "RMSProp" then
      Ok(RMSprop(cfg.lr, cfg.weightDecay))
    else if cfg.optimizer == "SGD" then
      Ok(Sgd(cfg.lr, 0.9))
    else
      Err(OptimizerNotUnderstood(cfg.optimizer))
  }

  /** Naming an optimizer in the configuration selects that optimizer. */
  lemma GetOptimizerByName(o: Optimizer, cfg: OptimConfig)
    requires cfg.optimizer == OptimizerName(o)
    ensures GetOptimizer(cfg).Ok?
    ensures GetOptimizer(cfg).value.Adam? == o.Adam?
    ensures GetOptimizer(cfg).value.RMSprop? == o.RMSprop?
    ensures GetOptimizer(cfg).value.Sgd? == o.Sgd?
  {
  }

  // ---------------------------------------------------------------- datasets

  datatype DatasetKind =
    | CIFAR10
    | MNIST
    | FashionMNIST
    | MNISTTransferBaseline
    | CIFAR10TransferBaseline
    | FashionMNISTTransferBaseline

  function DatasetName(d: DatasetKind): string {
    match d
    case CIFAR10 => "CIFAR10"
    case MNIST => "MNIST"
    case FashionMNIST => "FashionMNIST"
    case MNISTTransferBaseline => "MNIST_transferBaseline"
    case CIFAR10TransferBaseline => "CIFAR10_transferBaseline"
    case FashionMNISTTransferBaseline => "FashionMNIST_transferBaseline"
  }

  predicate IsTransferBaseline(d: DatasetKind) {
    d.MNISTTransferBaseline? || d.CIFAR10TransferBaseline? || d.FashionMNISTTransferBaseline?
  }

  /** The dataset chain of `train`: six names are known, anything else raises. */
  function ParseDataset(name: string): (r: Result<DatasetKind, ConfigError>)
    ensures r.Ok? ==> DatasetName(r.value) == name
    ensures r.Err? ==> r.error == UnknownDataset(name) && forall d :: DatasetName(d) != name
  {
    if name == "CIFAR10" then Ok(CIFAR10)
    else if name == "MNIST" then Ok(MNIST)
    else if name == "FashionMNIST" then Ok(FashionMNIST)
    else if name == "MNIST_transferBaseline" then Ok(MNISTTransferBaseline)
    else if name == "CIFAR10_transferBaseline" then Ok(CIFAR10TransferBaseline)
    else if name == "FashionMNIST_transferBaseline" then Ok(FashionMNISTTransferBaseline)
    else Err(UnknownDataset(name))
  }

  /** Every dataset kind is reached from its own name and from no other. */
  lemma ParseDatasetName(d: DatasetKind, name: string)
    ensures ParseDataset(DatasetName(d)) == Ok(d)
    ensures ParseDataset(name) == Ok(d) <==> name == DatasetName(d)
  {
  }

  // ---------------------------------------------------------------- loaders

  /** Which examples the training loader draws from. */
  datatype Split =
    | TrainSplit              // the dataset's training split
    | TestPrefix(size: int)   // the first `SubsetSize` items of the test split

  /** The collate function handed to the loader. */
  datatype CollateChoice =
    | KeepFirst(nSeg: int)    // my_collate(batch, nSeg=self.nSeg)
    | KeepRest(nSeg: int)     // my_collate_rev(batch), default nSeg = 8
    | PlainCollate            // the loader's default collation

  datatype LoaderSpec = LoaderSpec(split: Split, collate: CollateChoice, dropLast: bool)

  /**
   * The training-loader branch of `train`, which tests the dataset NAME again. Once the
   * name has been accepted, the fallback branch without label filtering is never taken.
   */
  function TrainLoader(name: string, nSeg: int, subsetSize: int): (r: LoaderSpec)
    ensures ParseDataset(name).Ok? ==> !r.collate.PlainCollate?
    ensures ParseDataset(name).Ok? ==>
              (r.collate.KeepRest? <==> IsTransferBaseline(ParseDataset(name).value))
    ensures r.collate.KeepFirst? ==> r.collate.nSeg == nSeg && r.split == TrainSplit && !r.dropLast
    ensures r.collate.KeepRest? ==> r.collate.nSeg == 8 && r.split == TestPrefix(subsetSize) && r.dropLast
  {
    if name in ["MNIST", "CIFAR10", "FashionMNIST"] then
      LoaderSpec(TrainSplit, KeepFirst(nSeg), false)
    else if name in ["MNIST_transferBaseline", "CIFAR10_transferBaseline", "FashionMNIST_transferBaseline"] then
      LoaderSpec(TestPrefix(subsetSize), KeepRest(8), true)
    else
      LoaderSpec(TrainSplit, PlainCollate, false)
  }

  // ---------------------------------------------------------------- checkpoints

  /** The two entries of a checkpoint file, in order. */
  datatype StateDict = NetworkState | OptimizerState

  const CheckpointStates: seq<StateDict> := [NetworkState, OptimizerState]

  /** The files one checkpoint step writes. */
  datatype Artefact =
    | LossList(dataset: DatasetKind, subsetSize: int, seed: int, losses: seq<real>) // pickled loss_vals
    | NumberedCheckpoint(step: int, states: seq<StateDict>)                         // checkpoint_{step}.pth
    | LatestCheckpoint(states: seq<StateDict>)                                      // checkpoint.pth
    | FinalLayerTensor                                                              // finalLayerweights_.pth
    | FinalLayerPickle                                                              // finalLayerweights.p

  /** MNIST and CIFAR10 transfer baselines store losses; FashionMNIST's does not. */
  predicate StoresLossList(d: DatasetKind) {
    d.MNISTTransferBaseline? || d.CIFAR10TransferBaseline?
  }

  /**
   * The checkpoint branch of `train` at a step that is due: every kind writes the numbered
   * and the latest checkpoint, each holding [network state, optimizer state]; the MNIST and
   * CIFAR10 transfer baselines first pickle the current epoch's losses (only with
   * `store_loss`) and write no final-layer files; every other kind writes both final-layer files.
   */
  function CheckpointWrites(d: DatasetKind, storeLoss: bool, step: int, lossVals: seq<real>,
                            subsetSize: int, seed: int): (w: seq<Artefact>)
    ensures NumberedCheckpoint(step, CheckpointStates) in w && LatestCheckpoint(CheckpointStates) in w
    ensures forall a :: a in w && a.NumberedCheckpoint? ==> a.step == step && |a.states| == 2
    ensures FinalLayerTensor in w <==> !StoresLossList(d)
    ensures FinalLayerPickle in w <==> !StoresLossList(d)
    ensures (exists a :: a in w && a.LossList?) <==> storeLoss && StoresLossList(d)
    ensures forall a :: a in w && a.LossList? ==> a.losses == lossVals && a.dataset == d
    ensures |w| == if !StoresLossList(d) then 4 else if storeLoss then 3 else 2
    ensures storeLoss && StoresLossList(d) ==> w[0] == LossList(d, subsetSize, seed, lossVals)
    ensures var o := if storeLoss && StoresLossList(d) then 1 else 0;
            w[o] == NumberedCheckpoint(step, CheckpointStates) && w[o + 1] == LatestCheckpoint(CheckpointStates)
    ensures !StoresLossList(d) ==> w[2] == FinalLayerTensor && w[3] == FinalLayerPickle
  {
    var states := CheckpointStates;
    if StoresLossList(d) then
      var lossFile := if storeLoss then [LossList(d, subsetSize, seed, lossVals)] else [];
      var w := lossFile + [NumberedCheckpoint(step, states), LatestCheckpoint(states)];
      assert storeLoss ==> w[0] in w && w[0].LossList?;
      w
    else
      [NumberedCheckpoint(step, states), LatestCheckpoint(states), FinalLayerTensor, FinalLayerPickle]
  }

  /** A checkpoint step writes nothing but the five expected files, with these contents. */
  lemma CheckpointWritesOnly(d: DatasetKind, storeLoss: bool, step: int, lossVals: seq<real>,
                             subsetSize: int, seed: int)
    ensures forall a :: a in CheckpointWrites(d, storeLoss, step, lossVals, subsetSize, seed) ==>
              || a == LossList(d, subsetSize, seed, lossVals)
              || a == NumberedCheckpoint(step, CheckpointStates)
              || a == LatestCheckpoint(CheckpointStates)
              || a == FinalLayerTensor
              || a == FinalLayerPickle
  {
    var w := CheckpointWrites(d, storeLoss, step, lossVals, subsetSize, seed);
    forall a | a in w
      ensures || a == LossList(d, subsetSize, seed, lossVals)
              || a == NumberedCheckpoint(step, CheckpointStates)
              || a == LatestCheckpoint(CheckpointStates)
              || a == FinalLayerTensor
              || a == FinalLayerPickle
    {
      var k :| 0 <= k < |w| && w[k] == a;
    }
  }
}
