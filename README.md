# icebeem training control logic in Dafny

This project models the control logic of two research training pipelines: the conditional
denoising-score-matching (DSM) runner `mnist_runner` and the iVAE trainer `IVAE_wrapper`.
Every neural network, loss, optimizer and random draw is an opaque parameter. What is
modelled and proved is the integer and sequence logic around them:

- `Collate`: `my_collate` / `my_collate_rev`. These keep the (image, label) pairs whose label
  is in `range(nSeg)` or `range(nSeg, 10)`, in their original order, and then split them into
  an image column and a label column. The default collation fails on an empty list.
- `LabelShift`: the in-place shift `y -= y.min()` that makes a batch's labels start at 0.
- `Dispatch`: selection by name. This covers the optimizer (`Adam`, `RMSProp`, `SGD`), the six
  dataset names, the training loader each dataset gets, and the files one checkpoint step writes.
- `DsmTraining`: the step / hard-stop / checkpoint state machine of `train`, over `B` abstract
  batches per epoch.
- `Langevin`: `Langevin_dynamics` over real numbers, with the score network and the scaled
  Gaussian noise given as parameters.
- `IvaeTraining`: the `it` / epoch / `max_epochs` / `elbo_train` accounting of `IVAE_wrapper`,
  and the shape of its return value.
- `Arith`: facts about multiplication, division and ceiling division by a positive batch count.
  Both training loops use them.
- `Results`: the `Result` and `Option` types. Exceptions the source raises become `Err` values.

Two behaviours of the code worth noting:

- The iVAE loop compares `it` with `max_iter` only at the top of each epoch. So it always runs
  whole epochs, and `it` ends at `L * ceil(max_iter / L)`. It does not stop part-way through
  an epoch.
- A checkpoint of the MNIST and CIFAR10 transfer baselines writes no final-layer files. The
  FashionMNIST transfer baseline writes them, as the plain datasets do.
- Lines 209-230 of `runners/mnist_exp_runner.py` still hold unresolved merge-conflict
  markers. Both sides write `checkpoint_{step}.pth` and `checkpoint.pth`, and only that shared
  behaviour is modelled.

Python's `%` and Dafny's `%` differ for a negative `snapshot_freq`. Only `step % freq == 0`
is tested, with `step >= 1`, and both operators give 0 exactly when `freq` divides `step`.
Python's `//` with a positive divisor floors, as Dafny's `/` does.

## Model

| member | source | states |
|---|---|---|
| Collate.Keep | runners/mnist_exp_runner.py:26-41 | every survivor's label is in the window [lo, hi), and nothing is added |
| Collate.DefaultCollate | runners/mnist_exp_runner.py:32 | the collation fails exactly on an empty list; otherwise the image and label columns match the items position by position |
| Collate.FilterByLabel | runners/mnist_exp_runner.py:27-31 | the append loop over the batch yields exactly the in-window items in order (`Keep`) |
| Collate.MyCollate | runners/mnist_exp_runner.py:26-32 | `my_collate` collates `Keep(batch, 0, nSeg)`; it fails iff no label is in range(nSeg); every collated label is in [0, nSeg) |
| Collate.MyCollateRev | runners/mnist_exp_runner.py:35-41 | `my_collate_rev` collates `Keep(batch, nSeg, 10)`; it fails iff no label is in range(nSeg, 10); every collated label is in [nSeg, 10) |
| Collate.KeepEmptyIff | runners/mnist_exp_runner.py:28-32 | nothing survives iff no label of the batch is in the window |
| Collate.KeepCounts | runners/mnist_exp_runner.py:28-31 | an item occurs in the result as often as in the batch if its label is in the window, otherwise never |
| Collate.KeepMembers | runners/mnist_exp_runner.py:28-31 | an item survives iff it is in the batch and its label is in the window |
| Collate.KeepIsSubsequence | runners/mnist_exp_runner.py:28-31 | the survivors form an order-preserving subsequence of the batch |
| Collate.CollatePartition | runners/mnist_exp_runner.py:26-41 | for labels 0..9 and any nSeg, the two filters' outputs together are the whole batch as a multiset: nothing is lost or duplicated |
| Collate.CollateDisjoint | runners/mnist_exp_runner.py:26-41 | no item passes both `my_collate(nSeg)` and `my_collate_rev(nSeg)`, whatever its label |
| Collate.CollateRevDefault | runners/mnist_exp_runner.py:35-41 | with the default nSeg = 8 of the transfer-baseline loader, exactly the items labelled 8 or 9 survive |
| LabelShift.Min | runners/mnist_exp_runner.py:180 | `y.min()` is a label of the batch and no label is smaller |
| LabelShift.Shifted | runners/mnist_exp_runner.py:180 | after the shift every label is >= 0 and some label is 0 |
| LabelShift.ShiftLabels | runners/mnist_exp_runner.py:180 | `y -= y.min()` updates the label array in place to `Shifted` of its old contents |
| LabelShift.ShiftKeepsDifferences | runners/mnist_exp_runner.py:180 | differences between labels, and so their order, are unchanged by the shift |
| LabelShift.ShiftZeroBased | runners/mnist_exp_runner.py:180 | labels that already start at 0 are left unchanged |
| LabelShift.ShiftIdempotent | runners/mnist_exp_runner.py:180 | shifting twice is the same as shifting once |
| LabelShift.ShiftBounds | runners/mnist_exp_runner.py:180 | labels within [lo, hi) are shifted into [0, hi - lo) |
| LabelShift.CollatedShiftBelowNSeg | runners/mnist_exp_runner.py:169-181 | labels of a batch that passed `my_collate(nSeg)` stay in [0, nSeg) after the shift, so they index the final layer's nSeg columns |
| LabelShift.CollatedRevShiftBelow | runners/mnist_exp_runner.py:169-181 | labels of a batch that passed `my_collate_rev(nSeg)` land in [0, 10 - nSeg) after the shift |
| LabelShift.CollatedRevDefaultShift | runners/mnist_exp_runner.py:135-139 | with the transfer-baseline loader's nSeg = 8, shifted labels are 0 or 1 |
| Dispatch.GetOptimizer | runners/mnist_exp_runner.py:54-63 | exactly 'Adam', 'RMSProp' and 'SGD' are accepted, and the built optimizer has the requested name and learning rate; Adam gets beta2 = 0.999, RMSprop gets the weight decay, SGD gets momentum 0.9; any other name raises |
| Dispatch.GetOptimizerByName | runners/mnist_exp_runner.py:54-63 | naming an optimizer selects that optimizer |
| Dispatch.ParseDataset | runners/mnist_exp_runner.py:86-125 | an accepted name is the name of the dataset kind chosen; a rejected name raises UnknownDataset and is the name of no kind |
| Dispatch.ParseDatasetName | runners/mnist_exp_runner.py:86-125 | each of the six kinds is reached from its own name and from no other |
| Dispatch.TrainLoader | runners/mnist_exp_runner.py:127-145 | for an accepted name the unfiltered fallback loader is never chosen; the transfer baselines get `my_collate_rev` with nSeg 8 over the first `SubsetSize` test items, with `drop_last`; the plain datasets get `my_collate(nSeg)` over the training split without `drop_last` |
| Dispatch.CheckpointWrites | runners/mnist_exp_runner.py:193-241 | each checkpoint step writes the numbered and the latest checkpoint, each holding [network state, optimizer state]; the final-layer files are written iff the kind is not the MNIST or CIFAR10 transfer baseline; a loss list is written iff `store_loss` is set and the kind is one of those two, and it holds the current `loss_vals` keyed by the kind, subset size and seed; the order is loss list first, then `checkpoint_{step}.pth`, `checkpoint.pth`, `finalLayerweights_.pth`, `finalLayerweights.p` (2, 3 or 4 files) |
| Dispatch.CheckpointWritesOnly | runners/mnist_exp_runner.py:193-241 | a checkpoint step writes nothing but the loss list of this kind, subset size, seed and `loss_vals`, the two checkpoints of this step holding [network state, optimizer state], and the two final-layer files |
| DsmTraining.StepsRun | runners/mnist_exp_runner.py:165-191 | the number of optimizer updates is min(n_iters, n_epochs * B) for n_iters >= 1, at least 1 whenever a batch exists, and never more than n_epochs * B |
| DsmTraining.EpochLosses | runners/mnist_exp_runner.py:167-189 | `loss_vals` at a step holds between 1 and B losses |
| DsmTraining.HardStopAt | runners/mnist_exp_runner.py:190-191 | the first step with step >= n_iters is the final step, and the hard stop fires |
| DsmTraining.ExhaustedAt | runners/mnist_exp_runner.py:167-191 | if no step reached n_iters, all n_epochs * B batches were processed and training falls through without `return 0` |
| DsmTraining.LossValsAt | runners/mnist_exp_runner.py:168-189 | `loss_vals` after batch i of epoch e is the list of losses of that epoch so far |
| DsmTraining.TrainEpoch | runners/mnist_exp_runner.py:167-241 | one epoch of the batch loop advances `step` by B unless it stops; if it stops, it gives the hard-stop run or the modulo-by-zero error; the writes stay those due so far |
| DsmTraining.TrainStep | runners/mnist_exp_runner.py:170-241 | one batch counts the step and appends its loss to `loss_vals`; at step >= n_iters it gives the hard-stop run, before any snapshot test; with `snapshot_freq` = 0 it gives the modulo-by-zero error; otherwise the writes are those due up to the new step |
| DsmTraining.Checkpoint | runners/mnist_exp_runner.py:193-241 | at a due step, the files written so far plus this step's checkpoint files are exactly those due up to this step |
| DsmTraining.Train | runners/mnist_exp_runner.py:69-241 | the dataset name is checked first, then the optimizer name; `snapshot_freq` = 0 fails iff a step below n_iters is reached; otherwise the final step is `StepsRun`, the hard stop fires iff some step reaches n_iters, and the files written are exactly those due up to the final step |
| DsmTraining.WritesAtStep | runners/mnist_exp_runner.py:190-193 | files are written at step s iff 1 <= s <= final step, s < n_iters and s % snapshot_freq == 0; the numbered checkpoint for s is then among them |
| DsmTraining.WritesBounded | runners/mnist_exp_runner.py:165-241 | every file written during steps 1..n carries a step between 1 and n |
| DsmTraining.WritesOrdered | runners/mnist_exp_runner.py:165-241 | files are written in non-decreasing step order, never beyond the current step |
| DsmTraining.LossListsFromCurrentEpoch | runners/mnist_exp_runner.py:167-206 | every pickled loss list holds only the losses of the checkpoint's own epoch: those of the steps from that epoch's first step up to the checkpoint step, in order |
| Langevin.Clamp | runners/mnist_exp_runner.py:248 | a clamped entry is in [0, 1]: an entry already in [0, 1] is unchanged, a negative one becomes 0 and one above 1 becomes 1 |
| Langevin.ClampAll | runners/mnist_exp_runner.py:248 | the clamped tensor has the same size and every entry in [0, 1]; entries already in [0, 1] are unchanged, negative entries become 0 and entries above 1 become 1 |
| Langevin.State | runners/mnist_exp_runner.py:247-251 | the state after k updates keeps the shape of x0 |
| Langevin.SnapshotAt | runners/mnist_exp_runner.py:247-248 | the list of the first n snapshots has length n, and entry k is the clamped state after k updates |
| Langevin.LangevinDynamics | runners/mnist_exp_runner.py:243-254 | exactly max(n_steps, 0) snapshots are returned; snapshot k is the clamped state after k updates, so each is taken before its update and the last update is never recorded; snapshot 0 is clamp(x0); every entry is in [0, 1] |
| Langevin.ZeroScoreNoDrift | runners/mnist_exp_runner.py:249-251 | with a score that is zero everywhere, each entry after k updates is its start value plus the sum of the first k noise draws |
| IvaeTraining.TrainEpoch | models/ivae/IVAE_wrapper.py:37-53 | one pass over the loader advances `it` by L, takes one optimizer step per batch, and leaves `elbo_train` equal to the sum of the L negated batch ELBOs divided by L |
| IvaeTraining.TrainLoop | models/ivae/IVAE_wrapper.py:23-55 | the loop runs ceil(max_iter / L) whole epochs (0 if max_iter <= 0); on exit it = L * epochs >= max_iter and it - max_iter < L for positive max_iter; there is one optimizer step per batch; `epoch` is the 1-based index of each epoch; the scheduler receives each epoch's mean negated ELBO, once per epoch |
| IvaeTraining.IvaeWrapper | models/ivae/IVAE_wrapper.py:8-62 | an empty loader raises; otherwise the accounting is that of `TrainLoop`, z is the full-dataset forward pass's latent, and `params` has exactly the keys 'decoder', 'encoder' and 'prior', each mapped to the matching forward output |
| IvaeTraining.WholeEpochs | models/ivae/IVAE_wrapper.py:34-42 | the final `it` is a multiple of L, at least max_iter, and less than max_iter + L when max_iter > 0 |
| IvaeTraining.EpochsVersusMaxEpochs | models/ivae/IVAE_wrapper.py:23-36 | for max_iter >= -L the epochs run never exceed `max_epochs`; for a positive max_iter, `max_epochs` exceeds them by one exactly when L divides max_iter |
| IvaeTraining.ConstantEpochSum | models/ivae/IVAE_wrapper.py:51 | when all n batch losses are c, their accumulated sum is n * c |
| IvaeTraining.ConstantEpochMean | models/ivae/IVAE_wrapper.py:37-55 | when every batch of an epoch has negated ELBO c, the scheduler receives c for that epoch |

## Left out

- Networks and losses (`RefineNetDilated`, `conditional_dsm`, the `iVAE` model and its ELBO, `CustomSyntheticDataset`) are not part of this model. They are floating-point tensor code, and they appear only as the opaque parameters `lossAt`, `negElbo`, `score` and `forward`.
- The optimizers and `ReduceLROnPlateau` are library code. The model records only that `optimizer.step` runs once per batch and `scheduler.step` runs once per epoch, with its argument. The plateau rule (factor 0.1, patience 3) is not modelled.
- The floating-point transforms are not modelled: `logit_transform`, the dequantisation `X/256*255 + rand/256`, the `sqrt(2 * step_lr)` noise scaling (the noise arrives already scaled) and the `sigmoid` post-processing in `test`.
- Randomness is left out: seeding, shuffling, `rand_like` / `randn_like`, and the random initial sample of `test`.
- The `DataLoader` is not modelled. Its length is a parameter (`B` for DSM, `L` for iVAE) instead of being computed from the dataset size, batch size and `drop_last`. Every epoch has the same number of batches.
- I/O is not modelled: dataset download and transforms, `torch.save`, `pickle`, `torch.load`, tensorboard-path deletion, logging and prints (including the per-step gradient diagnostics of `Langevin_dynamics`), directory creation, device selection, `.cuda()` and `DataParallel`. The model records which files are written and what each holds, not the writing itself.
- `test()` is modelled only through the `Langevin_dynamics` loop it calls. Its checkpoint loading and per-sample file writing are left out.
- DsmTraining.Train: the batches are abstract, so the collation and the label shift of each batch are modelled by `Collate` and `LabelShift` and not inside the step loop. A batch whose items are all filtered out would make the default collation raise (`MyCollate` returns `Err`). `Train` assumes no such batch occurs.
- IvaeTraining.IvaeWrapper: `max_iter` is an integer. The source's default `7e4` is a whole-valued float and compares the same way; a fractional `max_iter` is not modelled.
- The iVAE `max_epochs` value is only used by a commented-out print. For `max_iter < -L` it is negative, below the 0 epochs run; `EpochsVersusMaxEpochs` states the bound for `max_iter >= -L`, where it holds.
- The labels are treated as plain integers. The source tests `label in range(...)` on whatever the dataset returns, and torchvision returns Python ints for these datasets.
