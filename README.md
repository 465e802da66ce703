# visual_dynamics: training bookkeeping, minibatch indexing and layer shapes in Dafny

This project models the deterministic bookkeeping around model fitting in the visual_dynamics
predictors and proves properties of it. The model covers four parts.

- **`TheanoNetSolver`** (`predictor/solver.py`):
  - the iteration counter and the per-iteration loss history;
  - the smoothed `train_losses`/`val_losses`/`loss_iters` records;
  - the staircase learning rate `base_lr * gamma ** (iter_ // stepsize)`;
  - the snapshot cadence and the "no duplicate final snapshot" rule of `solve`;
  - the `solver_type` dispatch and `get_config`;
  - the parsing of `output_names` shared by `get_outputs` and `get_output_vars`;
  - the errors compiling the training or validation function raises before any pass: the lookup of the input layers by name, then `get_output_vars`'s pair test, unpacking, layer lookup and time test.
- **`BilinearSolver`** (`predictor/solver.py`):
  - the pre-flight check of the output pairs, which reverses a pair in place;
  - the aggregation of the normal equations over one pass of the data, with the sample counts `Ns` and the per-channel accumulators;
  - the regularised systems, whose bias entry is not regularised;
  - one counter increment per aggregate-and-solve cycle;
  - the compilation of the validation function before its loop, `solve` and `get_config`.
- **The Theano predictor** (`predictor_theano.py`):
  - `iterate_minibatches`;
  - `iterate_minibatches_indefinitely`, with its refilled index queue and its argsort/unsort round trip;
  - the shape arithmetic of `Deconv2DLayer` and `BilinearLayer`;
  - `BilinearLayer`'s activation as flattened-index arithmetic;
  - the schedule and snapshot rule of the legacy `train` loop.
- **The trajectory helpers** (`visual_dynamics/utils/rl_util.py`): `split_observations`, `discount_return` and `discount_returns`.

Everything the network, the data files and numpy compute enters the model as an oracle, given as a parameter:

- **Training and validation losses:** `trainLoss(iter, lr)` and `valSum(iter, slot)`.
- **Bilinear solver:** its `Source` holds the layer output shapes per batch, the solver terms, `numpy.linalg.solve` and `post_fit`.
- **Randomness:** the permutation `numpy.random.shuffle` produces.
- **Legacy loop:** whether a draw or a training call raises.

A snapshot is modelled as the iteration number appended to a log. Losses and rates are exact reals.

Modules:

| module | file | what it holds |
|---|---|---|
| `Errors` | errors.dfy | the Python exceptions raised; `Option` and `Result` |
| `Numeric` | numeric.dfy | powers, left-to-right sums, means, dot products, Python's `//` |
| `Decimal` | decimal.dfy | `str(int)`, with injectivity |
| `Sorting` | sorting.dfy | stable sort by key (`sorted` on indexed pairs) and `numpy.argsort` |
| `Schedule` | schedule.dfy | the staircase rate and the events due at multiples of an interval |
| `OutputNames` | output_names.dfy | `get_outputs` / `get_output_vars` name parsing |
| `NetSolver` | net_solver.dfy | `TheanoNetSolver` as a class, with the functional specification of `step` and `solve` |
| `BilinearPreflight` | bilinear_preflight.dfy | the output-pair check of `BilinearSolver.step` |
| `BilinearSolving` | bilinear_solver.dfy | `BilinearSolver` as a class: aggregation, systems, cycles, `step`, `solve` |
| `BilinearFacts` | bilinear_facts.dfy | properties of the bilinear solver |
| `Minibatches` | minibatches.dfy | both minibatch generators; the indefinite one is a class |
| `Layers` | layers.dfy | `Deconv2DLayer` and `BilinearLayer` shapes and activation |
| `LegacyTrain` | legacy_train.dfy | `TheanoNetFeaturePredictor.train` |
| `RlUtil` | rl_util.dfy | the trajectory helpers |

Where the stateful code is imperative, so is the model.

- **Classes.** `TheanoNetSolver` and `BilinearSolver` are classes whose methods update their fields with a `while` loop. So is the indefinite minibatch generator.
- **Imperative methods.** The grouping loop of `get_outputs`, the batch loop of `iterate_minibatches`, the `unsort_inds` loop and the legacy `train` loop are methods with loops.
- **Specifications.** Each method is proved equal to a recursive specification function, and the properties are lemmas about that function.

Choices that follow the code:

- **Smoothed loss.** The loss record averages the last `min(average_loss, len(losses))` losses, as `predictor/solver.py:227-228` does. A plain description would say "the last `average_loss` losses".
- **Python 2 division.** `predictor_theano.py` is Python 2 code, so `iter_ / stepsize` is floor division on integers.
- **Bare `raise`.** The bare `raise` for an unknown solver type has no active exception, so it raises `TypeError`.
- **`test_all` with zero batches.** `test_all` with `test_iter = 0` divides the integer 0 by 0 and raises `ZeroDivisionError`.

## Model

| member | source | states |
|---|---|---|
| NetSolver.Coalesce | predictor/solver.py:27-29 | the stored name lists are never empty; lists already given are kept unchanged |
| NetSolver.ConfigRoundTrip | predictor/solver.py:293-321 | rebuilding a solver from `get_config` at any point of training restores every setting and the whole loss history, with `base_lr` at its default and an empty snapshot log; the hyper-parameters come back unchanged iff `base_lr` was the default |
| NetSolver.CoalesceStored | predictor/solver.py:27-29 | the settings the constructor stores are already coalesced, so `ConfigRoundTrip` applies to every solver |
| NetSolver.TheanoNetSolver.GetConfig | predictor/solver.py:293-321 | a solver rebuilt from the dictionary has this solver's settings and loss history, `base_lr` at its default and no snapshot yet |
| NetSolver.TheanoNetSolver.constructor | predictor/solver.py:13-56 | the fields are the coalesced arguments, with no snapshot taken yet |
| Schedule.StepRate | predictor/solver.py:216-217 | the rate fails exactly for `stepsize == 0`, or for a zero gamma raised to a negative step, and the failure is `ZeroDivisionError` |
| Schedule.StepRateStaircase | predictor/solver.py:216-217 | throughout block k (iterations `k*stepsize .. (k+1)*stepsize-1`) the rate is `base_lr * gamma^k` |
| Schedule.StepRateDecay | predictor/solver.py:216-217 | one stepsize later the rate has been multiplied by gamma |
| Schedule.StepRateInBlock | predictor/solver.py:216-217 | for a positive stepsize and a non-negative block the rate is defined and is `base_lr * gamma^(iter_ // stepsize)` |
| NetSolver.SmoothedIsTrailingMean | predictor/solver.py:227-228 | the smoothed loss is the mean of the last `min(average_loss, len(losses))` losses and lies between their least and greatest |
| NetSolver.BatchMeanMeaning | predictor/solver.py:213 | the mean of `test_iter` validation losses fails exactly for `test_iter == 0`; it is 0 for a negative count; otherwise `test_iter` times it is the total |
| NetSolver.RecordItersFacts | predictor/solver.py:225-226 | the record iterations in a range are strictly increasing and are exactly those where `loss_interval != 0` and the iteration is a multiple of `loss_interval` or of `snapshot_interval` |
| NetSolver.SnapshotItersFacts | predictor/solver.py:242-243 | the snapshot counters in a range are strictly increasing and are exactly the multiples of `snapshot_interval` there |
| NetSolver.IterateTrains | predictor/solver.py:216-219 | an error-free pass appends the training loss at the scheduled rate and increments the counter |
| NetSolver.IterateRecords | predictor/solver.py:225-233 | an error-free pass appends the smoothed loss, the iteration and (when validating) the validation loss exactly when a record is due, and changes no record otherwise |
| NetSolver.IterateSnapshots | predictor/solver.py:240-243 | an error-free pass snapshots the incremented counter exactly when it is a multiple of `snapshot_interval`, and remembers it |
| NetSolver.RunCounter | predictor/solver.py:210-240 | an error-free run of n passes advances `iter_` by exactly n |
| NetSolver.RunErrorSticks | predictor/solver.py:210-240 | after a pass raises, no further pass is made |
| NetSolver.RunLosses | predictor/solver.py:210-240 | an error-free run of n passes appends exactly n losses; the k-th is the training loss at iteration `iter_+k` at its scheduled rate; the earlier history is kept |
| NetSolver.RunRecords | predictor/solver.py:225-233 | an error-free run appends to `loss_iters` exactly the due record iterations, in order, and as many entries to `train_losses` |
| NetSolver.RunValidationRecords | predictor/solver.py:230-232 | when validating, `val_losses` grows by one entry per record; otherwise it is unchanged |
| NetSolver.RunSnapshots | predictor/solver.py:240-243 | an error-free run snapshots at exactly the multiples of `snapshot_interval` the counter reaches, in order, and remembers the last one |
| NetSolver.RunKeepsSnapshotLog | predictor/solver.py:242-291 | a run keeps the snapshot log strictly increasing, never ahead of the counter, with `_last_snapshot_iter` its last entry, and only appends to it |
| NetSolver.StepSpecRun | predictor/solver.py:130-251 | a successful `step(iters)` compiled without error, has a known solver type and is exactly max(iters, 0) error-free passes of the loop |
| NetSolver.SolveSpecStep | predictor/solver.py:168-172 | a successful solve is a successful step to `max_iter` followed by the final snapshot rule |
| NetSolver.FinalSnapshotLog | predictor/solver.py:171-172 | the final snapshot keeps the log, only appends, and leaves `_last_snapshot_iter == iter_` |
| NetSolver.SolveSnapshotsOnce | predictor/solver.py:168-172 | a successful solve ends with `_last_snapshot_iter == iter_` and a strictly increasing log extending the old one, so no iteration is snapshotted twice |
| NetSolver.SnapshotFileNameInjective | predictor/solver.py:272-273 | snapshot files of different iterations have different names |
| NetSolver.SnapshotFileName | predictor/solver.py:272-273 | the name starts with the prefix and `_iter_`, ends with the extension, and has a `-` after `_iter_` iff the iteration is negative |
| NetSolver.SnapshotFileNameNames | predictor/solver.py:272-273 | a snapshot file name names one iteration only |
| NetSolver.TheanoNetSolver.GetSnapshotFname | predictor/solver.py:272-273 | the name is the prefix, `_iter_`, the counter and the extension, and no other counter gives it |
| NetSolver.SnapshotFiles | predictor/solver.py:275-291 | a snapshot writes two files, three when `loss_interval` is set, all named after the iteration and all different |
| Decimal.IntToStringInjective | predictor/solver.py:272-273 | `str` of different integers gives different strings, so the iteration number in a file name identifies it |
| NetSolver.TheanoNetSolver.Snapshot | predictor/solver.py:275-291 | the snapshot appends the current iteration to the log and sets `_last_snapshot_iter` |
| NetSolver.TheanoNetSolver.RecordLosses | predictor/solver.py:225-233 | the new state and error are those of the record specification, including the mutations made before an error |
| NetSolver.TheanoNetSolver.Iteration | predictor/solver.py:211-243 | one loop pass takes the state to that of the pass specification |
| NetSolver.TheanoNetSolver.Step | predictor/solver.py:130-251 | `compile_train_fn` runs first, for any `iters`: a missing input layer raises `KeyError`, then `get_output_vars`'s error is raised, each with nothing changed; the state and result are otherwise those of `Train` |
| NetSolver.TheanoNetSolver.Train | predictor/solver.py:141-251 | a solver type other than SGD and ADAM raises `ValueError` before any pass; otherwise the state and result are those of `iters` passes, stopping at the first error, then the final losses |
| NetSolver.TheanoNetSolver.Solve | predictor/solver.py:168-172 | the state and result are `SolveSpec`'s: a failed compilation or step changes nothing more; otherwise a step to `max_iter` followed by the final snapshot rule |
| OutputNames.Flatten | predictor/solver.py:63 | the flattened list holds `2*len(output_names)` names; names `2k` and `2k+1` are the two of pair k |
| OutputNames.GroupByTime | predictor/solver.py:64-72 | the grouping fails iff a nested name does not unpack into two values, with the error of the first such name; otherwise the keys are the times in order of first occurrence and each group lists its (index, name) entries |
| OutputNames.GroupCovers | predictor/solver.py:64-72 | every name of a time is in that time's group |
| OutputNames.GroupSorted | predictor/solver.py:64-72 | a group lists its indices in strictly increasing order |
| OutputNames.GroupElements | predictor/solver.py:64-72 | each group entry has its own index and name, for a name with that time |
| OutputNames.GroupEmpty | predictor/solver.py:64-72 | a time no name has gets no group |
| OutputNames.TimesInOrderFacts | predictor/solver.py:70-74 | the dict keys list every time exactly once and nothing else |
| OutputNames.FirstUnsupportedTime | predictor/solver.py:74-81 | the unsupported time reached first in key order is that of the first name with an unsupported time, so the error raised does not depend on the grouping |
| OutputNames.EvaluateGroups | predictor/solver.py:73-82 | the evaluation fails iff some time is neither 0 nor 1 (raising `NotImplementedError` for the first such name's time); otherwise each index is tagged once with its name's output |
| OutputNames.SortedOutputs | predictor/solver.py:83 | sorting the tagged outputs gives the output of name m at position m |
| OutputNames.Pairs | predictor/solver.py:84 | the pairs of consecutive elements: `(s[2k], s[2k+1])` |
| OutputNames.RestoredOrder | predictor/solver.py:83-84 | sorting and pairing gives the outputs of each pair of `output_names`, in its order, whatever the grouping order |
| OutputNames.PairsOfOutputs | predictor/solver.py:84 | pairing the outputs of the flattened names gives, for each pair of `output_names`, the outputs of its two names |
| OutputNames.GetOutputs | predictor/solver.py:58-84 | a non-pair entry gives `ValueError`, a malformed nested name its unpack error, an empty list the unpack `ValueError`, and an unsupported time `NotImplementedError`; otherwise the outputs of each pair, in order; `get_output_vars` parses the names the same way |
| OutputNames.OutputVarsParse | predictor/solver.py:86-114 | `get_output_vars` raises the pair `ValueError`, the unpack error of the first malformed name, `NotImplementedError` for the first unsupported time when every name is a layer, `KeyError` when every time is supported but a name is not a layer, and the unpack `ValueError` for an empty list; it succeeds iff none of these applies |
| OutputNames.GroupsErrorFacts | predictor/solver.py:101-112 | the group loop fails iff some group has an unknown layer or an unsupported time; with every layer known it fails at the first unsupported time in key order, with every time supported with `KeyError` |
| OutputNames.KnownGroups | predictor/solver.py:101-104 | every group's names are layers iff every flattened name is |
| OutputNames.SupportedTimes | predictor/solver.py:101-112 | every key time is supported iff every name's time is |
| OutputNames.MalformedError | predictor/solver.py:93-97 | the unpacking fails with the first malformed name's error, and succeeds iff no name is malformed |
| OutputNames.MalformedKinds | predictor/solver.py:93-97 | the unpacking raises only `ValueError` |
| OutputNames.GroupsErrorKinds | predictor/solver.py:101-112 | the group loop raises `KeyError` or the `NotImplementedError` of one of its times |
| OutputNames.CompileErrorKinds | predictor/solver.py:130-133 | compiling raises `KeyError`, a `ValueError`, or the `NotImplementedError` naming an unsupported time |
| BilinearPreflight.Unpack | predictor/solver.py:414-418 | an unpacking succeeds only for a two-element pair |
| BilinearPreflight.CheckPairAccepts | predictor/solver.py:410-429 | a pair is accepted iff it is `(pred, (curr, 1))` or `((curr, 1), pred)` with `pred`'s inputs exactly `(layer of curr, a bilinear layer)`; the accepted pair then stands in the first form, reversed in place when given in the second |
| BilinearPreflight.CheckPairIdempotent | predictor/solver.py:415-418 | an accepted pair is accepted again unchanged, so it is reversed at most once |
| BilinearPreflight.RejectedTupleIsTypeError | predictor/solver.py:428-429 | a rejected tuple pair of length other than 1 raises `TypeError` from the `%` formatting |
| BilinearPreflight.RejectedListIsNotImplemented | predictor/solver.py:428-429 | any other rejected pair raises `NotImplementedError` naming the pair as it then stands |
| BilinearPreflight.Preflight | predictor/solver.py:410-427 | the check keeps one entry per pair and, on success, accepts one layer per pair |
| BilinearPreflight.PreflightAccepts | predictor/solver.py:410-429 | a successful check accepts every pair in order, each with the result of its own check |
| BilinearPreflight.PreflightIdempotent | predictor/solver.py:410-429 | re-running the check after a successful one changes nothing and accepts the same layers |
| BilinearSolving.AccumulateChannels | predictor/solver.py:475-479 | the channel loop's result is that of the channel-sum specification |
| BilinearSolving.AggregateLayer | predictor/solver.py:443-483 | the body of the aggregation loop for one layer and batch meets its specification |
| BilinearSolving.Aggregate | predictor/solver.py:433-486 | the aggregation loop over all batches and layers meets its specification |
| BilinearSolving.SolveChannels | predictor/solver.py:519-527 | the per-channel solve loop meets its specification |
| BilinearSolving.SolveLayer | predictor/solver.py:502-533 | the solve of one layer looks up `post_fit_all[i]`, then solves by mode, as specified |
| BilinearSolving.BilinearSolver.constructor | predictor/solver.py:325-344 | the fields are the coalesced configuration, with no snapshot taken yet |
| BilinearSolving.BilinearSolver.Snapshot | predictor/solver.py:275-291 | a snapshot appends the iteration and sets `_last_snapshot_iter` (the missing `loss_interval` is swallowed) |
| BilinearSolving.BilinearSolver.CheckOutputPairs | predictor/solver.py:410-429 | the pairs and the result are those of the pre-flight specification, and nothing else changes |
| BilinearSolving.BilinearSolver.SolveSystems | predictor/solver.py:502-540 | the network's parameters and the error are those of the layer-by-layer solve specification |
| BilinearSolving.BilinearSolver.Cycle | predictor/solver.py:390-542 | one pass of the loop meets the cycle specification |
| BilinearSolving.BilinearSolver.RunPasses | predictor/solver.py:389-542 | the loop meets the specification of max(iters, 0) cycles, stopping at the first error |
| BilinearSolving.BilinearSolver.Step | predictor/solver.py:359-549 | `compile_val_fn` runs before the loop (line 386) on the current pairs; its error leaves the solver and the parameters unchanged; otherwise the state, the parameters and the result are those of `Train` |
| BilinearSolving.BilinearSolver.Train | predictor/solver.py:388-549 | the state, the parameters and the result are those of max(iters, 0) cycles, stopping at the first error, then the final losses |
| BilinearSolving.BilinearSolver.Solve | predictor/solver.py:346-357 | the state, parameters and result are `SolveSpec`'s: a failed compilation or step takes no final snapshot; otherwise step to `max_iter`, then the final snapshot unless it was just taken |
| BilinearSolving.BilinearSolver.GetConfig | predictor/solver.py:551-566 | the dictionary holds the settings, the current pairs and the counter; the constructor gives back exactly this configuration unless a name list is empty |
| BilinearSolving.BilinearSolver.GetSnapshotFname | predictor/solver.py:272-273 | the name is the prefix, `_iter_`, the counter and the extension, and no other counter gives it |
| BilinearFacts.CycleCounter | predictor/solver.py:542 | a completed cycle advances the counter by one; a failing one leaves it |
| BilinearFacts.RunCyclesCounter | predictor/solver.py:389-390 | n cycles advance the counter by n, or by fewer when one fails |
| BilinearFacts.StepCounter | predictor/solver.py:359-549 | a failed compilation changes nothing; a successful `step(iters)` advances the counter by exactly max(iters, 0); no step takes a snapshot |
| BilinearFacts.CycleNames | predictor/solver.py:409-429 | a completed cycle accepted every pair and leaves the pairs as the check left them |
| BilinearFacts.RunCyclesNames | predictor/solver.py:412-418 | after completed cycles the pairs are as the first check left them: the reversal happens in the first cycle only |
| BilinearFacts.SolveSnapshots | predictor/solver.py:346-350 | solve keeps the snapshot log; a successful solve ends at `max(max_iter, iter_)` with that iteration snapshotted and adds at most that one snapshot; a failing solve takes none |
| BilinearFacts.FinishSolveLog | predictor/solver.py:348-349 | the final snapshot rule keeps the log invariant, only appends, adds at most one snapshot and keeps the iteration and the result |
| BilinearFacts.ConfigRoundTrip | predictor/solver.py:551-566 | rebuilding from `get_config` gives the same configuration; the constructor changes one iff a name list is empty |
| BilinearFacts.DefaultPairRejected | predictor/solver.py:332 | the default pair `('x_next_pred', 'x_next')` fails the check with `TypeError` |
| BilinearFacts.DefaultPairFails | predictor/solver.py:390-429 | a solver left with the default pair fails in its first cycle, with `ZeroDivisionError` or `TypeError` |
| BilinearFacts.AggLayerCounts | predictor/solver.py:445-452 | one layer's aggregation adds to `Ns[i]` its batch rows, times the channels in share mode, and leaves the other counts |
| BilinearFacts.AggregationCounts | predictor/solver.py:445-452 | after a successful aggregation `Ns[i]` is the sum over all batches of the rows, times the channels in share mode |
| BilinearFacts.ChannelsEffect | predictor/solver.py:475-479 | the channel loop adds each channel's terms to that channel's accumulators, leaves the others, and ends with the last channel's `post_fit` |
| BilinearFacts.AggregationKeys | predictor/solver.py:454-483 | every accepted layer has accumulators and a `post_fit_all` entry iff the pass had a batch; the entry is the first batch's `post_fit` |
| BilinearFacts.AggregationSums | predictor/solver.py:453-479 | the accumulators hold the sums of each layer's terms over all batches: one pair in share/full mode, one per channel in channelwise mode |
| BilinearFacts.AggBatchesErrors | predictor/solver.py:445-481 | the aggregation can raise only a broadcast, index or unbound-`post_fit` error, or `NotImplementedError` for an unknown type |
| BilinearFacts.UnknownModeFails | predictor/solver.py:480-481 | an unknown `bilinear_type` raises `NotImplementedError` on the first batch's first layer |
| BilinearFacts.RegularisedEntries | predictor/solver.py:505-508 | the system is `A/(2N)` plus `weight_decay` on every diagonal entry but the last (bias), and `B/(2N)`; a non-square, multi-row A does not broadcast |
| BilinearFacts.FitLayerErrors | predictor/solver.py:502-533 | a layer's solve raises only a key, index, `len`, broadcast or singular-system error, or the exact-solve error for an unknown type |
| BilinearFacts.SolveLayersFailure | predictor/solver.py:534-538 | the solve loop stops at a layer whose fit failed, with that error, or at a layer without a bias |
| BilinearFacts.SolveLayersAllFit | predictor/solver.py:502-538 | when the loop succeeds, every layer's fit succeeded and every layer has a bias |
| BilinearFacts.SolveLayersKeys | predictor/solver.py:534-538 | a successful solve sets the parameters of exactly the accepted layers and leaves the others |
| BilinearFacts.SolveLayersLastWriter | predictor/solver.py:534-538 | each accepted layer ends with the fit of its last occurrence among the pairs |
| BilinearFacts.CycleNeverExactSolve | predictor/solver.py:532-533 | no cycle raises the exact-solve `NotImplementedError`: an unknown type fails earlier |
| BilinearFacts.StepNeverExactSolve | predictor/solver.py:386-533 | no step raises the exact-solve `NotImplementedError`, neither from compiling nor from a cycle |
| BilinearFacts.StepExactSolveFromCompile | predictor/solver.py:386-533 | step raises the exact-solve error only if compiling does |
| BilinearFacts.CompileNeverExactSolve | predictor/solver.py:386 | compiling the validation function never raises the exact-solve error |
| Sorting.SortStrict | predictor/solver.py:83 | sorting pairs with distinct keys orders them strictly by key |
| Sorting.ArgSort | predictor_theano.py:46 | `argsort` is a permutation of the positions that orders the values |
| Minibatches.EffectiveBatchSize | predictor_theano.py:15 | a missing or zero batch size is 1; any other is kept |
| Minibatches.CheckLengths | predictor_theano.py:17-19 | passes iff every array has the first one's length, and then gives that length; no arrays give `IndexError`, unequal lengths `AssertionError` |
| Minibatches.RangeStep | predictor_theano.py:23 | the start `k*bs` is in `range(0, N-bs+1, bs)` iff `k < N // bs` |
| Minibatches.RowsOfRange | predictor_theano.py:27 | reading the rows `start .. start+bs-1` is the slice `start:start+bs` |
| Minibatches.BatchIndices | predictor_theano.py:23-27 | batch k takes the bs indices of the order from `k*bs` on, all below N |
| Minibatches.Minibatches | predictor_theano.py:14-28 | the batches yielded, or the length-test failure, are those of the specification |
| Minibatches.CutBatches | predictor_theano.py:23-28 | the loop yields `N // bs` batches; batch k is read at the k-th piece of the order |
| Minibatches.MinibatchesShape | predictor_theano.py:17-28 | the length-test errors; otherwise `N // bs` batches (none for a negative batch size), each holding bs rows of every array |
| Minibatches.MinibatchesInOrder | predictor_theano.py:26-28 | unshuffled, batch k holds rows `k*bs .. (k+1)*bs-1` of every array |
| Minibatches.MinibatchesShuffled | predictor_theano.py:20-25 | shuffled, batch k holds the rows at `perm[k*bs .. (k+1)*bs-1]` |
| Minibatches.PiecesDisjoint | predictor_theano.py:20-25 | the pieces of two different shuffled batches share no index |
| Minibatches.PrefixLength | predictor_theano.py:44 | `indices[0:batch_size]` takes `batch_size` indices, or all of them when fewer |
| Minibatches.RefillBelow | predictor_theano.py:39-43 | the queue stays within `0 .. N-1` after a refill |
| Minibatches.SortedExcerpt | predictor_theano.py:46-50 | the sorted excerpt is ascending and holds only queued indices |
| Minibatches.ScatterLoop | predictor_theano.py:47-49 | the loop filling `unsort_inds` meets its specification |
| Minibatches.ScatterInverts | predictor_theano.py:47-49 | for distinct positions below `batch_size`, `unsort_inds` is the inverse of `sort_inds` |
| Minibatches.Unpermuted | predictor_theano.py:56 | `datum[...] = datum[unsort_inds, ...]` puts row `unsort_inds[p]` at p |
| Minibatches.ShuffledBatchInQueueOrder | predictor_theano.py:45-56 | reading in sorted order and unsorting gives the rows in the queued order |
| Minibatches.UnshuffledBatch | predictor_theano.py:51-53 | the unshuffled branch always reads rows `0 .. batch_size-1`, whatever the queue holds |
| Minibatches.IterationConsumesBatch | predictor_theano.py:37-57 | with `1 <= batch_size <= N` a pass refills only when fewer than `batch_size` remain, consumes exactly the first `batch_size` queued indices and succeeds |
| Minibatches.ShortExcerptFails | predictor_theano.py:47-56 | shuffled, an excerpt shorter than `batch_size` fails: `IndexError` when empty, a broadcast `ValueError` otherwise |
| Minibatches.ShortQueue | predictor_theano.py:39-57 | when even the refilled queue is shorter than `batch_size`, the shuffled branch fails and the unshuffled one still reads `min(batch_size, N)` rows |
| Minibatches.NextStepResumable | predictor_theano.py:30-58 | a call keeps the queue within the rows and leaves the generator resumable |
| Minibatches.IndefiniteMinibatches.constructor | predictor_theano.py:30-32 | creating the generator runs none of its body |
| Minibatches.IndefiniteMinibatches.Next | predictor_theano.py:30-58 | `next()` takes the generator's phase and queue, and gives the batch, as specified |
| Minibatches.Pass | predictor_theano.py:39-57 | one loop pass gives the queue and batch of the pass specification |
| Minibatches.ReadShuffled | predictor_theano.py:45-56 | the shuffled read gives the batch of its specification |
| Layers.AsPair | predictor_theano.py:65-66 | one value is repeated; an iterable must have exactly two items, or the call fails |
| Layers.NewDeconv | predictor_theano.py:61-77 | the constructor succeeds iff filter size, stride and pad normalise, and then keeps them; errors come in argument order |
| Layers.NormalisePadCases | predictor_theano.py:68-73 | `'valid'` is pad (0, 0); `'full'` and `'same'` are kept as names; an integer is repeated; a two-item integer sequence is kept; anything else fails |
| Layers.DeconvOutputShape | predictor_theano.py:79-83 | for a four-entry shape the batch is kept, the channels become `original_channels` and each size is `(w-1)*stride - 2*pad + filter` |
| Layers.DeconvInvertsConv | predictor_theano.py:79-83 | the deconvolution size undoes the convolution size iff `(w + 2*pad - filter) % stride == 0` |
| Layers.EncoderSizes | predictor_theano.py:337-360 | with filter 6, stride 2 and pad 2 the convolution halves a size (rounding down) and the deconvolution doubles it |
| Layers.DecodedShapeRestores | predictor_theano.py:335-361 | the two deconvolutions give `4*(x//4)` back, which is the input size exactly when it is a multiple of 4 |
| Layers.QuarterSize | predictor_theano.py:358-361 | halving twice with rounding down is dividing by 4, and multiplying back restores exactly the multiples of 4 |
| Layers.NewBilinear | predictor_theano.py:106-117 | the constructor succeeds iff there are two inputs and u is one-dimensional |
| Layers.Params | predictor_theano.py:112-117 | M is `(y_dim, y_dim, u_dim)` and N is `(y_dim, u_dim)`; b is `(y_dim,)` when present and is the only parameter that is not regularised |
| Layers.BilinearOutputShape | predictor_theano.py:119-122 | the output shape is `(batch, y_dim)`; unequal batch sizes fail the assertion |
| Layers.FlatEntries | predictor_theano.py:129-130 | entry `j*u_dim + k` of the flattened outer product is `y[j]*u[k]`, and of M's reshaped row it is `M[i][j][k]` |
| Layers.FlatDotIsBilinear | predictor_theano.py:129-130 | the flattened outer product dotted with M's reshaped row is `sum_j sum_k M[i][j][k]*y[j]*u[k]` |
| Layers.BilinearActivation | predictor_theano.py:124-134 | the activation succeeds iff the values fit the layer's shapes; it is a batch-by-`y_dim` matrix |
| Layers.BilinearActivationMeaning | predictor_theano.py:124-134 | `out[n][i]` is the bilinear form of M's row i, plus `sum_k N[i][k]*u[k]`, plus `b[i]` when present |
| LegacyTrain.TestAll | predictor_theano.py:232-239 | `test_iter == 0` raises `ZeroDivisionError`; a negative count draws nothing; otherwise the draws' outcome |
| LegacyTrain.Train | predictor_theano.py:155-230 | the loop's log and error are those of the training specification |
| LegacyTrain.Rates | predictor_theano.py:210-211 | the rates of iterations 0 .. n-1 are the schedule's rates, each defined when the stepsize is positive, or negative with a non-zero gamma |
| LegacyTrain.RateOk | predictor_theano.py:210-211 | the rate is defined at every iteration; for a positive stepsize it is `base_lr * gamma^(i / stepsize)` |
| LegacyTrain.RatesOk | predictor_theano.py:210-211 | every iteration below n has a rate |
| LegacyTrain.RatesPositiveStepsize | predictor_theano.py:210-211 | for a positive stepsize the rate of iteration k is `base_lr * gamma^(k / stepsize)` (integer division) |
| LegacyTrain.RateStep | predictor_theano.py:210-212 | the rate set at iteration i extends the rates before it |
| LegacyTrain.ValidateClean | predictor_theano.py:207-208 | a clean validation at i records i exactly when it is due |
| LegacyTrain.LoopStep | predictor_theano.py:206-222 | a clean iteration extends the closed-form log by one step |
| LegacyTrain.LoopAdvance | predictor_theano.py:206-222 | clean iterations i .. j-1 take the closed-form log from i to j |
| LegacyTrain.FinishClean | predictor_theano.py:224-230 | after the loop, `max_iter` is snapshotted unless it just was, and validated when due |
| LegacyTrain.TrainCompletes | predictor_theano.py:205-230 | a clean run sets the rates of all `max_iter` iterations, validates at the due iterations through `max_iter` and snapshots the due multiples and `max_iter`; no validation without `validate`, and no snapshot with `snapshot == 0` |
| LegacyTrain.MultiplesFacts | predictor_theano.py:221-222 | the in-loop snapshots are the positive multiples of `snapshot` up to the last iteration, in increasing order |
| LegacyTrain.FinalSnapshots | predictor_theano.py:221-225 | the snapshots are strictly increasing, end with `max_iter` and cover every multiple |
| LegacyTrain.TrainSnapshotsOnce | predictor_theano.py:221-225 | with `snapshot != 0` a clean run snapshots `max_iter` exactly once, last |
| LegacyTrain.LoopFails | predictor_theano.py:214-215 | a failing training call at i ends the loop there, with the log so far |
| LegacyTrain.TrainStepFails | predictor_theano.py:206-215 | the first failing draw or training call at f ends train with the rates through f, the validations through f and the snapshots before f |
| LegacyTrain.TrainZeroTestIter | predictor_theano.py:207-208 | with validation on and `test_iter == 0`, train raises `ZeroDivisionError` at the first validation |
| LegacyTrain.TrainZeroStepsize | predictor_theano.py:210 | a zero stepsize raises `ZeroDivisionError` at iteration 0, after its validation |
| LegacyTrain.TrainUnknownSolver | predictor_theano.py:184-192 | a solver type other than SGD and ADAM stops train before its loop with `TypeError` |
| LegacyTrain.SnapshotFiles | predictor_theano.py:241-242 | each snapshot writes `prefix + '_iter_%d.pkl' % iter_` |
| LegacyTrain.SnapshotFilesDistinct | predictor_theano.py:241-243 | distinct snapshot iterations write distinct files |
| RlUtil.SplitObservations | visual_dynamics/utils/rl_util.py:16-19 | both lists have one entry per trajectory, each of length `len - 1` (0 for an empty one); `curr[i][j] == obs[i][j]` and `next[i][j] == obs[i][j+1]` |
| RlUtil.SplitObservationsRebuild | visual_dynamics/utils/rl_util.py:16-19 | current plus last observation, and first plus next observations, rebuild the trajectory; next overlaps current shifted by one |
| RlUtil.Powers | visual_dynamics/utils/rl_util.py:23 | `gamma ** arange(n)` holds `gamma^i` at i |
| RlUtil.DiscountReturnNonNegative | visual_dynamics/utils/rl_util.py:22-23 | non-negative rewards and a non-negative gamma give a non-negative return |
| RlUtil.DiscountReturnEmpty | visual_dynamics/utils/rl_util.py:22-23 | an empty trajectory returns 0 |
| RlUtil.DiscountReturnAppend | visual_dynamics/utils/rl_util.py:22-23 | a reward appended at step n adds `reward * gamma^n` |
| RlUtil.DiscountReturnRecurrence | visual_dynamics/utils/rl_util.py:22-23 | return = first reward + gamma * return of the rest |
| RlUtil.UndiscountedReturn | visual_dynamics/utils/rl_util.py:217 | with gamma 1 the return is the plain sum of the rewards |
| RlUtil.NoDiscountFuture | visual_dynamics/utils/rl_util.py:22-23 | with gamma 0 only the first reward counts |
| RlUtil.DiscountReturns | visual_dynamics/utils/rl_util.py:26-27 | one return per trajectory, in order, each the discounted return of its rewards |

## Left out

- Theano and lasagne:
  - graph construction, `compile_train_fn`/`compile_val_fn` (apart from the layer lookups, the parse of `get_output_vars` and the `solver_type` dispatch) and the SGD, momentum and ADAM update rules;
  - the layers are looked up by name only: an `AttributeError` from `.input_var`, lasagne's own errors building the graph, and the `IndexError` of `input_vars[-1]` with no input names (the stored input names are never empty) are not modelled;
  - `compile_val_fn` in `TheanoNetSolver.step` repeats the lookups and the parse of `compile_train_fn`, so it raises nothing once that succeeded;
  - `get_loss_var` and `Deconv2DLayer.get_output_for`: foreign library code on symbolic tensors.
- lasagne's `as_tuple` and `conv_output_length` are not part of the repository. They are modelled from their documented behaviour.
- `compute_solver_terms`, `numpy.linalg.solve`, `post_fit` and the network's predictions are uninterpreted oracles: floating-point linear algebra in code that is not part of this model. Nothing is claimed about the fitted parameters.
- The data generators are out of scope because they are external code with multi-worker prefetching:
  - `ImageVelDataGenerator` and `ParallelGenerator` are the loss oracles;
  - `size()` and the batch size they are built with are not modelled.
- Persistence is modelled as an appended iteration number, because it is I/O:
  - h5py reads, YAML and cPickle writing, `open`;
  - `get_snapshot_prefix` (the prefix is a parameter).
- h5py's fancy-indexing rules (for instance, that an index list must be increasing) are not modelled; reads are plain indexing.
- Printing, `visualize_loss` and `net.plot` are output only. In `predictor/solver.py:237-238` the plot draws from `val_data_gen` even when validation is off; this is not modelled.
- Float conversion and rounding: losses, rates and returns are exact reals.
- `numpy.random.shuffle` is a given permutation, because it is randomness.
- `do_rollouts`, the servoing visualizer and `generate_data.py` are environment stepping and I/O.
- NetSolver.TheanoNetSolver.Step: the compilation errors and the `solver_type` check are raised without building the data generators, while the source builds them first. Building them changes no modelled state; the same holds for BilinearSolving.BilinearSolver.Step.
- LegacyTrain.TrainCompletes: a clean run is stated for a positive stepsize, or a negative one with a non-zero gamma. A negative stepsize with gamma 0 raises `ZeroDivisionError` at iteration 1; the loop specification models that, but no lemma states it.
- Minibatches.IndefiniteMinibatches.Next: the generator is over in-memory datasets. Opening the file and `close` on exit are not modelled, and neither is `r+` mode.
- BilinearFacts.AggregationSums: states the channelwise sums only when every batch has the same channel count as the first. Other counts raise `IndexError` or leave channels unsummed, and the accumulators are not described then.
- LegacyTrain.Train: the display branch at lines 226-228 prints `float(loss)` of a symbolic variable when `max_iter <= 0`; this printing path is not modelled.
- NetSolver.TheanoNetSolver.Iteration: the display branch and `visualize_loss` are left out, since they only print and plot.
