# Training-loop bookkeeping of `DeepNetTrainer`, in Dafny

This project models the bookkeeping core of `lib/pytorch_trainer_v2_mod.py`, a small
PyTorch training library. It proves properties of that model. Tensors stay opaque. The model,
criterion and optimizer reduce every batch to its size and what it reports: a loss (a
`real`, or `None` for a validation batch) and a count of correct predictions. Parameters
are reduced to a count of optimizer updates. Files are a map from basename to the
`.model` and `.histo` artifacts.

Modelled:

- **`DeepNetTrainer`** (`training.dfy`): its attributes, the constructor,
  `load_state`/`save_state`, and the delivery of one hook to one callback.
- **`fit` and `fit_loader`** (`fitting.dfy`): an interpreter with one step function per
  statement of the `try` block.
  - The hooks delivered are recorded as a trace of `Fired(callback, hook)` events.
  - A `KeyboardInterrupt` is a step budget: when it runs out, the next step raises.
  - The exceptions the modelled statements raise on the modelled inputs are modelled too:
    `ZeroDivisionError`; `TypeError` from `None + float`, from ranking a loss history
    that holds `None`, and from `ReduceLROnPlateau.step()` without its metrics;
    `IndexError`; `KeyError`; `AttributeError` for an attribute read before it was
    assigned; a missing checkpoint file; and `lr_find`'s `ValueError` for a negative
    rate. The exceptions listed under "## Left out" are not.
  - A hook that raises part way leaves its earlier effects behind, and the trainer
    reported after the exception includes them.
- **The meaning of `fit_loader`** (`reference.dfy`): an independent reference definition
  of what its epochs do to the trainer. No hooks, accumulators or interrupts are involved.
  - `epochs.dfy`, `fit_theory.dfy` and `traces.dfy` prove the interpreter against it, and
    prove the hook order.
- **`evaluate_loader`** (`evaluate.dfy`): its own smaller interpreter, proved in
  `evaluate_theory.dfy`.
- **`lr_find`** (`lrfind.dfy`): a method with loop invariants and a functional stopping rule.
- **The callbacks:**
  - `AccuracyMetric` (`accuracy.dfy`);
  - `ModelCheckpoint` (`checkpoint.dfy`);
  - `SGDRestarts` (`restarts.dfy`);
  - the decisions `PrintCallback` takes before printing (`printing.dfy`).
- **Helpers:**
  - `load_trainer_state`/`save_trainer_state` (`store.dfy`);
  - batch sizes, epoch losses and the `valid_split` partition (`batches.dfy`).

## Behaviour the model follows from the code

- `fit_loader` never assigns `last_epoch`. Epochs are numbered from `last_epoch + 1`, as
  the train-begin hooks leave it, and a call does not advance it.
  - Only `load_state` (line 257) and `ModelCheckpoint.on_train_begin` (line 468) set it,
    both to the length of the training history.
  - So two calls of `fit_loader` on one trainer number their epochs from the same
    `last_epoch + 1`, unless a checkpointer realigns it from a longer history.
- The interrupt is swallowed, and `on_train_end` still reaches every callback.
- With `ReduceLROnPlateau` and no validation loader, `valid_loss` is never reassigned.
  - The scheduler is stepped with a stale value from an earlier call.
  - If no earlier call assigned it, reading `self.valid_loss` raises `AttributeError`.
  - If it holds `None`, line 187 calls `step()` without the metrics that
    `ReduceLROnPlateau` requires, which raises `TypeError`. The same happens after an
    epoch whose validation entry is `None`.
- A validation batch whose loss is `None` makes the epoch entry `None`. A numeric loss after
  that raises `TypeError`. So does `PrintCallback`'s summary of any later epoch with a
  numeric validation loss, since `np.argmin` cannot compare `None` with a number.
- `ModelCheckpoint` monitors `valid[-1] or train[-1]`: a validation loss of `0.0` falls back
  to the training loss.
- `SGDRestarts` counts `Tcur` in epochs. Because `on_train_begin` copies the trainer's
  `last_epoch`, the first batch of a run already bumps `Tcur` to 1.
- `evaluate_loader` counts a batch's samples before evaluating it. An interrupt during the
  evaluation therefore puts that batch's samples into the mean's denominator but not its
  loss into the numerator.
- A `PrintCallback` passed to `evaluate_loader` always raises `IndexError`: its
  `on_epoch_end` reads the last training loss of a history whose training list is empty.
- In `lr_find` the budget test `i == num_it - 1` sits in the `elif`. A batch that improves
  on `best` never stops the sweep, even at the budget.

## Model

| member | source | states |
|---|---|---|
| Training.NewTrainer | lib/pytorch_trainer_v2_mod.py:25-43 | the constructor fails exactly when no model is given; otherwise the history is empty, `last_epoch` is 0, and the callbacks are the given list (or none) in order |
| Training.Dispatch | lib/pytorch_trainer_v2_mod.py:389-415 | delivering a hook to one callback never changes the configuration or any other callback, nor any callback's kind; hooks inside an epoch leave the loss histories, parameters and `last_epoch` alone |
| Training.Raised | lib/pytorch_trainer_v2_mod.py:441-476 | a hook that raises leaves the configuration, the optimizer, the disk and every other callback alone; only the accuracy tracker's `on_epoch_end` (training accuracy already appended) and the checkpointer's `on_train_begin` (resumed, `last_epoch` realigned to a non-empty history) leave changes behind; every other raising hook changes nothing |
| Training.LoadState | lib/pytorch_trainer_v2_mod.py:254-257 | `load_state` succeeds exactly when the `.model` file exists; it loads those parameters and the pickled history (or keeps the current one), and sets `last_epoch` to the number of training losses |
| Training.SaveState | lib/pytorch_trainer_v2_mod.py:259-262 | loading right after `save_state` gives back the trainer's parameters and history; files under other basenames are untouched |
| Training.SaveLoadState | lib/pytorch_trainer_v2_mod.py:254-262 | saving then loading under one name restores the saved parameters and history, whatever happened in between, and realigns `last_epoch` |
| Store.LoadTrainerState | lib/pytorch_trainer_v2_mod.py:361-364 | a missing `.model` file raises; a present `.histo` replaces the history wholesale (the top-level dict `update`), otherwise the history is kept |
| Store.SaveTrainerState | lib/pytorch_trainer_v2_mod.py:367-369 | both artifacts under the basename are overwritten and every other basename keeps its files |
| Store.SaveLoadRoundTrip | lib/pytorch_trainer_v2_mod.py:361-369 | loading what was just saved returns exactly the saved parameters and history |
| Store.SaveIsolated | lib/pytorch_trainer_v2_mod.py:361-369 | saving under one basename does not change what loads from another |
| Batches.NumBatches | lib/pytorch_trainer_v2_mod.py:89 | `n_batches` is the ceiling of samples over batch size: enough batches to cover the samples, one fewer would not, and at least one for a non-empty loader |
| Batches.CeilingUnique | lib/pytorch_trainer_v2_mod.py:89 | the two bounds of `NumBatches` determine it uniquely |
| Batches.BatchSizes | lib/pytorch_trainer_v2_mod.py:108 | the loader yields `n_batches` batches whose sizes add up to the sample count; every batch is full except possibly the last |
| Batches.ValidAccumulated | lib/pytorch_trainer_v2_mod.py:159-166 | the validation accumulation raises only `TypeError` (a number after `None`), and once `epo_loss` is `None` it stays `None` |
| Batches.ValidAccumulatedFromNone | lib/pytorch_trainer_v2_mod.py:159-166 | from `epo_loss = None` the phase raises exactly when some later batch reports a number |
| Batches.ValidAccumulatedMeaning | lib/pytorch_trainer_v2_mod.py:159-166 | from a number: it raises exactly when a `None` batch is followed by a numeric one; otherwise the result is a number exactly when every batch reported one, and then it is the ordinary weighted or plain sum |
| Batches.WeightedEpochLossBounds | lib/pytorch_trainer_v2_mod.py:123-132 | with `size_average` the epoch loss `epo_loss / epo_samples` is a weighted mean: it lies between the smallest and largest batch loss |
| Batches.ConstantEpochLoss | lib/pytorch_trainer_v2_mod.py:123-132 | with `size_average` and every batch loss equal to `c`, the epoch loss is `c` |
| Batches.Trunc | lib/pytorch_trainer_v2_mod.py:50 | Python's `int()` on a float truncates toward zero, for either sign |
| Batches.SliceCut | lib/pytorch_trainer_v2_mod.py:51-52 | a slice index is clamped into the sequence and counts from the end when negative; an in-range index is kept |
| Batches.ValidSplit | lib/pytorch_trainer_v2_mod.py:49-54 | `valid_split` partitions the examples: validation part then training part concatenate back to the input, cut at `int(valid_split * N)` |
| Batches.ValidSplitSize | lib/pytorch_trainer_v2_mod.py:49-54 | for a fraction in [0, 1] the validation part holds `floor(valid_split * N)` examples and the training part the rest |
| Batches.FitLoaders | lib/pytorch_trainer_v2_mod.py:45-58 | explicit validation data wins over a split; a split divides the samples between the two loaders; with neither there is no validation loader; both use the batch size |
| Batches.FitLoadersSplit | lib/pytorch_trainer_v2_mod.py:50-55 | with a split and no `valid_data`, the validation loader holds the first part of the samples as `valid_split` slices them and the training loader the rest |
| Accuracy.OnTrainBegin | lib/pytorch_trainer_v2_mod.py:447-449 | registers an empty `acc` list in both phases, keeps every other metric, and leaves the loss histories alone |
| Accuracy.OnEpochBegin | lib/pytorch_trainer_v2_mod.py:435-439 | every epoch starts with all four counters at zero |
| Accuracy.OnBatchEnd | lib/pytorch_trainer_v2_mod.py:423-427 | adds the batch's correct predictions and samples to the training counters only |
| Accuracy.OnVBatchEnd | lib/pytorch_trainer_v2_mod.py:429-433 | adds the batch's correct predictions and samples to the validation counters only |
| Accuracy.OnEpochEnd | lib/pytorch_trainer_v2_mod.py:441-445 | appends `correct / total` to a phase exactly when that phase saw a sample; raises `KeyError` when `acc` is not registered there; never touches the loss histories |
| Accuracy.OnEpochEndRaised | lib/pytorch_trainer_v2_mod.py:441-445 | when `on_epoch_end` raises, the training accuracy is already appended exactly when the training phase saw a sample and has an `acc` list (the validation append raised); the result is what a call without validation samples returns, or the untouched metrics; losses and validation metrics are unchanged |
| Accuracy.AppendedAccuracyInUnitInterval | lib/pytorch_trainer_v2_mod.py:441-445 | every appended accuracy lies in [0, 1] when the counters are consistent |
| Accuracy.TrainCountersAreSums | lib/pytorch_trainer_v2_mod.py:423-427 | after a run of batch ends the training counters are the sums of the corrects and sizes; the validation counters are untouched |
| Accuracy.EpochTrainAccuracy | lib/pytorch_trainer_v2_mod.py:423-445 | an epoch from reset counters appends exactly `Σk_i / Σm_i` to the training `acc` list |
| Checkpoint.MonitoredFallback | lib/pytorch_trainer_v2_mod.py:476 | `valid or train` monitors the validation loss only when it is a non-zero number; `None` and `0.0` both fall back to the training loss |
| Checkpoint.LastMonitored | lib/pytorch_trainer_v2_mod.py:488 | reading `valid[-1] or train[-1]` raises `IndexError` exactly when a list it reads is empty |
| Checkpoint.OnTrainBegin | lib/pytorch_trainer_v2_mod.py:462-476 | unless `reset`, resumes from an existing `.model`; always sets `last_epoch` to the length of the training history; the best loss is `1e10` for a fresh history and the last monitored loss otherwise; the best model is the current one; raises exactly when that loss cannot be read; its parameters, history and `last_epoch` are those of `Resumed` |
| Checkpoint.Resumed | lib/pytorch_trainer_v2_mod.py:462-474 | what `on_train_begin` has done before it reads the monitored loss, and so leaves behind when that read raises: the resumed parameters and history (loaded unless `reset` or the file is missing), `last_epoch` equal to the history length, and the best at `1e10`, that epoch and the current model |
| Checkpoint.OnEpochEnd | lib/pytorch_trainer_v2_mod.py:487-496 | saves exactly when the monitored loss is strictly below the best; the best loss becomes the minimum of the two and never increases; without a save nothing changes |
| Checkpoint.Replay | lib/pytorch_trainer_v2_mod.py:487-496 | over a run of epochs, the epochs at which the checkpointer saves are among the epochs fed and strictly increasing |
| Checkpoint.OnTrainEnd | lib/pytorch_trainer_v2_mod.py:478-485 | with `load_best` the saved model and history are reloaded (a missing file raises); otherwise nothing changes |
| Checkpoint.ReplaySavesRecords | lib/pytorch_trainer_v2_mod.py:487-496 | over a run of epochs the checkpointer saves at exactly the epochs whose loss is a strict record; a tie does not save |
| Checkpoint.TwoSavesExample | lib/pytorch_trainer_v2_mod.py:474-496 | from a fresh history, losses 0.5, 0.5, 0.4, 0.6 save at epochs 1 and 3 only |
| Checkpoint.ZeroValidationNotSaved | lib/pytorch_trainer_v2_mod.py:488-489 | a perfect validation loss of `0.0` is replaced by the training loss, so it does not count as a record |
| Restarts.New | lib/pytorch_trainer_v2_mod.py:705-720 | the constructor's asserts hold exactly when it succeeds; it starts a first period of length `To` with `Tcur = 0` and no restarts |
| Restarts.Advance | lib/pytorch_trainer_v2_mod.py:743-758 | `Tcur` grows by exactly 1 on the first call with a later epoch and never otherwise; at `Tcur == Ti` it resets to 0, `restarts` grows by 1 and `Ti` is multiplied by `Tmul`; the invariant `0 <= Tcur < Ti = To * Tmul^restarts` is kept |
| Restarts.AdvanceIdempotent | lib/pytorch_trainer_v2_mod.py:743-758 | a second call within the same epoch changes nothing |
| Restarts.NextPeriod | lib/pytorch_trainer_v2_mod.py:758 | the period after a restart is the previous one times `Tmul`, and stays positive |
| Restarts.Phase | lib/pytorch_trainer_v2_mod.py:762-763 | the cosine argument `x * pi / Ti` is `pi` times `(Tcur*n + cbatch) / max(1, Ti*n - 1)`: the `Ti` in the step cancels |
| Restarts.PhaseInUnitInterval | lib/pytorch_trainer_v2_mod.py:762-763 | the phase `x / Ti` lies in [0, 1] inside a period and inside an epoch |
| Restarts.PhaseAtPeriodEnds | lib/pytorch_trainer_v2_mod.py:762-763 | the phase is 0 at the first batch of a period and 1 at its last batch when `Ti * n >= 2` |
| Restarts.GetLr | lib/pytorch_trainer_v2_mod.py:741-767 | `get_lr` leaves a valid schedule (`Tcur` inside the period `To * Tmul ** restarts`) and anneals between `eta_min` and the given rate; the phase of a batch of the epoch lies in [0, 1]; as the comment on lines 760-761 promises, the first batch of a period is at phase 0 (rate `lr`) and its last at phase 1 (rate `eta_min`), except when `Ti * n_batches == 1`, where the single batch stays at phase 0 and `eta_min` is never reached |
| Restarts.PhaseLandmarks | lib/pytorch_trainer_v2_mod.py:760-763 | inside a period the phase `(Tcur * n + cbatch) / max(1, Ti * n - 1)` is in [0, 1] for every batch of the epoch, 0 at the first batch and 1 at the last when `Ti * n >= 2` |
| Restarts.SingleBatchPeriod | lib/pytorch_trainer_v2_mod.py:760-763 | with one period of one batch, that batch is both the first and the last of the period and is at phase 0: the promised `eta_min` at the last batch is not reached |
| Restarts.StepGroups | lib/pytorch_trainer_v2_mod.py:778-779 | every parameter group gets the rate annealed from its own `initial_lr` at the same phase |
| Restarts.Step | lib/pytorch_trainer_v2_mod.py:770-780 | without a batch index `step` changes nothing; otherwise every parameter group gets the rate annealed from its own `initial_lr` at the phase of the advanced counters, the counters advance once (not at all without groups), and `last_epoch` becomes the epoch given, or the previous one plus one |
| Restarts.OnTrainBegin | lib/pytorch_trainer_v2_mod.py:783-784 | the schedule takes over the trainer's `last_epoch` |
| Restarts.OnBatchBegin | lib/pytorch_trainer_v2_mod.py:791-794 | records the first group's rate before stepping; an empty group list raises; counters advance as in `Advance` |
| Restarts.RateBetweenEtaMinAndInitial | lib/pytorch_trainer_v2_mod.py:760-767 | whatever cosine in [-1, 1], every rate written lies between `eta_min` and the group's initial rate |
| Restarts.ConstantPeriodRestarts | lib/pytorch_trainer_v2_mod.py:741-758 | with `Tmul = 1`, after `count` epochs `Tcur` is the epoch count modulo `To`, and `restarts` grows by the number of completed periods |
| Restarts.RestartEveryFourEpochs | lib/pytorch_trainer_v2_mod.py:741-758 | with `To = 4`: the first epoch bumps `Tcur` to 1; the fourth epoch restarts; with `Tmul = 2` the second period lasts 8 epochs |
| Optim.AnnealedBetween | lib/pytorch_trainer_v2_mod.py:767 | the annealed rate lies between `eta_min` and the initial rate for any cosine value in [-1, 1] |
| Optim.AnnealedEnds | lib/pytorch_trainer_v2_mod.py:760-767 | at phase 0 the rate is the initial rate, at phase 1 it is `eta_min` |
| Printing.SampledFrom | lib/pytorch_trainer_v2_mod.py:542 | the batches of `b .. n-1` that print a progress line are listed in increasing order, and each passes the `n_batches < 4 or batch % (n_batches // 4) == 0` test |
| Printing.ShortEpochsPrintEveryBatch | lib/pytorch_trainer_v2_mod.py:542 | with fewer than four batches every batch prints a progress line |
| Printing.PrintsMultiples | lib/pytorch_trainer_v2_mod.py:542 | from the `j`-th multiple of `n // 4` on, exactly the remaining multiples below `n` print |
| Printing.QuarterProgress | lib/pytorch_trainer_v2_mod.py:542 | with four or more batches an epoch prints exactly batches `0, q, 2q, ...` for `q = n // 4` |
| Printing.FirstArgMin | lib/pytorch_trainer_v2_mod.py:523 | `np.argmin` is the first position holding the smallest value |
| Printing.FirstArgMinUnique | lib/pytorch_trainer_v2_mod.py:523 | being minimal and first determines the position |
| Printing.StarMarksNewMinimum | lib/pytorch_trainer_v2_mod.py:523-534 | when the epoch number equals the history length, the latest epoch is starred exactly when its value is strictly below every earlier one |
| Printing.OnEpochEnd | lib/pytorch_trainer_v2_mod.py:515-538 | `on_epoch_end` raises `TypeError` exactly when no rate is missing, every training list holds an entry, and the validation loss history holds `None` before a numeric latest entry; it raises `IndexError` in every other failing case: no rate recorded, or a list it reads is empty; otherwise it succeeds |
| Printing.NoneThenNumberRaises | lib/pytorch_trainer_v2_mod.py:515-538 | once an epoch recorded no validation loss, the summary of a later epoch with a numeric validation loss raises `TypeError` |
| Hooks.Broadcast | lib/pytorch_trainer_v2_mod.py:91-92 | a hook loop delivers the hook to callbacks `0 .. n-1`, one event each, in registration order |
| Fitting.CallsBroadcast | lib/pytorch_trainer_v2_mod.py:91-92 | delivering from callback 0 on is the broadcast of the hook |
| Fitting.NotifyTrace | lib/pytorch_trainer_v2_mod.py:100-101 | a hook loop that raises nothing appends exactly the deliveries to the remaining callbacks |
| Fitting.Conclude | lib/pytorch_trainer_v2_mod.py:190-194 | after the `try` block, an interrupt is swallowed and the train-end hooks run; any other exception escapes at once; a call completes exactly when neither part raised |
| Fitting.FitLoader | lib/pytorch_trainer_v2_mod.py:86-194 | without an interrupt a call never ends interrupted; unless an exception other than `KeyboardInterrupt` escaped, the trace ends with `on_train_end` delivered to every callback in order, even after an interrupt |
| Fitting.Fit | lib/pytorch_trainer_v2_mod.py:45-58 | `fit` is `fit_loader` over loaders of the batch size: with `valid_data`, all samples train and `valid_data` validates; otherwise, with `valid_split`, the first `int(valid_split * N)` samples of the Python slice validate and the rest train; with neither there is no validation loader |
| Phases.TrainLoopEffect | lib/pytorch_trainer_v2_mod.py:108-129 | training batches that raise nothing make one optimizer step each and add every batch's contribution to `epo_loss` and its size to `epo_samples` |
| Phases.ValidLoopEffect | lib/pytorch_trainer_v2_mod.py:145-169 | validation batches leave `epo_loss` as the accumulation of their losses and `epo_samples` as their total size, and make no optimizer step |
| Phases.ValidLoopPlain | lib/pytorch_trainer_v2_mod.py:145-169 | with hooks that do nothing and no interrupt, the validation batches raise exactly when the accumulation does |
| Reference.TrainEpochLoss | lib/pytorch_trainer_v2_mod.py:103-132 | the recorded training loss exists exactly when the loader is non-empty |
| Reference.TrainEpochLossIsWeightedMean | lib/pytorch_trainer_v2_mod.py:123-132 | with `size_average` the recorded training loss lies between the smallest and largest batch loss |
| Reference.ValidEpochLossMeaning | lib/pytorch_trainer_v2_mod.py:140-176 | the epoch's validation entry raises `TypeError` exactly when a number follows a `None`; is `None` exactly when some batch reported `None` and no number followed; raises `ZeroDivisionError` exactly for an empty loader; is the mean otherwise |
| Reference.SchedulerLog | lib/pytorch_trainer_v2_mod.py:184-188 | no scheduler is not stepped; an ordinary one is stepped once without argument; `ReduceLROnPlateau` is stepped with `valid_loss` when that holds a number, and raises `AttributeError` when it was never assigned and `TypeError` (`step()` without metrics) when it is `None` |
| Reference.PlainEpochRecord | lib/pytorch_trainer_v2_mod.py:95-188 | one epoch appends one training loss and one validation entry, makes one step per batch, leaves `last_epoch` alone, and fails exactly as the code does |
| Reference.PlainEpochsCongruent | lib/pytorch_trainer_v2_mod.py:95-188 | trainers that agree on their bookkeeping run any number of epochs alike |
| Reference.LoopFailure | lib/pytorch_trainer_v2_mod.py:132-188 | an empty training loader fails the first epoch; without validation the epochs fail exactly when `ReduceLROnPlateau` meets a `valid_loss` that holds no number, with `AttributeError` if it was never assigned and `TypeError` if it is `None` |
| Reference.LoopSchedule | lib/pytorch_trainer_v2_mod.py:178-188 | without validation `valid_loss` is never reassigned; an ordinary scheduler is stepped once per epoch |
| Reference.LoopPlateau | lib/pytorch_trainer_v2_mod.py:172-188 | `ReduceLROnPlateau` is stepped with each epoch's validation entry; without validation, with the same stale `valid_loss` every epoch, which must hold a number |
| Reference.PlainEpochsHistory | lib/pytorch_trainer_v2_mod.py:103-179 | `count` completed epochs append one training loss and one validation entry each, make one step per batch, keep `last_epoch`, and keep aligned histories aligned |
| Reference.PlainEpochsSchedule | lib/pytorch_trainer_v2_mod.py:132-188 | how `count` epochs fail and how they step the scheduler: an empty training loader raises `ZeroDivisionError`; without validation `ReduceLROnPlateau` raises exactly when `valid_loss` holds no number (`AttributeError` never assigned, `TypeError` for `None`) and is otherwise stepped with that stale value every epoch; an ordinary scheduler gets one call without argument per epoch |
| EpochEffects.EpochEffect | lib/pytorch_trainer_v2_mod.py:95-188 | an interpreted epoch that raises nothing agrees with the reference epoch on history, parameters, `last_epoch`, configuration, scheduler log and stored losses, whatever the callbacks do; a failing reference epoch makes the interpreted one raise |
| EpochEffects.EpochPlain | lib/pytorch_trainer_v2_mod.py:95-188 | with callbacks that do nothing and no interrupt, an interpreted epoch is exactly the reference epoch, error included |
| EpochEffects.EpochsPlain | lib/pytorch_trainer_v2_mod.py:95-194 | with callbacks that do nothing and no interrupt, the epoch loop raises exactly the reference epochs' first error, or ends with exactly their trainer, and touches no file |
| FitTheory.FitLoaderPlain | lib/pytorch_trainer_v2_mod.py:86-194 | with callbacks that do nothing and no interrupt, `fit_loader` completes exactly when the reference epochs from `last_epoch + 1` succeed, leaves their trainer, raises their error otherwise, and writes no file |
| FitTheory.FitLoaderAgrees | lib/pytorch_trainer_v2_mod.py:86-194 | whatever the callbacks do (short of a checkpointer) and wherever an interrupt comes, a call that completes agrees with the reference epochs on history, parameters, `last_epoch`, configuration, scheduler log and stored losses; a failing reference means the call does not complete |
| FitTheory.FitLoaderEmptyLoader | lib/pytorch_trainer_v2_mod.py:132 | an empty training loader raises `ZeroDivisionError` in the first epoch |
| FitTheory.FitLoaderResumeCrash | lib/pytorch_trainer_v2_mod.py:462-476 | when a sole checkpointer's `on_train_begin` raises `IndexError` reading the resumed history, the call escapes with it after that one hook, and the trainer it reports holds the resumed parameters and history and the realigned `last_epoch` |
| FitTheory.FitLoaderHistory | lib/pytorch_trainer_v2_mod.py:95-179 | a completed call appends one training loss (the epoch's mean) and one validation entry per epoch, makes one step per batch, never moves `last_epoch` and writes no file |
| FitTheory.FitLoaderStaleLoss | lib/pytorch_trainer_v2_mod.py:178-188 | without validation, `ReduceLROnPlateau` lets a call complete exactly when an earlier call left a number in `valid_loss`; it is then stepped with that stale value every epoch; otherwise the call escapes with `AttributeError` (never assigned) or `TypeError` (`None`) |
| Traces.EpochAppends | lib/pytorch_trainer_v2_mod.py:100-182 | an epoch that raises nothing appends to the trace `on_epoch_begin`, then `batch_begin`/`batch_end` per training batch, then `vbatch_begin`/`vbatch_end` per validation batch when validation is present, then `on_epoch_end` |
| Traces.FitLoaderTrace | lib/pytorch_trainer_v2_mod.py:86-194 | a completed call delivers exactly `on_train_begin` to every callback, the hooks of each epoch in turn, then `on_train_end` to every callback |
| Traces.FitLoaderHookOrder | lib/pytorch_trainer_v2_mod.py:95 | without a checkpointer the epochs of a completed call are numbered from the caller's `last_epoch + 1` |
| Evaluation.Respond | lib/pytorch_trainer_v2_mod.py:200-249 | a metric callback never changes kind or the loss lists; only `on_epoch_end` can raise, with `IndexError` or `KeyError`, or `TypeError` for a `PrintCallback` given a non-empty training history; a `PrintCallback` at `on_epoch_end` with no training loss raises `IndexError` |
| Evaluation.Settle | lib/pytorch_trainer_v2_mod.py:241-246 | after the `try` block the interrupt is swallowed; the mean loss is appended only when `epo_loss` is a number and a batch was counted |
| Evaluation.Swept | lib/pytorch_trainer_v2_mod.py:199-239 | the callbacks keep their kinds, the training lists stay empty, nothing is appended to the validation losses inside the `try` block, and without an interrupt none is pending |
| Evaluation.EvaluateLoader | lib/pytorch_trainer_v2_mod.py:196-252 | `evaluate_loader` raises only `TypeError`, `IndexError` or `KeyError` (never `ZeroDivisionError`), and records at most one loss |
| EvaluationTheory.EvaluateBatchesTrace | lib/pytorch_trainer_v2_mod.py:200-249 | a pass that returns delivers `on_train_begin` and `on_epoch_begin` interleaved per callback, then its batch hooks, then `on_epoch_end` to every callback; without an interrupt the middle is exactly `on_vbatch_end` per batch to every callback, with no `on_vbatch_begin` |
| EvaluationTheory.EvaluateLoaderTrace | lib/pytorch_trainer_v2_mod.py:196-252 | the same hook order for a loader's batches |
| EvaluationLoss.EvaluateBatchesQuiet | lib/pytorch_trainer_v2_mod.py:204-246 | without callbacks and interrupt, the pass raises exactly when the accumulation does; otherwise it returns no metric and the mean loss when a batch was seen |
| EvaluationLoss.EvaluateLoaderLoss | lib/pytorch_trainer_v2_mod.py:196-252 | `evaluate_loader` computes the same loss as `fit_loader`'s validation phase: it raises exactly on `TypeError`, records that entry when it is a number and nothing when it is `None`; an empty loader returns no loss instead of dividing by zero |
| EvaluationLoss.EvaluateBatchesAccuracy | lib/pytorch_trainer_v2_mod.py:200-249 | with a lone `AccuracyMetric` the pass raises as without callbacks; otherwise `acc` holds the correct predictions over all samples, or nothing for an empty loader |
| EvaluationLoss.EvaluateLoaderAccuracy | lib/pytorch_trainer_v2_mod.py:196-252 | the same for a loader's batches |
| EvaluationLoss.EvaluateBatchesPrinter | lib/pytorch_trainer_v2_mod.py:248-249 | any `PrintCallback` among the metrics makes the pass raise, with or without an interrupt |
| EvaluationLoss.EvaluateLoaderPrinter | lib/pytorch_trainer_v2_mod.py:196-252 | the same for a loader's batches |
| EvaluationLoss.EmptyLoop | lib/pytorch_trainer_v2_mod.py:212-230 | without callbacks and with `k` steps before the interrupt, the first `min(k/2, n)` batches are counted and evaluated, and with `k` odd one more batch is counted but not evaluated |
| EvaluationLoss.EvaluateBatchesInterrupted | lib/pytorch_trainer_v2_mod.py:208-246 | without callbacks, an interrupted pass swallows the interrupt and records the loss of the evaluated batches divided by their samples plus those of the batch cut short |
| EvaluationLoss.EvaluateLoaderInterrupted | lib/pytorch_trainer_v2_mod.py:196-252 | the same for a loader's batches |
| LrFinder.LrFind | lib/pytorch_trainer_v2_mod.py:305-358 | a zero `min_lr` or budget, or a zero `max_lr` with a negative budget in the exponential sweep, raises `ZeroDivisionError` before anything changes, and a negative `min_lr` raises `ValueError` from the SGD constructor; otherwise `tmp` is written, and the `finally` block restores model and history and sets `last_epoch` to the history length, interrupted or not; the call raises `KeyboardInterrupt` exactly when the interrupt comes before the sweep stops, and otherwise succeeds and returns one rate and one loss per processed batch |
| LrFinder.SweepLoader | lib/pytorch_trainer_v2_mod.py:327-346 | the loop processes exactly the batches up to the first one the stopping rule picks (or all), with one optimizer step, one rate and one loss each |
| LrFinder.Scan | lib/pytorch_trainer_v2_mod.py:341-346 | the number of processed batches never exceeds the loader's length, and a stop before the end comes after at least one batch |
| LrFinder.ScanFirstStop | lib/pytorch_trainer_v2_mod.py:341-346 | the sweep breaks only after a non-improving batch whose loss exceeds `10000 * best` or whose index is `num_it - 1`, and never at an earlier such batch |
| LrFinder.BestIsMinimum | lib/pytorch_trainer_v2_mod.py:310-343 | `best` is at most every loss seen and is either `1e9` or one of them |
| LrFinder.RatesAt | lib/pytorch_trainer_v2_mod.py:315-330 | the `j`-th recorded rate is the one the scheduler writes at its step `j + 1` |
| LrFinder.LinearRates | lib/pytorch_trainer_v2_mod.py:307-316 | with the linear multiplier `(max_lr / min_lr) / num_it`, the `it`-th rate is `max_lr * it / num_it`: evenly spaced, starting at `max_lr / num_it` and reaching `max_lr` at `it = num_it` |
| LrFinder.ImprovingIgnoresBudget | lib/pytorch_trainer_v2_mod.py:342-345 | with `num_it = 2` and losses 1.0, 0.5, 0.25 all three batches run: the budget test never fires on an improving batch |
| LrFinder.BlowUpStops | lib/pytorch_trainer_v2_mod.py:344-345 | a loss over `10000 * best` stops the sweep right after it is recorded |

## Left out

- Tensor work: forward and backward passes, `optimizer.step`, `torch.max` and
  `softmax`, and the `predict*` functions. A batch is reduced to its size, a loss and a
  count of correct predictions, given as a function of (epoch, batch).
- Device transfer, `_to_device`, and the construction and shuffling of `DataLoader` and
  `TensorDataset`. Only loader sizes are kept.
- File I/O: `torch.save`, `torch.load`, `pickle`, `os.makedirs` and `os.path.isfile`.
  Files are a map from basename to artifacts.
- Plotting, console text and timing: `PlotCallback`, `VisdomCallback`, `plot_losses`,
  `SGDRestarts.plot`, `lr_find`'s `plt` calls, `print`, and `time.time`.
  `PrintCallback` is kept only through its decisions, its `IndexError` and its `TypeError`.
- `math.cos` is symbolic: a rate is `Annealed(eta_min, initial, phase)`. Properties are
  proved for every stand-in cosine with values in [-1, 1].
- LrFinder.SweepRate: the exponential `lr_find` multiplier `ratio ** (1 / num_it)` is
  kept symbolic as `Geometric(min_lr, ratio, it / num_it)`. It equals
  `min_lr * (ratio ** (1 / num_it)) ** it` only for a positive ratio; for a negative
  one Python computes a complex number. No property of its value is proved.
- Floating-point rounding: losses and rates are exact reals.
- `_LRScheduler`, `LambdaLR` and `ReduceLROnPlateau` internals. The epoch-wise scheduler
  is reduced to a log of its `step` arguments, and `LambdaLR` to `min_lr * lambda(it)`
  after step `it`.
- Where a `KeyboardInterrupt` can land: only at step boundaries of the `try` blocks.
  - `fit_loader` and `evaluate_loader` count one step per hook delivery and per batch
    statement.
  - `lr_find` counts one step per batch.
  - An interrupt outside a `try` block, for example during `evaluate_loader`'s opening
    hooks, is not modelled.
- Restarts.OnBatchBegin: the schedule's optimizer is taken to be the trainer's.
  `SGDRestarts` keeps the optimizer handed to its constructor (lines 705 and 717), and
  `Training.ToRestarts` reads and writes the trainer's `optimizer` instead. A schedule
  built on another optimizer is not modelled.
- `PrintCallback.on_epoch_begin` reads `self.trainer.optimizer.state_dict()` (line 513).
  The model's trainer always has an optimizer, a list of parameter groups, so the
  `AttributeError` of a trainer built with `optimizer=None` is not modelled. Nor is the
  same failure in `_do_optimize` (lines 65-69), which is opaque.
- A callback used by a trainer other than the one it was registered with (`cb.trainer`,
  line 43) is not modelled: every callback reads the trainer that delivers its hook.
- Evaluation.EvaluateLoader: its error contract also allows `KeyError`, which no modelled
  callback can raise there, because `AccuracyMetric.on_train_begin` registers `acc` first.
- Restarts.New: `To` and `Tmul` are whole numbers. The constructor accepts any positive
  number; with a fractional `Tmul` the period `Ti` becomes a float that the integer
  `Tcur` may never equal again, so the schedule stops restarting. This is not modelled.
- `ModelCheckpoint.on_train_begin` also copies `last_epoch` into the epoch-wise scheduler
  (lines 469-470). The scheduler is reduced to a log of its `step` arguments, so this is
  not modelled.
- Only `AccuracyMetric`, `PrintCallback` and the base `Callback` are modelled as
  `evaluate_loader` metrics. Passing a `ModelCheckpoint` or `SGDRestarts` there is not
  modelled.
- `evaluate` is a thin wrapper: `EvaluateLoader` on a single loader.
- `summary`, `predict*`, `_do_optimize` and `_do_evaluate` are opaque. Their results are
  the per-batch inputs above.

