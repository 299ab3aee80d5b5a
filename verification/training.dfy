/** `DeepNetTrainer`'s state (lines 23-43), its callbacks, the delivery of one hook to
    one callback, and `load_state` / `save_state` (lines 254-262). */
module Training {
  import opened Base
  import opened Batches
  import opened Store
  import opened Optim
  import opened Hooks
  import Accuracy
  import Checkpoint
  import Restarts
  import Printing

  /** The callbacks whose hooks do something the trainer can observe. `Plain` is the
      `Callback` base class (and any callback that only prints or plots): every hook is
      a no-op. `Printer` is `PrintCallback`, reduced to how many rates it recorded at
      `on_epoch_begin`. */
  datatype Callback =
    | Plain
    | AccuracyMetric(acc: Accuracy.State)
    | ModelCheckpoint(ckpt: Checkpoint.State)
    | SgdRestarts(sgdr: Restarts.Sgdr)
    | Printer(rateCount: nat)

  /** The epoch-wise scheduler handed to the constructor: `ReduceLROnPlateau`, which is
      stepped with the validation loss, or any other one, stepped without argument. */
  datatype SchedulerKind = ReduceOnPlateau | EpochScheduler

  /** The attributes of a trainer the modelled code reads or writes. The model and the
      optimizer's parameters are reduced to `params`; `validLoss` is `None` while the
      attribute has never been assigned and `Some(None)` once it holds Python `None`;
      `schedulerCalls` logs the argument of every `scheduler.step` call. */
  datatype Trainer = Trainer(
    params: Params,
    optimizer: seq<Group>,
    scheduler: Option<SchedulerKind>,
    schedulerCalls: seq<Option<real>>,
    sizeAverage: bool,
    metrics: Metrics,
    lastEpoch: nat,
    callbacks: seq<Callback>,
    nBatches: nat,
    trainLoss: Option<real>,
    validLoss: Option<Option<real>>)

  /** Whether `self.valid_loss` holds a number, the `metrics` that
      `ReduceLROnPlateau.step` requires. */
  predicate HoldsLoss(t: Trainer) {
    t.validLoss.Some? && t.validLoss.value.Some?
  }

  /** What stepping `ReduceLROnPlateau` raises when `self.valid_loss` holds no number:
      `AttributeError` when it was never assigned, `TypeError` when it is `None`, since
      `step()` is then called without its `metrics`. */
  function PlateauError(t: Trainer): Error {
    if t.validLoss.None? then MissingAttribute("valid_loss") else MissingArgument("metrics")
  }

  /** `__init__`: a model is required; the history starts empty, `last_epoch` at 0, and
      the callbacks are registered in the order given. `sizeAverage` stands for
      `hasattr(criterion, 'size_average') and criterion.size_average`. */
  function NewTrainer(model: Option<Params>, optimizer: seq<Group>, scheduler: Option<SchedulerKind>,
                      callbacks: Option<seq<Callback>>, sizeAverage: bool): (r: Result<Trainer>)
    ensures r.Ok? <==> model.Some?
    ensures r.Err? ==> r.error == AssertionFailed("model is not None")
    ensures r.Ok? ==> r.value.params == model.value && r.value.lastEpoch == 0
    ensures r.Ok? ==> r.value.metrics == Fresh() && Aligned(r.value.metrics)
    ensures r.Ok? ==> r.value.callbacks == (if callbacks.Some? then callbacks.value else [])
    ensures r.Ok? ==> r.value.optimizer == optimizer && r.value.scheduler == scheduler
    ensures r.Ok? ==> r.value.schedulerCalls == [] && r.value.validLoss.None?
  {
    if model.None? then Err(AssertionFailed("model is not None"))
    else Ok(Trainer(model.value, optimizer, scheduler, [], sizeAverage, Fresh(), 0,
                    if callbacks.Some? then callbacks.value else [], 0, None, None))
  }

  /** The parts of a trainer that no callback touches. */
  predicate SameSetup(t: Trainer, u: Trainer) {
    u.scheduler == t.scheduler && u.schedulerCalls == t.schedulerCalls &&
    u.sizeAverage == t.sizeAverage && u.nBatches == t.nBatches &&
    u.trainLoss == t.trainLoss && u.validLoss == t.validLoss &&
    |u.callbacks| == |t.callbacks|
  }

  /** The kind of callback, ignoring its state. */
  predicate SameKind(a: Callback, b: Callback) {
    (a.Plain? && b.Plain?) || (a.AccuracyMetric? && b.AccuracyMetric?) ||
    (a.ModelCheckpoint? && b.ModelCheckpoint?) || (a.SgdRestarts? && b.SgdRestarts?) ||
    (a.Printer? && b.Printer?)
  }

  predicate HasCheckpoint(cbs: seq<Callback>) {
    exists i :: 0 <= i < |cbs| && cbs[i].ModelCheckpoint?
  }

  /** What delivering `hook` to callback `i` may change: only callback `i`'s own state
      (never its kind); within an epoch neither the history, the parameters nor
      `last_epoch`; `last_epoch` only at `on_train_begin`; the history, the parameters and
      the disk only through a checkpoint callback; the optimizer only through SGDR at
      `on_batch_begin`. */
  predicate Delivered(t: Trainer, disk: Disk, i: nat, hook: Hook, r: Result<(Trainer, Disk)>)
    requires i < |t.callbacks|
  {
    r.Ok? ==>
      SameSetup(t, r.value.0) &&
      (forall j :: 0 <= j < |t.callbacks| ==>
         SameKind(t.callbacks[j], r.value.0.callbacks[j]) && (j != i ==> r.value.0.callbacks[j] == t.callbacks[j])) &&
      (hook.InEpoch() ==>
         r.value.0.metrics.trainLosses == t.metrics.trainLosses &&
         r.value.0.metrics.validLosses == t.metrics.validLosses &&
         r.value.0.params == t.params && r.value.0.lastEpoch == t.lastEpoch) &&
      (!hook.TrainBegin? ==> r.value.0.lastEpoch == t.lastEpoch) &&
      (!t.callbacks[i].ModelCheckpoint? ==>
         r.value.0.metrics.trainLosses == t.metrics.trainLosses &&
         r.value.0.metrics.validLosses == t.metrics.validLosses &&
         r.value.0.params == t.params && r.value.0.lastEpoch == t.lastEpoch && r.value.1 == disk) &&
      (!(t.callbacks[i].SgdRestarts? && hook.BatchBegin?) ==> r.value.0.optimizer == t.optimizer)
  }

  /** Deliver `hook` to callback `i` (the `cb.on_...(...)` call inside the trainer's
      loops). A callback acts on the trainer it is bound to: its history, parameters,
      `last_epoch`, optimizer and the files on disk. */
  function Dispatch(t: Trainer, disk: Disk, i: nat, hook: Hook): (r: Result<(Trainer, Disk)>)
    requires i < |t.callbacks|
    ensures r.Ok? ==> SameSetup(t, r.value.0)
    ensures r.Ok? ==> forall j :: 0 <= j < |t.callbacks| ==>
      SameKind(t.callbacks[j], r.value.0.callbacks[j]) && (j != i ==> r.value.0.callbacks[j] == t.callbacks[j])
    ensures r.Ok? && hook.InEpoch() ==>
      r.value.0.metrics.trainLosses == t.metrics.trainLosses &&
      r.value.0.metrics.validLosses == t.metrics.validLosses &&
      r.value.0.params == t.params && r.value.0.lastEpoch == t.lastEpoch
    ensures r.Ok? && !hook.TrainBegin? ==> r.value.0.lastEpoch == t.lastEpoch
    ensures r.Ok? && !t.callbacks[i].ModelCheckpoint? ==>
      r.value.0.metrics.trainLosses == t.metrics.trainLosses &&
      r.value.0.metrics.validLosses == t.metrics.validLosses &&
      r.value.0.params == t.params && r.value.0.lastEpoch == t.lastEpoch && r.value.1 == disk
    ensures r.Ok? && !(t.callbacks[i].SgdRestarts? && hook.BatchBegin?) ==> r.value.0.optimizer == t.optimizer
    ensures t.callbacks[i].Plain? ==> r == Ok((t, disk))
  {
    match t.callbacks[i]
    case Plain => Ok((t, disk))
    case AccuracyMetric(acc) => ToAccuracy(t, disk, i, hook, acc)
    case ModelCheckpoint(ckpt) => ToCheckpoint(t, disk, i, hook, ckpt)
    case SgdRestarts(sgdr) => ToRestarts(t, disk, i, hook, sgdr)
    case Printer(rates) => ToPrinter(t, disk, i, hook, rates)
  }

  /** `Accuracy`'s hooks. */
  function ToAccuracy(t: Trainer, disk: Disk, i: nat, hook: Hook, acc: Accuracy.State): (r: Result<(Trainer, Disk)>)
    requires i < |t.callbacks| && t.callbacks[i] == AccuracyMetric(acc)
    ensures Delivered(t, disk, i, hook, r)
  {
    match hook
    case TrainBegin(_) => Ok((t.(metrics := Accuracy.OnTrainBegin(t.metrics)), disk))
    case EpochBegin(_) => Ok((t.(callbacks := t.callbacks[i := AccuracyMetric(Accuracy.OnEpochBegin())]), disk))
    case BatchEnd(_, _, size, out) =>
      Ok((t.(callbacks := t.callbacks[i := AccuracyMetric(Accuracy.OnBatchEnd(acc, size, out.correct))]), disk))
    case VBatchEnd(_, _, size, vout) =>
      Ok((t.(callbacks := t.callbacks[i := AccuracyMetric(Accuracy.OnVBatchEnd(acc, size, vout.correct))]), disk))
    case EpochEnd(_) =>
      var m :- Accuracy.OnEpochEnd(acc, t.metrics);
      Ok((t.(metrics := m), disk))
    case _ => Ok((t, disk))
  }

  /** `ModelCheckpoint`'s hooks. */
  function ToCheckpoint(t: Trainer, disk: Disk, i: nat, hook: Hook, ckpt: Checkpoint.State): (r: Result<(Trainer, Disk)>)
    requires i < |t.callbacks| && t.callbacks[i] == ModelCheckpoint(ckpt)
    ensures Delivered(t, disk, i, hook, r)
  {
    match hook
    case TrainBegin(_) =>
      var b :- Checkpoint.OnTrainBegin(ckpt, t.params, t.metrics, disk);
      Ok((t.(params := b.params, metrics := b.metrics, lastEpoch := b.lastEpoch,
             callbacks := t.callbacks[i := ModelCheckpoint(b.state)]), disk))
    case EpochEnd(e) =>
      var ended :- Checkpoint.OnEpochEnd(ckpt, e, t.metrics, t.params, disk);
      Ok((t.(callbacks := t.callbacks[i := ModelCheckpoint(ended.state)]), ended.disk))
    case TrainEnd(_) =>
      var pm :- Checkpoint.OnTrainEnd(ckpt, t.params, t.metrics, disk);
      Ok((t.(params := pm.0, metrics := pm.1), disk))
    case _ => Ok((t, disk))
  }

  /** `SGDRestarts`' hooks. */
  function ToRestarts(t: Trainer, disk: Disk, i: nat, hook: Hook, sgdr: Restarts.Sgdr): (r: Result<(Trainer, Disk)>)
    requires i < |t.callbacks| && t.callbacks[i] == SgdRestarts(sgdr)
    ensures Delivered(t, disk, i, hook, r)
  {
    match hook
    case TrainBegin(_) =>
      Ok((t.(callbacks := t.callbacks[i := SgdRestarts(Restarts.OnTrainBegin(sgdr, t.lastEpoch))]), disk))
    case BatchBegin(e, b, _) =>
      var r :- Restarts.OnBatchBegin(sgdr, t.optimizer, e, b, t.nBatches);
      Ok((t.(optimizer := r.1, callbacks := t.callbacks[i := SgdRestarts(r.0)]), disk))
    case _ => Ok((t, disk))
  }

  /** `PrintCallback`'s hooks. */
  function ToPrinter(t: Trainer, disk: Disk, i: nat, hook: Hook, rates: nat): (r: Result<(Trainer, Disk)>)
    requires i < |t.callbacks| && t.callbacks[i] == Printer(rates)
    ensures Delivered(t, disk, i, hook, r)
  {
    match hook
    case EpochBegin(_) => Ok((t.(callbacks := t.callbacks[i := Printer(|t.optimizer|)]), disk))
    case EpochEnd(_) =>
      var _ :- Printing.OnEpochEnd(rates, t.metrics);
      Ok((t, disk))
    case _ => Ok((t, disk))
  }

  /** The two hooks that can raise after changing something. */
  predicate PartialRaise(cb: Callback, hook: Hook) {
    (hook.EpochEnd? && cb.AccuracyMetric?) || (hook.TrainBegin? && cb.ModelCheckpoint?)
  }

  /** The trainer and disk a hook leaves behind when it raises. Most hooks raise at
      their first statement and change nothing. Two raise part way: the accuracy
      tracker's `on_epoch_end` after recording the training accuracy, and the
      checkpointer's `on_train_begin` after resuming from disk and realigning
      `last_epoch`. */
  function Raised(t: Trainer, disk: Disk, i: nat, hook: Hook): (r: (Trainer, Disk))
    requires i < |t.callbacks| && Dispatch(t, disk, i, hook).Err?
    ensures r.1 == disk && SameSetup(t, r.0) && r.0.optimizer == t.optimizer
    ensures forall j :: 0 <= j < |t.callbacks| ==>
      SameKind(t.callbacks[j], r.0.callbacks[j]) && (j != i ==> r.0.callbacks[j] == t.callbacks[j])
    ensures !hook.TrainBegin? ==>
      r.0.params == t.params && r.0.lastEpoch == t.lastEpoch &&
      r.0.metrics.trainLosses == t.metrics.trainLosses && r.0.metrics.validLosses == t.metrics.validLosses
    ensures hook.EpochEnd? && t.callbacks[i].AccuracyMetric? ==>
      r.0 == t.(metrics := Accuracy.OnEpochEndRaised(t.callbacks[i].acc, t.metrics))
    ensures hook.TrainBegin? && t.callbacks[i].ModelCheckpoint? ==>
      var b := Checkpoint.Resumed(t.callbacks[i].ckpt, t.params, t.metrics, disk);
      r.0.params == b.params && r.0.metrics == b.metrics && r.0.lastEpoch == b.lastEpoch > 0 &&
      r.0.callbacks[i] == ModelCheckpoint(b.state)
    ensures !PartialRaise(t.callbacks[i], hook) ==> r.0 == t
  {
    match t.callbacks[i]
    case AccuracyMetric(acc) =>
      if hook.EpochEnd? then (t.(metrics := Accuracy.OnEpochEndRaised(acc, t.metrics)), disk)
      else (t, disk)
    case ModelCheckpoint(ckpt) =>
      if hook.TrainBegin? then
        var b := Checkpoint.Resumed(ckpt, t.params, t.metrics, disk);
        (t.(params := b.params, metrics := b.metrics, lastEpoch := b.lastEpoch,
            callbacks := t.callbacks[i := ModelCheckpoint(b.state)]), disk)
      else (t, disk)
    case _ => (t, disk)
  }

  /** `save_state`: write model and history under `basename`; the trainer is unchanged. */
  function SaveState(t: Trainer, disk: Disk, basename: string): (d: Disk)
    ensures LoadTrainerState(d, basename, t.params, t.metrics) == Ok((t.params, t.metrics))
    ensures forall other :: other != basename && other in disk.models ==>
      other in d.models && d.models[other] == disk.models[other]
  {
    SaveTrainerState(disk, basename, t.params, t.metrics)
  }

  /** `load_state`: reload model and history, then realign `last_epoch` with the length
      of the training history. */
  function LoadState(t: Trainer, disk: Disk, basename: string): (r: Result<Trainer>)
    ensures r.Ok? <==> basename in disk.models
    ensures r.Ok? ==> r.value.lastEpoch == |r.value.metrics.trainLosses|
    ensures r.Ok? ==> r.value.params == disk.models[basename]
    ensures r.Ok? && basename in disk.histos ==> r.value.metrics == disk.histos[basename]
    ensures r.Ok? && basename !in disk.histos ==> r.value.metrics == t.metrics
    ensures r.Ok? ==> r.value.callbacks == t.callbacks && r.value.optimizer == t.optimizer && SameSetup(t, r.value)
  {
    var pm :- LoadTrainerState(disk, basename, t.params, t.metrics);
    Ok(t.(params := pm.0, metrics := pm.1, lastEpoch := |pm.1.trainLosses|))
  }

  /** Saving and then loading under the same name restores the saved model and history,
      whatever happened to the trainer in between, and sets `last_epoch` to the number of
      recorded epochs. */
  lemma SaveLoadState(saved: Trainer, later: Trainer, disk: Disk, basename: string)
    ensures LoadState(later, SaveState(saved, disk, basename), basename) ==
      Ok(later.(params := saved.params, metrics := saved.metrics, lastEpoch := |saved.metrics.trainLosses|))
  {
    SaveLoadRoundTrip(disk, basename, saved.params, saved.metrics, later.params, later.metrics);
  }
}
