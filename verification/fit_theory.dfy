/** What a whole call of `fit_loader` (lines 86-194) does, stated against the reference
    epochs: exactly them under callbacks that do nothing, and in agreement with them under
    any callbacks; and what a call reports when its first hook raises part way. */
module FitTheory {
  import opened Base
  import opened Batches
  import opened Store
  import opened Hooks
  import opened Training
  import opened Fitting
  import opened FitFrames
  import opened Reference
  import opened EpochEffects

  /** The trainer the epochs start from: `n_batches` set from the training loader. */
  function Prepared(t: Trainer, train: TrainFeed): (u: Trainer)
    ensures u.nBatches * train.loader.batchSize >= train.loader.samples
    ensures u.callbacks == t.callbacks && u.metrics == t.metrics && u.lastEpoch == t.lastEpoch
    ensures u.(nBatches := t.nBatches) == t
  {
    t.(nBatches := NumBatches(train.loader.samples, train.loader.batchSize))
  }

  /** With callbacks that do nothing, the train-begin hooks change nothing but the trace,
      which holds `on_train_begin` once per callback, in registration order. */
  lemma BegunPlain(t: Trainer, disk: Disk, nEpochs: int, train: TrainFeed)
    requires AllPlain(t.callbacks)
    ensures var s := Begun(t, disk, nEpochs, train, None);
      Quiet(s) && s.trainer == Prepared(t, train) && s.disk == disk &&
      s.trace == Broadcast(|t.callbacks|, TrainBegin(nEpochs))
  {
    var s0 := Session(Prepared(t, train), disk, [], Accum(Some(0.0), 0), None, None);
    NotifyPlain(s0, 0, TrainBegin(nEpochs));
    NotifyTrace(s0, 0, TrainBegin(nEpochs));
    CallsBroadcast(0, |t.callbacks|, TrainBegin(nEpochs));
  }

  /** The train-end hooks of callbacks that do nothing change nothing and raise nothing. */
  lemma FinishPlain(s2: Session, nEpochs: int)
    requires AllPlain(s2.trainer.callbacks)
    ensures var r := Finish(s2, nEpochs); r.crash.None? && r.trainer == s2.trainer && r.disk == s2.disk
  {
    NotifyPlain(s2.(budget := None, crash := None), 0, TrainEnd(nEpochs));
  }

  /** Without an interrupt, the end of a call with callbacks that do nothing: it completes
      with the trainer the `try` block left when that raised nothing, and otherwise
      raises its error. */
  lemma ConcludePlain(s2: Session, nEpochs: int)
    requires Uninterruptible(s2)
    requires s2.crash.None? ==> AllPlain(s2.trainer.callbacks)
    ensures var r := Conclude(s2, nEpochs);
      (r.outcome == Completed <==> s2.crash.None?) && (s2.crash.Some? ==> r.outcome == Crashed(s2.crash.value)) &&
      (s2.crash.None? ==> r.trainer == s2.trainer) && r.disk == s2.disk
  {
    if s2.crash.None? {
      FinishPlain(s2, nEpochs);
    }
  }

  /** Epochs that start quiet end as the reference epochs from the same trainer. */
  lemma EpochsConclude(s1: Session, e: int, count: nat, nEpochs: int, train: TrainFeed, valid: Option<ValidFeed>)
    requires Quiet(s1)
    ensures Ends(Conclude(Epochs(s1, e, count, train, valid), nEpochs), PlainEpochs(s1.trainer, e, count, train, valid), s1.disk)
  {
    EpochsPlain(s1, e, count, train, valid);
    ConcludePlain(Epochs(s1, e, count, train, valid), nEpochs);
  }

  /** Quiet epochs from `last_epoch + 1` end as the reference. */
  lemma EpochsFromLast(s1: Session, nEpochs: int, train: TrainFeed, valid: Option<ValidFeed>)
    requires Quiet(s1)
    ensures Ends(Conclude(Epochs(s1, s1.trainer.lastEpoch + 1, EpochCount(nEpochs), train, valid), nEpochs),
                 PlainEpochs(s1.trainer, s1.trainer.lastEpoch + 1, EpochCount(nEpochs), train, valid), s1.disk)
  {
    EpochsConclude(s1, s1.trainer.lastEpoch + 1, EpochCount(nEpochs), nEpochs, train, valid);
  }

  lemma BegunQuiet(t: Trainer, disk: Disk, nEpochs: int, train: TrainFeed)
    requires AllPlain(t.callbacks)
    ensures Quiet(Begun(t, disk, nEpochs, train, None)) && Begun(t, disk, nEpochs, train, None).disk == disk
  {
    BegunPlain(t, disk, nEpochs, train);
  }

  lemma BegunReference(t: Trainer, disk: Disk, nEpochs: int, train: TrainFeed, valid: Option<ValidFeed>)
    requires AllPlain(t.callbacks)
    ensures var s1 := Begun(t, disk, nEpochs, train, None);
      PlainEpochs(s1.trainer, s1.trainer.lastEpoch + 1, EpochCount(nEpochs), train, valid) ==
      PlainEpochs(Prepared(t, train), t.lastEpoch + 1, EpochCount(nEpochs), train, valid)
  {
    BegunPlain(t, disk, nEpochs, train);
  }

  lemma FitLoaderQuiet(t: Trainer, disk: Disk, nEpochs: int, train: TrainFeed, valid: Option<ValidFeed>)
    requires Quiet(Begun(t, disk, nEpochs, train, None))
    ensures var s1 := Begun(t, disk, nEpochs, train, None);
      Ends(FitLoader(t, disk, nEpochs, train, valid, None),
           PlainEpochs(s1.trainer, s1.trainer.lastEpoch + 1, EpochCount(nEpochs), train, valid), s1.disk)
  {
    var s1 := Begun(t, disk, nEpochs, train, None);
    EpochsFromLast(s1, nEpochs, train, valid);
  }

  /** Without an interrupt and with callbacks that do nothing, `fit_loader` does exactly
      what the reference epochs `last_epoch + 1 ..` do: it completes exactly when they
      succeed, leaving their trainer, raises their error otherwise, and writes no file. */
  lemma FitLoaderPlain(t: Trainer, disk: Disk, nEpochs: int, train: TrainFeed, valid: Option<ValidFeed>)
    requires AllPlain(t.callbacks)
    ensures Ends(FitLoader(t, disk, nEpochs, train, valid, None),
                 PlainEpochs(Prepared(t, train), t.lastEpoch + 1, EpochCount(nEpochs), train, valid), disk)
  {
    BegunQuiet(t, disk, nEpochs, train);
    BegunReference(t, disk, nEpochs, train, valid);
    FitLoaderQuiet(t, disk, nEpochs, train, valid);
  }

  /** Without a checkpointer, the train-end hooks keep everything the reference describes:
      a call that completes leaves a trainer agreeing with the one its `try` block left. */
  lemma ConcludeAgrees(s2: Session, nEpochs: int)
    requires s2.crash.None? ==> !HasCheckpoint(s2.trainer.callbacks)
    ensures var r := Conclude(s2, nEpochs);
      r.outcome.Completed? ==> s2.crash.None? && Agrees(s2.trainer, r.trainer)
  {
    if s2.crash.None? {
      NotifyFrame(s2.(budget := None, crash := None), 0, TrainEnd(nEpochs));
    }
  }

  /** Epochs from `last_epoch + 1` on a session that agrees with a trainer `u` and has no
      checkpointer: a completed call agrees with the reference epochs from `u`, and a
      reference error means the call did not complete. */
  lemma EpochsAgree(s1: Session, u: Trainer, nEpochs: int, train: TrainFeed, valid: Option<ValidFeed>)
    requires s1.crash.None? && !HasCheckpoint(s1.trainer.callbacks) && Agrees(u, s1.trainer)
    ensures var r := Conclude(Epochs(s1, s1.trainer.lastEpoch + 1, EpochCount(nEpochs), train, valid), nEpochs);
      var p := PlainEpochs(u, u.lastEpoch + 1, EpochCount(nEpochs), train, valid);
      (r.outcome.Completed? ==> p.Ok? && Agrees(p.value, r.trainer)) && (p.Err? ==> !r.outcome.Completed?)
  {
    var e := u.lastEpoch + 1;
    var count := EpochCount(nEpochs);
    var s2 := Epochs(s1, e, count, train, valid);
    var q := PlainEpochs(s1.trainer, e, count, train, valid);
    var p := PlainEpochs(u, e, count, train, valid);
    EpochsEffect(s1, e, count, train, valid);
    PlainEpochsCongruent(u, s1.trainer, e, count, train, valid);
    if s2.crash.None? {
      PlainEpochsHistory(s1.trainer, e, count, train, valid);
      SetupKeepsKinds(q.value, s2.trainer);
      AgreesTransitive(p.value, q.value, s2.trainer);
    }
    ConcludeAgrees(s2, nEpochs);
    var r := Conclude(s2, nEpochs);
    if r.outcome.Completed? {
      AgreesTransitive(p.value, s2.trainer, r.trainer);
    }
  }

  /** Without a checkpointer, the train-begin hooks that raise nothing leave a trainer
      agreeing with the prepared one, still without a checkpointer. */
  lemma BegunAgrees(t: Trainer, disk: Disk, nEpochs: int, train: TrainFeed, interrupt: Option<nat>)
    requires !HasCheckpoint(t.callbacks)
    ensures var s1 := Begun(t, disk, nEpochs, train, interrupt);
      s1.crash.None? ==> !HasCheckpoint(s1.trainer.callbacks) && Agrees(Prepared(t, train), s1.trainer)
  {
    var s0 := Session(Prepared(t, train), disk, [], Accum(Some(0.0), 0), interrupt, None);
    NotifyFrame(s0, 0, TrainBegin(nEpochs));
    var s1 := Notify(s0, 0, TrainBegin(nEpochs));
    if s1.crash.None? {
      SetupKeepsKinds(s0.trainer, s1.trainer);
    }
  }

  /** Whatever callbacks do, short of a checkpointer, and whenever an interrupt comes: a
      call of `fit_loader` that completes leaves a trainer agreeing with the reference
      epochs from the prepared trainer (same history, parameters, `last_epoch`, scheduler
      log and losses), and one whose reference epochs fail does not complete. */
  lemma FitLoaderAgrees(t: Trainer, disk: Disk, nEpochs: int, train: TrainFeed, valid: Option<ValidFeed>,
                        interrupt: Option<nat>)
    requires !HasCheckpoint(t.callbacks)
    ensures var r := FitLoader(t, disk, nEpochs, train, valid, interrupt);
      var p := PlainEpochs(Prepared(t, train), t.lastEpoch + 1, EpochCount(nEpochs), train, valid);
      (r.outcome.Completed? ==> p.Ok? && Agrees(p.value, r.trainer)) && (p.Err? ==> !r.outcome.Completed?)
  {
    var s1 := Begun(t, disk, nEpochs, train, interrupt);
    var u := Prepared(t, train);
    var s2 := Epochs(s1, s1.trainer.lastEpoch + 1, EpochCount(nEpochs), train, valid);
    assert FitLoader(t, disk, nEpochs, train, valid, interrupt) == Conclude(s2, nEpochs);
    BegunAgrees(t, disk, nEpochs, train, interrupt);
    if s1.crash.None? {
      EpochsAgree(s1, u, nEpochs, train, valid);
    } else {
      assert s2 == s1;
    }
  }

  /** With callbacks that do nothing and at least one epoch, an empty training loader
      raises `ZeroDivisionError` when the first epoch's loss is taken. */
  lemma FitLoaderEmptyLoader(t: Trainer, disk: Disk, nEpochs: int, train: TrainFeed, valid: Option<ValidFeed>)
    requires AllPlain(t.callbacks) && nEpochs > 0 && train.loader.samples == 0
    ensures FitLoader(t, disk, nEpochs, train, valid, None).outcome == Crashed(ZeroDivision)
  {
    FitLoaderPlain(t, disk, nEpochs, train, valid);
    PlainEpochsSchedule(Prepared(t, train), t.lastEpoch + 1, EpochCount(nEpochs), train, valid);
  }

  /** With callbacks that do nothing, a completed call appends one training loss per epoch
      (the weighted means of the batch losses), one validation entry per epoch, and one
      optimizer step per batch; `last_epoch` stays where it was and no file is written. */
  lemma FitLoaderHistory(t: Trainer, disk: Disk, nEpochs: int, train: TrainFeed, valid: Option<ValidFeed>)
    requires AllPlain(t.callbacks)
    ensures var r := FitLoader(t, disk, nEpochs, train, valid, None);
      var n := EpochCount(nEpochs);
      (r.outcome.Completed? && n > 0 ==>
        train.loader.samples > 0 &&
        r.trainer.metrics.trainLosses == t.metrics.trainLosses + TrainRecord(t.sizeAverage, train, t.lastEpoch + 1, n)) &&
      (r.outcome.Completed? ==>
        r.trainer.lastEpoch == t.lastEpoch && r.disk == disk &&
        r.trainer.metrics.validLosses == t.metrics.validLosses + ValidRecord(t.sizeAverage, valid, t.lastEpoch + 1, n) &&
        r.trainer.params.updates == t.params.updates + n * NumBatches(train.loader.samples, train.loader.batchSize))
  {
    FitLoaderPlain(t, disk, nEpochs, train, valid);
    PlainEpochsHistory(Prepared(t, train), t.lastEpoch + 1, EpochCount(nEpochs), train, valid);
  }

  /** With callbacks that do nothing, no validation data and a `ReduceLROnPlateau`
      scheduler, a call of at least one epoch on a non-empty loader completes exactly
      when an earlier call left a number in `valid_loss`; the scheduler is then stepped
      with that stale value in every epoch, and `valid_loss` keeps it. Otherwise the
      first step raises `AttributeError` (never assigned) or `TypeError` (`None`). */
  lemma FitLoaderStaleLoss(t: Trainer, disk: Disk, nEpochs: int, train: TrainFeed)
    requires AllPlain(t.callbacks) && t.scheduler == Some(ReduceOnPlateau)
    requires nEpochs > 0 && train.loader.samples > 0
    ensures var r := FitLoader(t, disk, nEpochs, train, None, None);
      (r.outcome.Completed? <==> HoldsLoss(t)) &&
      (t.validLoss.None? ==> r.outcome == Crashed(MissingAttribute("valid_loss"))) &&
      (t.validLoss == Some(None) ==> r.outcome == Crashed(MissingArgument("metrics"))) &&
      (r.outcome.Completed? ==>
        r.trainer.validLoss == t.validLoss &&
        r.trainer.schedulerCalls == t.schedulerCalls + Copies(t.validLoss.value, nEpochs))
  {
    FitLoaderPlain(t, disk, nEpochs, train, None);
    PlainEpochsSchedule(Prepared(t, train), t.lastEpoch + 1, EpochCount(nEpochs), train, None);
  }

  /** A sole checkpointer that resumes a history whose latest monitored loss cannot be
      read raises `IndexError` in the first hook, and the call escapes with it. The
      trainer it reports has nevertheless been resumed and realigned, as the source
      leaves it. */
  lemma FitLoaderResumeCrash(t: Trainer, c: Checkpoint.State, disk: Disk, nEpochs: int,
                             train: TrainFeed, valid: Option<ValidFeed>)
    requires t.callbacks == [ModelCheckpoint(c)]
    requires Checkpoint.OnTrainBegin(c, t.params, t.metrics, disk).Err?
    ensures var r := FitLoader(t, disk, nEpochs, train, valid, None);
      var b := Checkpoint.Resumed(c, t.params, t.metrics, disk);
      r.outcome == Crashed(IndexOutOfRange) && r.trace == [Fired(0, TrainBegin(nEpochs))] &&
      r.trainer.params == b.params && r.trainer.metrics == b.metrics &&
      r.trainer.lastEpoch == b.lastEpoch > 0 &&
      r.trainer.callbacks == [ModelCheckpoint(b.state)] && r.disk == disk
  {
    var t0 := Prepared(t, train);
    var s0 := Session(t0, disk, [], Accum(Some(0.0), 0), None, None);
    assert Dispatch(t0, disk, 0, TrainBegin(nEpochs)) == Err(IndexOutOfRange);
    var s1 := Call(s0, 0, TrainBegin(nEpochs));
    assert s1.crash == Some(IndexOutOfRange);
    assert Notify(s1, 1, TrainBegin(nEpochs)) == s1;
    assert NotifyRest(s0, 0, TrainBegin(nEpochs)) == s1;
    assert Begun(t, disk, nEpochs, train, None) == s1;
  }
}
