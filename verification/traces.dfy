/** The order in which `fit_loader` (lines 86-194) delivers hooks: the callback protocol
    written out as the sequence of events a call leaves behind, and the proof that a call
    that completes delivers exactly that sequence, whatever the callbacks do. */
module Traces {
  import opened Base
  import opened Batches
  import opened Store
  import opened Hooks
  import opened Training
  import opened Fitting
  import opened FitFrames
  import opened Reference
  import FitTheory

  /** The hooks of training batches `b ..` of epoch `e`: each batch is announced to every
      callback, then reported to every callback. */
  function TrainTrace(n: nat, e: int, sizes: seq<Pos>, f: (int, nat) -> TrainOut, b: nat): seq<Event>
    decreases |sizes| - b
  {
    if b >= |sizes| then []
    else Broadcast(n, BatchBegin(e, b, sizes[b])) + Broadcast(n, BatchEnd(e, b, sizes[b], f(e, b))) +
         TrainTrace(n, e, sizes, f, b + 1)
  }

  /** The hooks of validation batches `b ..` of epoch `e`. */
  function ValidTrace(n: nat, e: int, sizes: seq<Pos>, f: (int, nat) -> ValidOut, b: nat): seq<Event>
    decreases |sizes| - b
  {
    if b >= |sizes| then []
    else Broadcast(n, VBatchBegin(e, b, sizes[b])) + Broadcast(n, VBatchEnd(e, b, sizes[b], f(e, b))) +
         ValidTrace(n, e, sizes, f, b + 1)
  }

  /** The hooks of epoch `e`: `on_epoch_begin`, the training batches, the validation
      batches when there is a validation loader, `on_epoch_end`. */
  function EpochTrace(n: nat, e: int, train: TrainFeed, valid: Option<ValidFeed>): seq<Event> {
    Broadcast(n, EpochBegin(e)) + TrainTrace(n, e, BatchSizes(train.loader), train.out, 0) +
    (if valid.Some? then ValidTrace(n, e, BatchSizes(valid.value.loader), valid.value.out, 0) else []) +
    Broadcast(n, EpochEnd(e))
  }

  /** `tr(e) + tr(e+1) + ... + tr(e+count-1)`. */
  function Laid(tr: int -> seq<Event>, e: int, count: nat): seq<Event>
    decreases count
  {
    if count == 0 then [] else tr(e) + Laid(tr, e + 1, count - 1)
  }

  /** The hooks of epochs `e .. e+count-1`. */
  function EpochsTrace(n: nat, e: int, count: nat, train: TrainFeed, valid: Option<ValidFeed>): seq<Event> {
    Laid((k: int) => EpochTrace(n, k, train, valid), e, count)
  }

  /** A step from `s` to `r` that raised nothing delivered exactly the events `x`, and
      started from a session that had raised nothing either. */
  predicate Appends(s: Session, r: Session, x: seq<Event>) {
    r.crash.None? ==> s.crash.None? && r.trace == s.trace + x
  }

  lemma AppendsCompose(s: Session, m: Session, r: Session, x: seq<Event>, y: seq<Event>)
    requires Appends(s, m, x) && Appends(m, r, y)
    requires m.crash.Some? ==> r.crash.Some?
    ensures Appends(s, r, x + y)
  {
    if r.crash.None? {
      assert r.trace == s.trace + x + y;
    }
  }

  /** A hook loop that raises nothing delivers its hook to every callback, in order. */
  lemma NotifyAppends(s: Session, h: Hook)
    ensures Appends(s, Notify(s, 0, h), Broadcast(|s.trainer.callbacks|, h))
  {
    if s.crash.None? {
      NotifyTrace(s, 0, h);
      CallsBroadcast(0, |s.trainer.callbacks|, h);
    }
  }

  /** The trainer's own statements deliver no hook. */
  lemma StepsSilent(s: Session)
    ensures Appends(s, StartPhase(s), []) && Appends(s, CloseTrain(s), [])
    ensures Appends(s, CloseValid(s), []) && Appends(s, SkipValid(s), [])
    ensures Appends(s, StepScheduler(s), [])
  {
  }

  lemma BatchStepsSilent(s: Session, size: nat, out: TrainOut, vout: ValidOut)
    ensures Appends(s, Optimize(s, size, out), []) && Appends(s, Evaluate(s, size, vout), [])
  {
  }

  lemma TrainBatchAppends(s: Session, e: int, b: nat, size: nat, out: TrainOut)
    ensures var n := |s.trainer.callbacks|;
      Appends(s, TrainBatch(s, e, b, size, out), Broadcast(n, BatchBegin(e, b, size)) + Broadcast(n, BatchEnd(e, b, size, out)))
  {
    var n := |s.trainer.callbacks|;
    var s1 := Notify(s, 0, BatchBegin(e, b, size));
    var s2 := Optimize(s1, size, out);
    NotifyAppends(s, BatchBegin(e, b, size));
    BatchStepsSilent(s1, size, out, ValidOut(None, 0));
    NotifyAppends(s2, BatchEnd(e, b, size, out));
    AppendsCompose(s, s1, s2, Broadcast(n, BatchBegin(e, b, size)), []);
    assert Broadcast(n, BatchBegin(e, b, size)) + [] == Broadcast(n, BatchBegin(e, b, size));
    AppendsCompose(s, s2, TrainBatch(s, e, b, size, out), Broadcast(n, BatchBegin(e, b, size)), Broadcast(n, BatchEnd(e, b, size, out)));
  }

  lemma ValidBatchAppends(s: Session, e: int, b: nat, size: nat, vout: ValidOut)
    ensures var n := |s.trainer.callbacks|;
      Appends(s, ValidBatch(s, e, b, size, vout), Broadcast(n, VBatchBegin(e, b, size)) + Broadcast(n, VBatchEnd(e, b, size, vout)))
  {
    var n := |s.trainer.callbacks|;
    var s1 := Notify(s, 0, VBatchBegin(e, b, size));
    var s2 := Evaluate(s1, size, vout);
    NotifyAppends(s, VBatchBegin(e, b, size));
    BatchStepsSilent(s1, size, TrainOut(0.0, 0), vout);
    NotifyAppends(s2, VBatchEnd(e, b, size, vout));
    AppendsCompose(s, s1, s2, Broadcast(n, VBatchBegin(e, b, size)), []);
    assert Broadcast(n, VBatchBegin(e, b, size)) + [] == Broadcast(n, VBatchBegin(e, b, size));
    AppendsCompose(s, s2, ValidBatch(s, e, b, size, vout), Broadcast(n, VBatchBegin(e, b, size)), Broadcast(n, VBatchEnd(e, b, size, vout)));
  }

  /** The training batches deliver their hooks batch by batch. */
  lemma {:induction false} TrainLoopAppends(s: Session, e: int, sizes: seq<Pos>, f: (int, nat) -> TrainOut, b: nat)
    ensures Appends(s, TrainLoop(s, e, sizes, f, b), TrainTrace(|s.trainer.callbacks|, e, sizes, f, b))
    decreases |sizes| - b
  {
    if s.crash.None? && b < |sizes| {
      var n := |s.trainer.callbacks|;
      var s1 := TrainBatch(s, e, b, sizes[b], f(e, b));
      TrainBatchAppends(s, e, b, sizes[b], f(e, b));
      TrainLoopAppends(s1, e, sizes, f, b + 1);
      AppendsCompose(s, s1, TrainLoop(s1, e, sizes, f, b + 1),
                     Broadcast(n, BatchBegin(e, b, sizes[b])) + Broadcast(n, BatchEnd(e, b, sizes[b], f(e, b))),
                     TrainTrace(n, e, sizes, f, b + 1));
    }
  }

  /** The validation batches deliver their hooks batch by batch. */
  lemma {:induction false} ValidLoopAppends(s: Session, e: int, sizes: seq<Pos>, f: (int, nat) -> ValidOut, b: nat)
    ensures Appends(s, ValidLoop(s, e, sizes, f, b), ValidTrace(|s.trainer.callbacks|, e, sizes, f, b))
    decreases |sizes| - b
  {
    if s.crash.None? && b < |sizes| {
      var n := |s.trainer.callbacks|;
      var s1 := ValidBatch(s, e, b, sizes[b], f(e, b));
      ValidBatchAppends(s, e, b, sizes[b], f(e, b));
      ValidLoopAppends(s1, e, sizes, f, b + 1);
      AppendsCompose(s, s1, ValidLoop(s1, e, sizes, f, b + 1),
                     Broadcast(n, VBatchBegin(e, b, sizes[b])) + Broadcast(n, VBatchEnd(e, b, sizes[b], f(e, b))),
                     ValidTrace(n, e, sizes, f, b + 1));
    }
  }

  lemma TrainPhaseAppends(s: Session, e: int, train: TrainFeed)
    ensures var n := |s.trainer.callbacks|;
      Appends(s, TrainPhase(s, e, train), Broadcast(n, EpochBegin(e)) + TrainTrace(n, e, BatchSizes(train.loader), train.out, 0))
  {
    var n := |s.trainer.callbacks|;
    var s0 := Notify(s, 0, EpochBegin(e));
    var s1 := StartPhase(s0);
    var s2 := TrainLoop(s1, e, BatchSizes(train.loader), train.out, 0);
    var tr := TrainTrace(n, e, BatchSizes(train.loader), train.out, 0);
    NotifyAppends(s, EpochBegin(e));
    StepsSilent(s0);
    TrainLoopAppends(s1, e, BatchSizes(train.loader), train.out, 0);
    StepsSilent(s2);
    AppendsCompose(s, s0, s1, Broadcast(n, EpochBegin(e)), []);
    assert Broadcast(n, EpochBegin(e)) + [] == Broadcast(n, EpochBegin(e));
    AppendsCompose(s, s1, s2, Broadcast(n, EpochBegin(e)), tr);
    AppendsCompose(s, s2, CloseTrain(s2), Broadcast(n, EpochBegin(e)) + tr, []);
    assert Broadcast(n, EpochBegin(e)) + tr + [] == Broadcast(n, EpochBegin(e)) + tr;
  }

  lemma ValidPhaseAppends(s: Session, e: int, valid: Option<ValidFeed>)
    ensures var n := |s.trainer.callbacks|;
      Appends(s, ValidPhase(s, e, valid),
              if valid.Some? then ValidTrace(n, e, BatchSizes(valid.value.loader), valid.value.out, 0) else [])
  {
    var n := |s.trainer.callbacks|;
    StepsSilent(s);
    if valid.Some? {
      var s1 := StartPhase(s);
      var s2 := ValidLoop(s1, e, BatchSizes(valid.value.loader), valid.value.out, 0);
      var tr := ValidTrace(n, e, BatchSizes(valid.value.loader), valid.value.out, 0);
      ValidLoopAppends(s1, e, BatchSizes(valid.value.loader), valid.value.out, 0);
      StepsSilent(s2);
      AppendsCompose(s, s1, s2, [], tr);
      assert [] + tr == tr;
      AppendsCompose(s, s2, CloseValid(s2), tr, []);
      assert tr + [] == tr;
    }
  }

  /** One epoch that raises nothing delivers exactly the hooks of the epoch. */
  lemma EpochAppends(s: Session, e: int, train: TrainFeed, valid: Option<ValidFeed>)
    ensures Appends(s, Epoch(s, e, train, valid), EpochTrace(|s.trainer.callbacks|, e, train, valid))
  {
    var n := |s.trainer.callbacks|;
    var s1 := TrainPhase(s, e, train);
    var s2 := ValidPhase(s1, e, valid);
    var s3 := Notify(s2, 0, EpochEnd(e));
    var x := Broadcast(n, EpochBegin(e)) + TrainTrace(n, e, BatchSizes(train.loader), train.out, 0);
    var y := if valid.Some? then ValidTrace(n, e, BatchSizes(valid.value.loader), valid.value.out, 0) else [];
    TrainPhaseAppends(s, e, train);
    ValidPhaseAppends(s1, e, valid);
    NotifyAppends(s2, EpochEnd(e));
    StepsSilent(s3);
    AppendsCompose(s, s1, s2, x, y);
    AppendsCompose(s, s2, s3, x + y, Broadcast(n, EpochEnd(e)));
    AppendsCompose(s, s3, StepScheduler(s3), x + y + Broadcast(n, EpochEnd(e)), []);
    assert x + y + Broadcast(n, EpochEnd(e)) + [] == EpochTrace(n, e, train, valid);
  }

  /** For any loop whose body delivers `tr(k)` in pass `k`: the loop delivers
      `tr(e) + ... + tr(e+count-1)`. */
  lemma {:induction false} LoopAppends(body: (Session, int) -> Session, tr: int -> seq<Event>, n: nat,
                                       s: Session, e: int, count: nat)
    requires |s.trainer.callbacks| == n
    requires forall x: Session, k: int | |x.trainer.callbacks| == n ::
      Appends(x, body(x, k), tr(k)) && |body(x, k).trainer.callbacks| == n
    ensures Appends(s, EpochLoop(body, s, e, count), Laid(tr, e, count))
    decreases count
  {
    if s.crash.None? && count > 0 {
      var s1 := body(s, e);
      assert EpochLoop(body, s, e, count) == EpochLoop(body, s1, e + 1, count - 1);
      LoopAppends(body, tr, n, s1, e + 1, count - 1);
      AppendsCompose(s, s1, EpochLoop(body, s1, e + 1, count - 1), tr(e), Laid(tr, e + 1, count - 1));
    }
  }

  /** Epochs that raise nothing deliver exactly the hooks of each epoch in turn. */
  lemma EpochsAppends(s: Session, e: int, count: nat, train: TrainFeed, valid: Option<ValidFeed>)
    ensures Appends(s, Epochs(s, e, count, train, valid), EpochsTrace(|s.trainer.callbacks|, e, count, train, valid))
  {
    var n := |s.trainer.callbacks|;
    var body := (x: Session, k: int) => Epoch(x, k, train, valid);
    var tr := (k: int) => EpochTrace(n, k, train, valid);
    forall x: Session, k: int | |x.trainer.callbacks| == n
      ensures Appends(x, body(x, k), tr(k)) && |body(x, k).trainer.callbacks| == n
    {
      EpochAppends(x, k, train, valid);
    }
    LoopAppends(body, tr, n, s, e, count);
  }

  /** From the session the train-begin hooks left: a call that completes delivers the
      hooks of every epoch from `last_epoch + 1`, then `on_train_end` to every callback. */
  lemma ConcludeTrace(s1: Session, nEpochs: int, train: TrainFeed, valid: Option<ValidFeed>)
    ensures var n := |s1.trainer.callbacks|;
      var r := Conclude(Epochs(s1, s1.trainer.lastEpoch + 1, EpochCount(nEpochs), train, valid), nEpochs);
      r.outcome.Completed? ==>
        s1.crash.None? &&
        r.trace == s1.trace + EpochsTrace(n, s1.trainer.lastEpoch + 1, EpochCount(nEpochs), train, valid) +
                   Broadcast(n, TrainEnd(nEpochs))
  {
    EpochsAppends(s1, s1.trainer.lastEpoch + 1, EpochCount(nEpochs), train, valid);
  }

  /** The train-begin hooks, when they raise nothing, deliver `on_train_begin` to every
      callback and nothing else. */
  lemma BegunTrace(t: Trainer, disk: Disk, nEpochs: int, train: TrainFeed, interrupt: Option<nat>)
    ensures var s1 := Begun(t, disk, nEpochs, train, interrupt);
      s1.crash.None? ==> s1.trace == Broadcast(|t.callbacks|, TrainBegin(nEpochs))
  {
    var s0 := Session(t.(nBatches := NumBatches(train.loader.samples, train.loader.batchSize)), disk, [],
                      Accum(Some(0.0), 0), interrupt, None);
    NotifyAppends(s0, TrainBegin(nEpochs));
  }

  /** A call of `fit_loader` that completes, whatever its callbacks, delivers exactly:
      `on_train_begin` to every callback, the hooks of each epoch from the `last_epoch`
      those left behind, then `on_train_end` to every callback. */
  lemma FitLoaderTrace(t: Trainer, disk: Disk, nEpochs: int, train: TrainFeed, valid: Option<ValidFeed>,
                       interrupt: Option<nat>)
    ensures var r := FitLoader(t, disk, nEpochs, train, valid, interrupt);
      var s1 := Begun(t, disk, nEpochs, train, interrupt);
      var n := |t.callbacks|;
      r.outcome.Completed? ==>
        r.trace == Broadcast(n, TrainBegin(nEpochs)) +
                   EpochsTrace(n, s1.trainer.lastEpoch + 1, EpochCount(nEpochs), train, valid) +
                   Broadcast(n, TrainEnd(nEpochs))
  {
    BegunTrace(t, disk, nEpochs, train, interrupt);
    ConcludeTrace(Begun(t, disk, nEpochs, train, interrupt), nEpochs, train, valid);
  }

  /** Without a checkpointer, which alone can move `last_epoch` at `on_train_begin`, the
      epochs of a completed call are numbered from the caller's `last_epoch + 1`. */
  lemma FitLoaderHookOrder(t: Trainer, disk: Disk, nEpochs: int, train: TrainFeed, valid: Option<ValidFeed>,
                           interrupt: Option<nat>)
    requires !HasCheckpoint(t.callbacks)
    ensures var r := FitLoader(t, disk, nEpochs, train, valid, interrupt);
      var n := |t.callbacks|;
      r.outcome.Completed? ==>
        r.trace == Broadcast(n, TrainBegin(nEpochs)) +
                   EpochsTrace(n, t.lastEpoch + 1, EpochCount(nEpochs), train, valid) +
                   Broadcast(n, TrainEnd(nEpochs))
  {
    FitLoaderTrace(t, disk, nEpochs, train, valid, interrupt);
    FitTheory.BegunAgrees(t, disk, nEpochs, train, interrupt);
  }
}
