/** `fit_loader` (lines 86-194) and `fit` (lines 45-58), as an interpreter that follows
    the loops of the source: callbacks inside batches inside epochs. Every hook call and
    every bookkeeping statement of the trainer is one step. A `KeyboardInterrupt` is
    modelled as a budget of steps: once it is spent, the next step raises it instead of
    running. */
module Fitting {
  import opened Base
  import opened Batches
  import opened Store
  import opened Hooks
  import opened Training

  /** `epo_loss` (`None` once a validation batch reported `None`) and `epo_samples`. */
  datatype Accum = Accum(loss: Option<real>, samples: int)

  /** Everything a running `fit_loader` can change, the hooks delivered so far, how many
      more steps run before a `KeyboardInterrupt` (`None`: it never comes), and the
      exception that stopped the run, if any. */
  datatype Session = Session(trainer: Trainer, disk: Disk, trace: seq<Event>, accum: Accum,
                             budget: Option<nat>, crash: Option<Error>)

  /** No `KeyboardInterrupt` is pending or has been raised. */
  predicate Uninterruptible(s: Session) {
    s.budget.None? && s.crash != Some(KeyboardInterrupt)
  }

  /** The next step runs: nothing was raised and the budget is not spent. */
  predicate Running(s: Session) {
    s.crash.None? && s.budget != Some(0)
  }

  /** A step that does not run: skipped after an exception, a `KeyboardInterrupt`
      instead once the budget is spent. */
  function Halted(s: Session): (r: Session)
    requires !Running(s)
    ensures s.crash.Some? ==> r == s
    ensures s.crash.None? ==> r == s.(crash := Some(KeyboardInterrupt))
  {
    if s.crash.Some? then s else s.(crash := Some(KeyboardInterrupt))
  }

  /** The budget after one more step. */
  function Spent(s: Session): (r: Session)
    requires Running(s)
    ensures r.budget.None? <==> s.budget.None?
    ensures s.budget.Some? ==> r.budget == Some(s.budget.value - 1)
  {
    s.(budget := if s.budget.None? then None else Some(s.budget.value - 1))
  }

  /** `cb.on_...(...)` for callback number `i`. The call is recorded before the callback
      runs, so a callback that raises still shows in the trace, and whatever it changed
      before raising stays changed. */
  function Call(s: Session, i: nat, hook: Hook): (r: Session)
    requires i < |s.trainer.callbacks|
    ensures |r.trainer.callbacks| == |s.trainer.callbacks|
    ensures s.crash.Some? ==> r == s
    ensures Uninterruptible(s) ==> Uninterruptible(r)
    ensures Running(s) ==> r.trace == s.trace + [Fired(i, hook)]
  {
    if !Running(s) then Halted(s)
    else
      var s1 := Spent(s).(trace := s.trace + [Fired(i, hook)]);
      match Dispatch(s.trainer, s.disk, i, hook)
      case Ok(td) => s1.(trainer := td.0, disk := td.1)
      case Err(e) =>
        var left := Raised(s.trainer, s.disk, i, hook);
        s1.(trainer := left.0, disk := left.1, crash := Some(e))
  }

  /** `epo_samples = epo_batches = epo_loss = 0`. */
  function StartPhase(s: Session): (r: Session)
    ensures s.crash.Some? ==> r == s
    ensures Uninterruptible(s) ==> Uninterruptible(r)
  {
    if !Running(s) then Halted(s) else Spent(s).(accum := Accum(Some(0.0), 0))
  }

  /** `_do_optimize` on one training batch, then `epo_loss += ...` and
      `epo_samples += mb_size`. */
  function Optimize(s: Session, size: nat, out: TrainOut): (r: Session)
    ensures |r.trainer.callbacks| == |s.trainer.callbacks|
    ensures s.crash.Some? ==> r == s
    ensures Uninterruptible(s) ==> Uninterruptible(r)
  {
    if !Running(s) then Halted(s)
    else if s.accum.loss.None? then s.(crash := Some(NoneArithmetic))
    else
      var t := s.trainer;
      Spent(s).(trainer := t.(params := Params(t.params.updates + 1)),
                accum := Accum(Some(s.accum.loss.value + Contribution(t.sizeAverage, size, out.loss)),
                               s.accum.samples + size))
  }

  /** `_do_evaluate` on one validation batch: a `None` loss makes `epo_loss` `None`;
      adding a number to `None` raises `TypeError`. */
  function Evaluate(s: Session, size: nat, vout: ValidOut): (r: Session)
    ensures |r.trainer.callbacks| == |s.trainer.callbacks|
    ensures s.crash.Some? ==> r == s
    ensures Uninterruptible(s) ==> Uninterruptible(r)
  {
    if !Running(s) then Halted(s)
    else if vout.loss.None? then Spent(s).(accum := Accum(None, s.accum.samples + size))
    else if s.accum.loss.None? then s.(crash := Some(NoneArithmetic))
    else Spent(s).(accum := Accum(Some(s.accum.loss.value + Contribution(s.trainer.sizeAverage, size, vout.loss.value)),
                                  s.accum.samples + size))
  }

  /** `self.train_loss = float(epo_loss / epo_samples)`, appended to the history;
      dividing by zero samples raises. */
  function CloseTrain(s: Session): (r: Session)
    ensures |r.trainer.callbacks| == |s.trainer.callbacks|
    ensures s.crash.Some? ==> r == s
    ensures Uninterruptible(s) ==> Uninterruptible(r)
  {
    if !Running(s) then Halted(s)
    else if s.accum.loss.None? then s.(crash := Some(NoneArithmetic))
    else if s.accum.samples == 0 then s.(crash := Some(ZeroDivision))
    else
      var t := s.trainer;
      var l := s.accum.loss.value / s.accum.samples as real;
      Spent(s).(trainer := t.(trainLoss := Some(l), metrics := t.metrics.(trainLosses := t.metrics.trainLosses + [l])))
  }

  /** `self.valid_loss` is `None` when `epo_loss` is, the mean loss otherwise; either is
      appended to the history. */
  function CloseValid(s: Session): (r: Session)
    ensures |r.trainer.callbacks| == |s.trainer.callbacks|
    ensures s.crash.Some? ==> r == s
    ensures Uninterruptible(s) ==> Uninterruptible(r)
  {
    if !Running(s) then Halted(s)
    else
      var t := s.trainer;
      if s.accum.loss.None? then
        Spent(s).(trainer := t.(validLoss := Some(None),
                                metrics := t.metrics.(validLosses := t.metrics.validLosses + [None])))
      else if s.accum.samples == 0 then s.(crash := Some(ZeroDivision))
      else
        var l := s.accum.loss.value / s.accum.samples as real;
        Spent(s).(trainer := t.(validLoss := Some(Some(l)),
                                metrics := t.metrics.(validLosses := t.metrics.validLosses + [Some(l)])))
  }

  /** Without a validation loader `None` is appended; `valid_loss` is left alone. */
  function SkipValid(s: Session): (r: Session)
    ensures |r.trainer.callbacks| == |s.trainer.callbacks|
    ensures s.crash.Some? ==> r == s
    ensures Uninterruptible(s) ==> Uninterruptible(r)
  {
    if !Running(s) then Halted(s)
    else
      var t := s.trainer;
      Spent(s).(trainer := t.(metrics := t.metrics.(validLosses := t.metrics.validLosses + [None])))
  }

  /** The epoch-wise scheduler: `ReduceLROnPlateau` is stepped with `self.valid_loss`
      when that holds a number, and raises otherwise (see `PlateauError`); any other
      scheduler gives `step()`. The argument of each call is logged, `None` standing for
      no argument. */
  function StepScheduler(s: Session): (r: Session)
    ensures |r.trainer.callbacks| == |s.trainer.callbacks|
    ensures s.crash.Some? ==> r == s
    ensures Uninterruptible(s) ==> Uninterruptible(r)
  {
    if !Running(s) then Halted(s)
    else
      var t := s.trainer;
      if t.scheduler.None? then Spent(s)
      else if t.scheduler.value.EpochScheduler? then Spent(s).(trainer := t.(schedulerCalls := t.schedulerCalls + [None]))
      else if !HoldsLoss(t) then s.(crash := Some(PlateauError(t)))
      else Spent(s).(trainer := t.(schedulerCalls := t.schedulerCalls + [t.validLoss.value]))
  }

  /** `for cb in self.callbacks: cb.on_...(...)`, from callback `i` on. */
  function Notify(s: Session, i: nat, hook: Hook): (r: Session)
    ensures |r.trainer.callbacks| == |s.trainer.callbacks|
    ensures Uninterruptible(s) ==> Uninterruptible(r)
    ensures s.crash.Some? ==> r == s
    decreases |s.trainer.callbacks| - i, 1
  {
    if s.crash.Some? || i >= |s.trainer.callbacks| then s
    else NotifyRest(s, i, hook)
  }

  /** Callback `i`, then the rest. */
  function NotifyRest(s: Session, i: nat, hook: Hook): (r: Session)
    requires i < |s.trainer.callbacks|
    ensures |r.trainer.callbacks| == |s.trainer.callbacks|
    ensures Uninterruptible(s) ==> Uninterruptible(r)
    ensures s.crash.Some? ==> r == s
    decreases |s.trainer.callbacks| - i, 0
  {
    Notify(Call(s, i, hook), i + 1, hook)
  }

  /** What the opaque model reports for batch `b` of epoch `e`. */
  datatype TrainFeed = TrainFeed(loader: Loader, out: (int, nat) -> TrainOut)
  datatype ValidFeed = ValidFeed(loader: Loader, out: (int, nat) -> ValidOut)

  /** One training batch: `on_batch_begin` for every callback, the optimizer step, then
      `on_batch_end` for every callback. */
  function TrainBatch(s: Session, e: int, b: nat, size: nat, out: TrainOut): (r: Session)
    ensures |r.trainer.callbacks| == |s.trainer.callbacks|
    ensures Uninterruptible(s) ==> Uninterruptible(r)
  {
    Notify(Optimize(Notify(s, 0, BatchBegin(e, b, size)), size, out), 0, BatchEnd(e, b, size, out))
  }

  /** Training batches `b ..` of epoch `e`. */
  function TrainLoop(s: Session, e: int, sizes: seq<Pos>, f: (int, nat) -> TrainOut, b: nat): (r: Session)
    ensures |r.trainer.callbacks| == |s.trainer.callbacks|
    ensures Uninterruptible(s) ==> Uninterruptible(r)
    ensures s.crash.Some? ==> r == s
    decreases |sizes| - b
  {
    if s.crash.Some? || b >= |sizes| then s
    else TrainLoop(TrainBatch(s, e, b, sizes[b], f(e, b)), e, sizes, f, b + 1)
  }

  /** One validation batch: no optimizer step, `on_vbatch_begin` / `on_vbatch_end`. */
  function ValidBatch(s: Session, e: int, b: nat, size: nat, out: ValidOut): (r: Session)
    ensures |r.trainer.callbacks| == |s.trainer.callbacks|
    ensures Uninterruptible(s) ==> Uninterruptible(r)
  {
    Notify(Evaluate(Notify(s, 0, VBatchBegin(e, b, size)), size, out), 0, VBatchEnd(e, b, size, out))
  }

  function ValidLoop(s: Session, e: int, sizes: seq<Pos>, f: (int, nat) -> ValidOut, b: nat): (r: Session)
    ensures |r.trainer.callbacks| == |s.trainer.callbacks|
    ensures Uninterruptible(s) ==> Uninterruptible(r)
    ensures s.crash.Some? ==> r == s
    decreases |sizes| - b
  {
    if s.crash.Some? || b >= |sizes| then s
    else ValidLoop(ValidBatch(s, e, b, sizes[b], f(e, b)), e, sizes, f, b + 1)
  }

  /** The training phase of epoch `e`, up to appending its loss. */
  function TrainPhase(s: Session, e: int, train: TrainFeed): (r: Session)
    ensures |r.trainer.callbacks| == |s.trainer.callbacks|
    ensures Uninterruptible(s) ==> Uninterruptible(r)
  {
    var s1 := StartPhase(Notify(s, 0, EpochBegin(e)));
    CloseTrain(TrainLoop(s1, e, BatchSizes(train.loader), train.out, 0))
  }

  /** The validation phase, or the `None` entry when there is no validation loader. */
  function ValidPhase(s: Session, e: int, valid: Option<ValidFeed>): (r: Session)
    ensures |r.trainer.callbacks| == |s.trainer.callbacks|
    ensures Uninterruptible(s) ==> Uninterruptible(r)
  {
    if valid.None? then SkipValid(s)
    else CloseValid(ValidLoop(StartPhase(s), e, BatchSizes(valid.value.loader), valid.value.out, 0))
  }

  /** One epoch: both phases, `on_epoch_end` for every callback, then the scheduler. */
  function Epoch(s: Session, e: int, train: TrainFeed, valid: Option<ValidFeed>): (r: Session)
    ensures |r.trainer.callbacks| == |s.trainer.callbacks|
    ensures Uninterruptible(s) ==> Uninterruptible(r)
  {
    StepScheduler(Notify(ValidPhase(TrainPhase(s, e, train), e, valid), 0, EpochEnd(e)))
  }

  /** `for epoch in range(e, e + count)` with `body` as the loop body, stopping at the
      first exception. */
  function EpochLoop(body: (Session, int) -> Session, s: Session, e: int, count: nat): (r: Session)
    ensures s.crash.Some? ==> r == s
    ensures (forall x: Session, k: int :: |body(x, k).trainer.callbacks| == |x.trainer.callbacks|) ==>
      |r.trainer.callbacks| == |s.trainer.callbacks|
    ensures (forall x: Session, k: int :: Uninterruptible(x) ==> Uninterruptible(body(x, k))) ==>
      (Uninterruptible(s) ==> Uninterruptible(r))
    decreases count, 1
  {
    if s.crash.Some? || count == 0 then s
    else EpochStep(body, s, e, count)
  }

  /** One pass of the loop body, then the remaining epochs. */
  function EpochStep(body: (Session, int) -> Session, s: Session, e: int, count: nat): (r: Session)
    requires count > 0
    ensures (forall x: Session, k: int :: |body(x, k).trainer.callbacks| == |x.trainer.callbacks|) ==>
      |r.trainer.callbacks| == |s.trainer.callbacks|
    ensures (forall x: Session, k: int :: Uninterruptible(x) ==> Uninterruptible(body(x, k))) ==>
      (Uninterruptible(s) ==> Uninterruptible(r))
    decreases count, 0
  {
    EpochLoop(body, body(s, e), e + 1, count - 1)
  }

  /** Epochs `e, e+1, ..., e+count-1`. */
  function Epochs(s: Session, e: int, count: nat, train: TrainFeed, valid: Option<ValidFeed>): (r: Session)
    ensures |r.trainer.callbacks| == |s.trainer.callbacks|
    ensures Uninterruptible(s) ==> Uninterruptible(r)
    ensures s.crash.Some? ==> r == s
  {
    EpochLoop((x: Session, k: int) => Epoch(x, k, train, valid), s, e, count)
  }

  /** `range(last_epoch + 1, last_epoch + n_epochs + 1)` is empty for `n_epochs <= 0`. */
  function EpochCount(nEpochs: int): nat {
    if nEpochs > 0 then nEpochs else 0
  }

  /** The session after the train-begin hooks, with `n_batches` set and the budget armed. */
  function Begun(t: Trainer, disk: Disk, nEpochs: int, train: TrainFeed, interrupt: Option<nat>): (s: Session)
    ensures |s.trainer.callbacks| == |t.callbacks|
  {
    var t0 := t.(nBatches := NumBatches(train.loader.samples, train.loader.batchSize));
    Notify(Session(t0, disk, [], Accum(Some(0.0), 0), interrupt, None), 0, TrainBegin(nEpochs))
  }

  datatype Outcome = Completed | Interrupted | Crashed(error: Error)

  /** The trainer and files after a call, the hooks delivered, and how it ended. */
  datatype Run = Run(trainer: Trainer, disk: Disk, trace: seq<Event>, outcome: Outcome)

  /** The events of delivering `hook` to callbacks `i .. n-1`. */
  function Calls(i: nat, n: nat, hook: Hook): (r: seq<Event>)
    decreases n - i
  {
    if i >= n then [] else [Fired(i, hook)] + Calls(i + 1, n, hook)
  }

  /** Delivering to every callback is the broadcast of the hook. */
  lemma {:induction false} CallsBroadcast(i: nat, n: nat, hook: Hook)
    requires i <= n
    ensures Calls(i, n, hook) == Broadcast(n, hook)[i..]
    decreases n - i
  {
    if i < n {
      CallsBroadcast(i + 1, n, hook);
      var b := Broadcast(n, hook);
      assert b[i..] == [b[i]] + b[i + 1..];
    }
  }

  /** A hook loop that raises nothing delivers the hook to callbacks `i ..`, in order. */
  lemma {:induction false} NotifyTrace(s: Session, i: nat, hook: Hook)
    requires s.crash.None?
    ensures var r := Notify(s, i, hook);
      r.crash.None? ==> r.trace == s.trace + Calls(i, |s.trainer.callbacks|, hook)
    decreases |s.trainer.callbacks| - i
  {
    var n := |s.trainer.callbacks|;
    if i < n {
      var s1 := Call(s, i, hook);
      if s1.crash.None? {
        assert s1.trace == s.trace + [Fired(i, hook)];
        NotifyTrace(s1, i + 1, hook);
        assert s1.trace + Calls(i + 1, n, hook) == s.trace + Calls(i, n, hook);
      }
    }
  }

  /** The train-end hooks after the `try` block, run without a pending interrupt. */
  function Finish(s2: Session, nEpochs: int): (r: Session)
    ensures |r.trainer.callbacks| == |s2.trainer.callbacks|
    ensures r.crash.None? ==> r.trace == s2.trace + Broadcast(|s2.trainer.callbacks|, TrainEnd(nEpochs))
  {
    var s := s2.(budget := None, crash := None);
    NotifyTrace(s, 0, TrainEnd(nEpochs));
    CallsBroadcast(0, |s2.trainer.callbacks|, TrainEnd(nEpochs));
    Notify(s, 0, TrainEnd(nEpochs))
  }

  /** After the `try` block ended in `s2`: a `KeyboardInterrupt` is swallowed and the
      train-end hooks still run; any other exception escapes before them. */
  function Conclude(s2: Session, nEpochs: int): (r: Run)
    ensures |r.trainer.callbacks| == |s2.trainer.callbacks|
    ensures !r.outcome.Crashed? ==>
      r.trace == s2.trace + Broadcast(|s2.trainer.callbacks|, TrainEnd(nEpochs))
    ensures r.outcome.Interrupted? <==> s2.crash == Some(KeyboardInterrupt) && Finish(s2, nEpochs).crash.None?
    ensures r.outcome.Completed? <==> s2.crash.None? && Finish(s2, nEpochs).crash.None?
    ensures s2.crash.Some? && s2.crash != Some(KeyboardInterrupt) ==>
      r == Run(s2.trainer, s2.disk, s2.trace, Crashed(s2.crash.value))
  {
    if s2.crash.Some? && s2.crash.value != KeyboardInterrupt then
      Run(s2.trainer, s2.disk, s2.trace, Crashed(s2.crash.value))
    else
      var s3 := Finish(s2, nEpochs);
      if s3.crash.Some? then Run(s3.trainer, s3.disk, s3.trace, Crashed(s3.crash.value))
      else Run(s3.trainer, s3.disk, s3.trace, if s2.crash.Some? then Interrupted else Completed)
  }

  /** `fit_loader(n_epochs, train_data, valid_data)`. Its `try` block runs the
      train-begin hooks, then the epochs, numbered from the `last_epoch` those hooks left
      behind. `interrupt` is the number of steps of the `try` block that complete before a
      `KeyboardInterrupt` (none if absent). Without an interrupt the call never reports
      one; and whenever it does not crash, it ends by delivering `on_train_end` to every
      callback in registration order, even after an interrupt. */
  function FitLoader(t: Trainer, disk: Disk, nEpochs: int, train: TrainFeed, valid: Option<ValidFeed>,
                     interrupt: Option<nat>): (r: Run)
    ensures |r.trainer.callbacks| == |t.callbacks|
    ensures interrupt.None? ==> !r.outcome.Interrupted?
    ensures var n := |t.callbacks|;
      !r.outcome.Crashed? ==> |r.trace| >= n && r.trace[|r.trace| - n..] == Broadcast(n, TrainEnd(nEpochs))
  {
    var s1 := Begun(t, disk, nEpochs, train, interrupt);
    assert interrupt.None? ==> Uninterruptible(s1);
    Conclude(Epochs(s1, s1.trainer.lastEpoch + 1, EpochCount(nEpochs), train, valid), nEpochs)
  }

  /** `fit(n_epochs, X, Y, valid_data, valid_split, batch_size)`: `fit_loader` over
      loaders of `batch_size`. With `valid_data` the training loader holds all `X` and the
      validation loader `valid_data`; otherwise, with `valid_split`, the first
      `int(valid_split * N)` samples (as Python slices them) validate and the rest train;
      with neither there is no validation. */
  function Fit(t: Trainer, disk: Disk, nEpochs: int, samples: nat, validData: Option<nat>, validSplit: Option<real>,
               batchSize: Pos, trainOut: (int, nat) -> TrainOut, validOut: (int, nat) -> ValidOut,
               interrupt: Option<nat>): (r: Run)
    ensures validData.Some? ==>
      r == FitLoader(t, disk, nEpochs, TrainFeed(Loader(samples, batchSize), trainOut),
                     Some(ValidFeed(Loader(validData.value, batchSize), validOut)), interrupt)
    ensures validData.None? && validSplit.Some? ==>
      var parts := ValidSplit(seq(samples, i => i), validSplit.value);
      r == FitLoader(t, disk, nEpochs, TrainFeed(Loader(|parts.1|, batchSize), trainOut),
                     Some(ValidFeed(Loader(|parts.0|, batchSize), validOut)), interrupt)
    ensures validData.None? && validSplit.None? ==>
      r == FitLoader(t, disk, nEpochs, TrainFeed(Loader(samples, batchSize), trainOut), None, interrupt)
  {
    var loaders := FitLoaders(samples, validData, validSplit, batchSize);
    var validFeed := if loaders.1.Some? then Some(ValidFeed(loaders.1.value, validOut)) else None;
    if validData.None? && validSplit.Some? then
      FitLoadersSplit(samples, validSplit.value, batchSize);
      FitLoader(t, disk, nEpochs, TrainFeed(loaders.0, trainOut), validFeed, interrupt)
    else
      FitLoader(t, disk, nEpochs, TrainFeed(loaders.0, trainOut), validFeed, interrupt)
  }
}
