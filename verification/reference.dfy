/** A reference definition of what the epochs of `fit_loader` (lines 95-188) do to a
    trainer, stated on the trainer alone: no hooks, no accumulators, no interrupt.
    Under callbacks that do nothing the interpreter computes exactly this; under any
    callbacks it agrees with it on the trainer's own bookkeeping. */
module Reference {
  import opened Base
  import opened Batches
  import opened Store
  import opened Training
  import opened Fitting
  import opened FitFrames
  import opened Phases

  /** The training loss `fit_loader` records for epoch `e`: `epo_loss / epo_samples`,
      `None` when the loader is empty and the division raises. */
  function TrainEpochLoss(sa: bool, train: TrainFeed, e: int): (r: Option<real>)
    ensures r.Some? <==> train.loader.samples > 0
  {
    var sizes := BatchSizes(train.loader);
    if train.loader.samples == 0 then None
    else Some(Accumulated(sa, sizes, TrainLosses(e, train.out, |sizes|, 0)) / train.loader.samples as real)
  }

  /** With `size_average` the recorded training loss is the batch losses' mean weighted
      by batch size, so it lies between the smallest and the largest batch loss. */
  lemma TrainEpochLossIsWeightedMean(train: TrainFeed, e: int, lo: real, hi: real)
    requires train.loader.samples > 0
    requires forall b :: 0 <= b < NumBatches(train.loader.samples, train.loader.batchSize) ==>
      lo <= train.out(e, b).loss <= hi
    ensures var sizes := BatchSizes(train.loader);
      TrainEpochLoss(true, train, e) == Some(EpochLoss(true, sizes, TrainLosses(e, train.out, |sizes|, 0)))
    ensures lo <= TrainEpochLoss(true, train, e).value <= hi
  {
    var sizes := BatchSizes(train.loader);
    var ls := TrainLosses(e, train.out, |sizes|, 0);
    assert forall i :: 0 <= i < |ls| ==> ls[i] == train.out(e, i).loss;
    WeightedEpochLossBounds(sizes, ls, lo, hi);
  }

  /** The validation entry `fit_loader` records for epoch `e`: `None` once a batch
      reported `None`; `TypeError` when a number follows such a batch; the mean loss
      otherwise, which divides by zero for an empty loader. */
  function ValidEpochLoss(sa: bool, valid: ValidFeed, e: int): (r: Result<Option<real>>)
    ensures r.Err? ==> r.error == NoneArithmetic || r.error == ZeroDivision
  {
    var sizes := BatchSizes(valid.loader);
    var va :- ValidAccumulated(sa, Some(0.0), sizes, ValidLosses(e, valid.out, |sizes|, 0));
    if va.None? then Ok(None)
    else if valid.loader.samples == 0 then Err(ZeroDivision)
    else Ok(Some(va.value / valid.loader.samples as real))
  }

  /** The validation entry in terms of the batch losses: `TypeError` exactly when a
      `None` is followed by a number; `None` exactly when some batch reported `None`
      and no number followed; `ZeroDivisionError` exactly for an empty loader; the
      mean otherwise. */
  lemma ValidEpochLossMeaning(sa: bool, valid: ValidFeed, e: int)
    ensures var sizes := BatchSizes(valid.loader);
      var ls := ValidLosses(e, valid.out, |sizes|, 0);
      var r := ValidEpochLoss(sa, valid, e);
      (r == Err(NoneArithmetic) <==> NoneThenSome(ls)) &&
      (r == Ok(None) <==> !AllSome(ls) && !NoneThenSome(ls)) &&
      (r == Err(ZeroDivision) <==> valid.loader.samples == 0) &&
      (AllSome(ls) && valid.loader.samples > 0 ==>
        r == Ok(Some(Accumulated(sa, sizes, Values(ls)) / valid.loader.samples as real)))
  {
    var sizes := BatchSizes(valid.loader);
    var ls := ValidLosses(e, valid.out, |sizes|, 0);
    ValidAccumulatedMeaning(sa, 0.0, sizes, ls);
    if valid.loader.samples == 0 {
      assert |ls| == 0;
      assert AllSome(ls) && !NoneThenSome(ls);
    }
  }

  /** `n` copies of `x`. */
  function Copies<T>(x: T, n: nat): (r: seq<T>)
    ensures |r| == n && forall i :: 0 <= i < n ==> r[i] == x
  {
    if n == 0 then [] else [x] + Copies(x, n - 1)
  }

  /** The training losses `count` completed epochs from `e` record. */
  function TrainRecord(sa: bool, train: TrainFeed, e: int, count: nat): (r: seq<real>)
    requires train.loader.samples > 0
    ensures |r| == count
    ensures count > 0 ==> r[0] == TrainEpochLoss(sa, train, e).value
    decreases count
  {
    if count == 0 then [] else [TrainEpochLoss(sa, train, e).value] + TrainRecord(sa, train, e + 1, count - 1)
  }

  /** The validation entries `count` completed epochs from `e` record. */
  function ValidRecord(sa: bool, valid: Option<ValidFeed>, e: int, count: nat): (r: seq<Option<real>>)
    ensures |r| == count
    ensures valid.None? ==> r == Copies(None, count)
    decreases count
  {
    if count == 0 then [] else [ValidEntry(sa, valid, e)] + ValidRecord(sa, valid, e + 1, count - 1)
  }

  /** Two trainers agree on everything the trainer's own steps read and write: the
      configuration, callback kinds, history, parameters, `last_epoch`, both losses and
      the scheduler log. They may differ in callback state, learning rates and the
      metric dictionaries. */
  predicate Agrees(u: Trainer, v: Trainer) {
    Steady(u, v) && Keeps(u, v)
  }

  lemma AgreesTransitive(a: Trainer, b: Trainer, c: Trainer)
    requires Agrees(a, b) && Agrees(b, c)
    ensures Agrees(a, c)
  {
    SteadyTransitive(a, b, c);
  }

  lemma AgreesSymmetric(a: Trainer, b: Trainer)
    requires Agrees(a, b)
    ensures Agrees(b, a)
  {
    forall j | 0 <= j < |b.callbacks|
      ensures SameKind(b.callbacks[j], a.callbacks[j])
    {
      assert SameKind(a.callbacks[j], b.callbacks[j]);
    }
  }

  lemma AgreesReflexive(a: Trainer)
    ensures Agrees(a, a)
  {
    SetupKeepsKinds(a, a);
  }

  /** The training phase: one optimizer step per batch, the epoch's loss recorded in
      `train_loss` and the history. */
  function TrainStage(t: Trainer, e: int, train: TrainFeed): (r: Result<Trainer>)
    ensures r.Err? <==> train.loader.samples == 0
    ensures r.Err? ==> r.error == ZeroDivision
  {
    var l := TrainEpochLoss(t.sizeAverage, train, e);
    if l.None? then Err(ZeroDivision)
    else
      var u := Stepped(t, |BatchSizes(train.loader)|);
      Ok(u.(trainLoss := l, metrics := u.metrics.(trainLosses := u.metrics.trainLosses + [l.value])))
  }

  /** The validation phase: `None` recorded without a loader (`valid_loss` untouched);
      otherwise the epoch's entry, recorded in `valid_loss` and the history. */
  function ValidStage(t: Trainer, e: int, valid: Option<ValidFeed>): (r: Result<Trainer>)
    ensures valid.None? ==> r.Ok?
    ensures valid.Some? ==> (r.Err? <==> ValidEpochLoss(t.sizeAverage, valid.value, e).Err?)
  {
    if valid.None? then Ok(t.(metrics := t.metrics.(validLosses := t.metrics.validLosses + [None])))
    else
      var v :- ValidEpochLoss(t.sizeAverage, valid.value, e);
      Ok(t.(validLoss := Some(v), metrics := t.metrics.(validLosses := t.metrics.validLosses + [v])))
  }

  /** What `scheduler.step` receives at the end of an epoch: nothing without a
      scheduler; no argument for an ordinary one; `self.valid_loss` for
      `ReduceLROnPlateau`. The latter raises `AttributeError` if `valid_loss` was never
      assigned and `TypeError` if it is `None`, since `step()` then lacks its `metrics`. */
  function SchedulerLog(t: Trainer): (r: Result<seq<Option<real>>>)
    ensures r.Err? <==> t.scheduler == Some(ReduceOnPlateau) && !HoldsLoss(t)
    ensures r.Err? && t.validLoss.None? ==> r.error == MissingAttribute("valid_loss")
    ensures r.Err? && t.validLoss.Some? ==> r.error == MissingArgument("metrics")
    ensures r.Ok? ==> |r.value| == (if t.scheduler.None? then 0 else 1)
    ensures r.Ok? && t.scheduler == Some(EpochScheduler) ==> r.value == [None]
    ensures r.Ok? && t.scheduler == Some(ReduceOnPlateau) ==> r.value == [t.validLoss.value] && r.value[0].Some?
  {
    if t.scheduler.None? then Ok([])
    else if t.scheduler.value.EpochScheduler? then Ok([None])
    else if !HoldsLoss(t) then Err(PlateauError(t))
    else Ok([t.validLoss.value])
  }

  /** One epoch on the trainer: train, validate, step the scheduler. */
  function PlainEpoch(t: Trainer, e: int, train: TrainFeed, valid: Option<ValidFeed>): (r: Result<Trainer>)
    ensures r.Ok? ==> r.value.callbacks == t.callbacks
  {
    var t1 :- TrainStage(t, e, train);
    var t2 :- ValidStage(t1, e, valid);
    var log :- SchedulerLog(t2);
    Ok(t2.(schedulerCalls := t2.schedulerCalls + log))
  }

  /** The validation history entry of epoch `e` when the epoch completes: `None` without
      a loader. */
  function ValidEntry(sa: bool, valid: Option<ValidFeed>, e: int): Option<real> {
    if valid.None? then None
    else match ValidEpochLoss(sa, valid.value, e)
      case Ok(v) => v
      case Err(_) => None
  }

  /** An empty training loader divides by zero; without validation an epoch fails only
      on a `ReduceLROnPlateau` whose `valid_loss` holds no number, with `PlateauError`.
      `r` is the outcome of an epoch from `t`. */
  predicate EpochFailure(t: Trainer, train: TrainFeed, valid: Option<ValidFeed>, r: Result<Trainer>) {
    (train.loader.samples == 0 ==> r == Err(ZeroDivision)) &&
    (valid.None? && train.loader.samples > 0 ==>
      (r.Err? <==> t.scheduler == Some(ReduceOnPlateau) && !HoldsLoss(t)) &&
      (r.Err? ==> r.error == PlateauError(t)))
  }

  /** A completed epoch appends one loss per phase to the history (and keeps the
      `size_average` flag that weighs them). */
  predicate EpochHistory(t: Trainer, e: int, train: TrainFeed, valid: Option<ValidFeed>, r: Result<Trainer>) {
    r.Ok? ==>
      train.loader.samples > 0 && r.value.sizeAverage == t.sizeAverage &&
      r.value.metrics.trainLosses == t.metrics.trainLosses + [TrainEpochLoss(t.sizeAverage, train, e).value] &&
      r.value.metrics.validLosses == t.metrics.validLosses + [ValidEntry(t.sizeAverage, valid, e)]
  }

  /** A completed epoch leaves `last_epoch`, the callbacks and the configuration alone,
      makes one optimizer step per batch, reassigns `valid_loss` only when there is a
      validation loader, and steps the scheduler once, with `valid_loss` for
      `ReduceLROnPlateau`. */
  predicate EpochProgress(t: Trainer, e: int, train: TrainFeed, valid: Option<ValidFeed>, r: Result<Trainer>) {
    r.Ok? ==>
      r.value.lastEpoch == t.lastEpoch && r.value.sizeAverage == t.sizeAverage &&
      r.value.scheduler == t.scheduler && r.value.callbacks == t.callbacks &&
      r.value.params.updates == t.params.updates + NumBatches(train.loader.samples, train.loader.batchSize) &&
      r.value.validLoss == (if valid.None? then t.validLoss else Some(ValidEntry(t.sizeAverage, valid, e))) &&
      (t.scheduler.None? ==> r.value.schedulerCalls == t.schedulerCalls) &&
      (t.scheduler == Some(EpochScheduler) ==> r.value.schedulerCalls == t.schedulerCalls + [None]) &&
      (t.scheduler == Some(ReduceOnPlateau) ==>
        HoldsLoss(r.value) && r.value.schedulerCalls == t.schedulerCalls + [r.value.validLoss.value])
  }

  /** What one epoch does to the trainer. */
  lemma PlainEpochRecord(t: Trainer, e: int, train: TrainFeed, valid: Option<ValidFeed>)
    ensures var r := PlainEpoch(t, e, train, valid);
      EpochFailure(t, train, valid, r) && EpochHistory(t, e, train, valid, r) && EpochProgress(t, e, train, valid, r)
  {
  }

  /** `for epoch in range(e, e + count)` on the trainer, with `body` as the loop body,
      stopping at the first exception. */
  function PlainLoop(body: (Trainer, int) -> Result<Trainer>, t: Trainer, e: int, count: nat): (r: Result<Trainer>)
    decreases count
  {
    if count == 0 then Ok(t)
    else
      var r1 := body(t, e);
      if r1.Err? then r1 else PlainLoop(body, r1.value, e + 1, count - 1)
  }

  /** Epochs `e, e+1, ..., e+count-1`, stopping at the first exception. */
  function PlainEpochs(t: Trainer, e: int, count: nat, train: TrainFeed, valid: Option<ValidFeed>): (r: Result<Trainer>)
  {
    PlainLoop((u: Trainer, k: int) => PlainEpoch(u, k, train, valid), t, e, count)
  }

  /** Two outcomes raise the same error or end in agreeing trainers. */
  predicate AgreeResults(a: Result<Trainer>, b: Result<Trainer>) {
    (a.Ok? <==> b.Ok?) && (a.Err? ==> a.error == b.error) && (a.Ok? ==> Agrees(a.value, b.value))
  }

  lemma TrainStageCongruent(u: Trainer, v: Trainer, e: int, train: TrainFeed)
    requires Agrees(u, v)
    ensures var ru := TrainStage(u, e, train); var rv := TrainStage(v, e, train);
      (ru.Ok? <==> rv.Ok?) && (ru.Ok? ==> Agrees(ru.value, rv.value))
  {
  }

  lemma ValidStageCongruent(u: Trainer, v: Trainer, e: int, valid: Option<ValidFeed>)
    requires Agrees(u, v)
    ensures var ru := ValidStage(u, e, valid); var rv := ValidStage(v, e, valid);
      (ru.Ok? <==> rv.Ok?) && (ru.Err? ==> ru.error == rv.error) && (ru.Ok? ==> Agrees(ru.value, rv.value))
  {
  }

  lemma SchedulerLogCongruent(u: Trainer, v: Trainer)
    requires Agrees(u, v)
    ensures SchedulerLog(u) == SchedulerLog(v)
    ensures SchedulerLog(u).Ok? ==>
      Agrees(u.(schedulerCalls := u.schedulerCalls + SchedulerLog(u).value),
             v.(schedulerCalls := v.schedulerCalls + SchedulerLog(v).value))
  {
  }

  /** Agreeing trainers run an epoch alike. */
  lemma PlainEpochCongruent(u: Trainer, v: Trainer, e: int, train: TrainFeed, valid: Option<ValidFeed>)
    requires Agrees(u, v)
    ensures var ru := PlainEpoch(u, e, train, valid); var rv := PlainEpoch(v, e, train, valid);
      (ru.Ok? <==> rv.Ok?) && (ru.Err? ==> ru.error == rv.error) && (ru.Ok? ==> Agrees(ru.value, rv.value))
  {
    TrainStageCongruent(u, v, e, train);
    var tu := TrainStage(u, e, train);
    if tu.Ok? {
      var tv := TrainStage(v, e, train);
      ValidStageCongruent(tu.value, tv.value, e, valid);
    }
  }

  /** A loop whose body treats agreeing trainers alike treats them alike. */
  lemma {:induction false} PlainLoopCongruent(body: (Trainer, int) -> Result<Trainer>, u: Trainer, v: Trainer,
                                              e: int, count: nat)
    requires Agrees(u, v)
    requires forall x: Trainer, y: Trainer, k: int | Agrees(x, y) :: AgreeResults(body(x, k), body(y, k))
    ensures AgreeResults(PlainLoop(body, u, e, count), PlainLoop(body, v, e, count))
    decreases count
  {
    if count > 0 && body(u, e).Ok? {
      PlainLoopCongruent(body, body(u, e).value, body(v, e).value, e + 1, count - 1);
    }
  }

  /** Agreeing trainers run any number of epochs alike. */
  lemma PlainEpochsCongruent(u: Trainer, v: Trainer, e: int, count: nat, train: TrainFeed, valid: Option<ValidFeed>)
    requires Agrees(u, v)
    ensures AgreeResults(PlainEpochs(u, e, count, train, valid), PlainEpochs(v, e, count, train, valid))
  {
    var body := (t: Trainer, k: int) => PlainEpoch(t, k, train, valid);
    forall x: Trainer, y: Trainer, k: int | Agrees(x, y) ensures AgreeResults(body(x, k), body(y, k)) {
      PlainEpochCongruent(x, y, k, train, valid);
    }
    PlainLoopCongruent(body, u, v, e, count);
  }

  /** The training history `count` epochs record, in closed form, for any loop whose body
      records what an epoch does: one loss per epoch. */
  lemma {:induction false} LoopTrainHistory(body: (Trainer, int) -> Result<Trainer>, t: Trainer, e: int, count: nat,
                                            train: TrainFeed, valid: Option<ValidFeed>)
    requires forall x: Trainer, k: int :: EpochHistory(x, k, train, valid, body(x, k))
    ensures var r := PlainLoop(body, t, e, count);
      r.Ok? && count > 0 ==>
        train.loader.samples > 0 &&
        r.value.metrics.trainLosses == t.metrics.trainLosses + TrainRecord(t.sizeAverage, train, e, count)
    decreases count
  {
    if count > 0 {
      var p := body(t, e);
      assert EpochHistory(t, e, train, valid, p);
      if p.Ok? {
        LoopTrainHistory(body, p.value, e + 1, count - 1, train, valid);
        var r := PlainLoop(body, p.value, e + 1, count - 1);
        if r.Ok? {
          var x := TrainEpochLoss(t.sizeAverage, train, e).value;
          var tr := TrainRecord(t.sizeAverage, train, e + 1, count - 1);
          assert TrainRecord(t.sizeAverage, train, e, count) == [x] + tr;
          assert r.value.metrics.trainLosses == (t.metrics.trainLosses + [x]) + tr;
        }
      }
    }
  }

  /** The validation history `count` epochs record, in closed form, for any loop whose
      body records what an epoch does: one entry per epoch. */
  lemma {:induction false} LoopValidHistory(body: (Trainer, int) -> Result<Trainer>, t: Trainer, e: int, count: nat,
                                            train: TrainFeed, valid: Option<ValidFeed>)
    requires forall x: Trainer, k: int :: EpochHistory(x, k, train, valid, body(x, k))
    ensures var r := PlainLoop(body, t, e, count);
      r.Ok? ==> r.value.metrics.validLosses == t.metrics.validLosses + ValidRecord(t.sizeAverage, valid, e, count)
    decreases count
  {
    if count > 0 {
      var p := body(t, e);
      assert EpochHistory(t, e, train, valid, p);
      if p.Ok? {
        LoopValidHistory(body, p.value, e + 1, count - 1, train, valid);
        var r := PlainLoop(body, p.value, e + 1, count - 1);
        if r.Ok? {
          var v := ValidEntry(t.sizeAverage, valid, e);
          var vr := ValidRecord(t.sizeAverage, valid, e + 1, count - 1);
          assert ValidRecord(t.sizeAverage, valid, e, count) == [v] + vr;
          assert r.value.metrics.validLosses == (t.metrics.validLosses + [v]) + vr;
        }
      }
    }
  }

  /** For any loop whose body records what an epoch does, `count` epochs leave
      `last_epoch`, the callbacks and the configuration alone, make one optimizer step
      per batch, and keep aligned histories aligned. */
  lemma {:induction false} LoopProgress(body: (Trainer, int) -> Result<Trainer>, t: Trainer, e: int, count: nat,
                                        train: TrainFeed, valid: Option<ValidFeed>)
    requires forall x: Trainer, k: int :: EpochProgress(x, k, train, valid, body(x, k))
    ensures var r := PlainLoop(body, t, e, count);
      r.Ok? ==>
        r.value.lastEpoch == t.lastEpoch && r.value.callbacks == t.callbacks &&
        r.value.sizeAverage == t.sizeAverage && r.value.scheduler == t.scheduler &&
        r.value.params.updates == t.params.updates + count * NumBatches(train.loader.samples, train.loader.batchSize)
    decreases count
  {
    if count > 0 {
      var p := body(t, e);
      assert EpochProgress(t, e, train, valid, p);
      if p.Ok? {
        LoopProgress(body, p.value, e + 1, count - 1, train, valid);
        var n := NumBatches(train.loader.samples, train.loader.batchSize);
        assert count * n == (count - 1) * n + n;
      }
    }
  }

  /** For any loop whose body fails as an epoch does: an empty training loader fails the
      first epoch; without validation the loop fails exactly when a `ReduceLROnPlateau`
      meets a `valid_loss` that holds no number, which no epoch then reassigns. */
  lemma {:induction false} LoopFailure(body: (Trainer, int) -> Result<Trainer>, t: Trainer, e: int, count: nat,
                                       train: TrainFeed, valid: Option<ValidFeed>)
    requires forall x: Trainer, k: int :: EpochFailure(x, train, valid, body(x, k))
    requires forall x: Trainer, k: int :: EpochProgress(x, k, train, valid, body(x, k))
    ensures var r := PlainLoop(body, t, e, count);
      (count > 0 && train.loader.samples == 0 ==> r == Err(ZeroDivision)) &&
      (valid.None? && train.loader.samples > 0 ==>
        (r.Err? <==> count > 0 && t.scheduler == Some(ReduceOnPlateau) && !HoldsLoss(t)) &&
        (r.Err? ==> r.error == PlateauError(t)))
    decreases count
  {
    if count > 0 {
      var p := body(t, e);
      assert EpochFailure(t, train, valid, p) && EpochProgress(t, e, train, valid, p);
      if p.Ok? {
        LoopFailure(body, p.value, e + 1, count - 1, train, valid);
      }
    }
  }

  /** For any loop whose body steps the scheduler as an epoch does: without validation
      `valid_loss` is never reassigned; no scheduler is never stepped; any scheduler but
      `ReduceLROnPlateau` is stepped once per epoch without argument. */
  lemma {:induction false} LoopSchedule(body: (Trainer, int) -> Result<Trainer>, t: Trainer, e: int, count: nat,
                                        train: TrainFeed, valid: Option<ValidFeed>)
    requires forall x: Trainer, k: int :: EpochProgress(x, k, train, valid, body(x, k))
    ensures var r := PlainLoop(body, t, e, count);
      r.Ok? && valid.None? ==> r.value.validLoss == t.validLoss
    ensures var r := PlainLoop(body, t, e, count);
      r.Ok? ==>
        (t.scheduler.None? ==> r.value.schedulerCalls == t.schedulerCalls) &&
        (t.scheduler == Some(EpochScheduler) ==> r.value.schedulerCalls == t.schedulerCalls + Copies(None, count))
    decreases count
  {
    if count > 0 {
      var p := body(t, e);
      assert EpochProgress(t, e, train, valid, p);
      if p.Ok? {
        LoopSchedule(body, p.value, e + 1, count - 1, train, valid);
        var r := PlainLoop(body, p.value, e + 1, count - 1);
        if r.Ok? && t.scheduler == Some(EpochScheduler) {
          var none: Option<real> := None;
          assert Copies(none, count) == [none] + Copies(none, count - 1);
          assert r.value.schedulerCalls == (t.schedulerCalls + [none]) + Copies(none, count - 1);
        }
      }
    }
  }

  /** For any loop whose body steps the scheduler as an epoch does, a `ReduceLROnPlateau`
      is stepped with each epoch's validation entry; without validation, with the same
      `valid_loss` every epoch, left over from before the loop. */
  lemma {:induction false} LoopPlateau(body: (Trainer, int) -> Result<Trainer>, t: Trainer, e: int, count: nat,
                                       train: TrainFeed, valid: Option<ValidFeed>)
    requires forall x: Trainer, k: int :: EpochProgress(x, k, train, valid, body(x, k))
    ensures var r := PlainLoop(body, t, e, count);
      r.Ok? && t.scheduler == Some(ReduceOnPlateau) ==>
        (valid.Some? ==> r.value.schedulerCalls == t.schedulerCalls + ValidRecord(t.sizeAverage, valid, e, count)) &&
        (valid.None? && count > 0 ==>
          HoldsLoss(t) && r.value.schedulerCalls == t.schedulerCalls + Copies(t.validLoss.value, count))
    decreases count
  {
    if count > 0 {
      var p := body(t, e);
      assert EpochProgress(t, e, train, valid, p);
      if p.Ok? {
        var t1 := p.value;
        LoopPlateau(body, t1, e + 1, count - 1, train, valid);
        var r := PlainLoop(body, t1, e + 1, count - 1);
        if r.Ok? && t.scheduler == Some(ReduceOnPlateau) {
          var c := t1.validLoss.value;
          if valid.None? {
            assert Copies(c, count) == [c] + Copies(c, count - 1);
            assert r.value.schedulerCalls == (t.schedulerCalls + [c]) + Copies(c, count - 1);
          } else {
            var vr := ValidRecord(t.sizeAverage, valid, e + 1, count - 1);
            assert ValidRecord(t.sizeAverage, valid, e, count) == [c] + vr;
            assert r.value.schedulerCalls == (t.schedulerCalls + [c]) + vr;
          }
        }
      }
    }
  }

  /** The history `count` epochs record. */
  lemma PlainEpochsHistory(t: Trainer, e: int, count: nat, train: TrainFeed, valid: Option<ValidFeed>)
    ensures var r := PlainEpochs(t, e, count, train, valid);
      r.Ok? && count > 0 ==>
        train.loader.samples > 0 &&
        r.value.metrics.trainLosses == t.metrics.trainLosses + TrainRecord(t.sizeAverage, train, e, count) &&
        r.value.metrics.validLosses == t.metrics.validLosses + ValidRecord(t.sizeAverage, valid, e, count)
    ensures var r := PlainEpochs(t, e, count, train, valid);
      r.Ok? ==>
        r.value.lastEpoch == t.lastEpoch && r.value.callbacks == t.callbacks &&
        r.value.params.updates == t.params.updates + count * NumBatches(train.loader.samples, train.loader.batchSize) &&
        (Aligned(t.metrics) ==> Aligned(r.value.metrics))
  {
    var body := (u: Trainer, k: int) => PlainEpoch(u, k, train, valid);
    forall x: Trainer, k: int
      ensures EpochHistory(x, k, train, valid, body(x, k)) && EpochProgress(x, k, train, valid, body(x, k))
    {
      PlainEpochRecord(x, k, train, valid);
    }
    LoopTrainHistory(body, t, e, count, train, valid);
    LoopValidHistory(body, t, e, count, train, valid);
    LoopProgress(body, t, e, count, train, valid);
  }

  /** How `count` epochs fail and how they step the scheduler. */
  lemma PlainEpochsSchedule(t: Trainer, e: int, count: nat, train: TrainFeed, valid: Option<ValidFeed>)
    ensures var r := PlainEpochs(t, e, count, train, valid);
      (count > 0 && train.loader.samples == 0 ==> r == Err(ZeroDivision)) &&
      (valid.None? && train.loader.samples > 0 ==>
        (r.Err? <==> count > 0 && t.scheduler == Some(ReduceOnPlateau) && !HoldsLoss(t)) &&
        (r.Err? ==> r.error == PlateauError(t)))
    ensures var r := PlainEpochs(t, e, count, train, valid);
      r.Ok? && valid.None? ==> r.value.validLoss == t.validLoss
    ensures var r := PlainEpochs(t, e, count, train, valid);
      r.Ok? ==>
        (t.scheduler.None? ==> r.value.schedulerCalls == t.schedulerCalls) &&
        (t.scheduler == Some(EpochScheduler) ==> r.value.schedulerCalls == t.schedulerCalls + Copies(None, count))
    ensures var r := PlainEpochs(t, e, count, train, valid);
      r.Ok? && t.scheduler == Some(ReduceOnPlateau) ==>
        (valid.Some? ==> r.value.schedulerCalls == t.schedulerCalls + ValidRecord(t.sizeAverage, valid, e, count)) &&
        (valid.None? && count > 0 ==>
          HoldsLoss(t) && r.value.schedulerCalls == t.schedulerCalls + Copies(t.validLoss.value, count))
  {
    var body := (u: Trainer, k: int) => PlainEpoch(u, k, train, valid);
    forall x: Trainer, k: int
      ensures EpochFailure(x, train, valid, body(x, k)) && EpochProgress(x, k, train, valid, body(x, k))
    {
      PlainEpochRecord(x, k, train, valid);
    }
    LoopFailure(body, t, e, count, train, valid);
    LoopSchedule(body, t, e, count, train, valid);
    LoopPlateau(body, t, e, count, train, valid);
  }
}
