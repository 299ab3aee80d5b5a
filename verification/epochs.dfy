/** How the interpreted epochs of `fit_loader` (lines 95-188) relate to the reference
    definition: exactly equal under callbacks that do nothing and without an
    interrupt; equal on the trainer's own bookkeeping under any callbacks, as long as
    nothing was raised. */
module EpochEffects {
  import opened Base
  import opened Batches
  import opened Store
  import opened Hooks
  import opened Training
  import opened Fitting
  import opened FitFrames
  import opened Phases
  import opened Reference

  /** `on_epoch_begin` for every callback (or none), then the accumulators reset. */
  lemma OpenEffect(s: Session, h: Hook)
    requires s.crash.None? && h.InEpoch()
    ensures var r := StartPhase(Notify(s, 0, h));
      r.crash.None? ==> r.accum == Accum(Some(0.0), 0) && Agrees(s.trainer, r.trainer)
  {
    NotifyFrame(s, 0, h);
  }

  /** Closing the training phase divides the accumulated loss by the samples seen,
      raising for none. */
  lemma CloseTrainEffect(s: Session)
    requires s.crash.None? && s.accum.loss.Some?
    ensures var r := CloseTrain(s);
      (s.accum.samples == 0 ==> r.crash.Some?) &&
      (r.crash.None? ==>
         s.accum.samples != 0 &&
         var l := s.accum.loss.value / s.accum.samples as real;
         r.trainer == s.trainer.(trainLoss := Some(l),
                                 metrics := s.trainer.metrics.(trainLosses := s.trainer.metrics.trainLosses + [l])))
  {
  }

  lemma TrainStageCompose(t0: Trainer, t1: Trainer, t2: Trainer, t3: Trainer, n: nat, l: real)
    requires Agrees(t0, t1) && Steady(t1, t2) && Recorded(t1, t2)
    requires t2.params.updates == t1.params.updates + n
    requires t3 == t2.(trainLoss := Some(l), metrics := t2.metrics.(trainLosses := t2.metrics.trainLosses + [l]))
    ensures var u := Stepped(t0, n);
      Agrees(u.(trainLoss := Some(l), metrics := u.metrics.(trainLosses := u.metrics.trainLosses + [l])), t3)
  {
    SteadyTransitive(t0, t1, t2);
  }

  /** The training phase of an epoch agrees with the reference training stage when it
      raises nothing, and raises whenever the stage does. */
  lemma TrainPhaseEffect(s: Session, e: int, train: TrainFeed)
    requires s.crash.None?
    ensures var r := TrainPhase(s, e, train); var ts := TrainStage(s.trainer, e, train);
      (r.crash.None? ==> ts.Ok? && Agrees(ts.value, r.trainer)) && (ts.Err? ==> r.crash.Some?)
  {
    var sa := s.trainer.sizeAverage;
    var sizes := BatchSizes(train.loader);
    var s1 := StartPhase(Notify(s, 0, EpochBegin(e)));
    OpenEffect(s, EpochBegin(e));
    if s1.crash.None? {
      var s2 := TrainLoop(s1, e, sizes, train.out, 0);
      TrainLoopEffect(s1, e, sizes, train.out, 0);
      if s2.crash.None? {
        assert sizes[0..] == sizes;
        var a := Accumulated(sa, sizes, TrainLosses(e, train.out, |sizes|, 0));
        assert s2.accum == Accum(Some(0.0 + a), 0 + train.loader.samples);
        CloseTrainEffect(s2);
        var r := CloseTrain(s2);
        if r.crash.None? {
          TrainStageCompose(s.trainer, s1.trainer, s2.trainer, r.trainer, |sizes|, a / train.loader.samples as real);
        }
      }
    }
  }

  /** With callbacks that do nothing and no interrupt, the training phase is exactly
      the reference stage, and raises exactly its `ZeroDivisionError`. */
  lemma TrainPhasePlain(s: Session, e: int, train: TrainFeed)
    requires s.crash.None? && AllPlain(s.trainer.callbacks) && Uninterruptible(s)
    ensures var r := TrainPhase(s, e, train); var ts := TrainStage(s.trainer, e, train);
      (r.crash.None? <==> ts.Ok?) && (ts.Err? ==> r.crash == Some(ts.error)) &&
      (ts.Ok? ==> r.trainer == ts.value) && r.disk == s.disk
  {
    var sa := s.trainer.sizeAverage;
    var sizes := BatchSizes(train.loader);
    NotifyPlain(s, 0, EpochBegin(e));
    var s1 := StartPhase(Notify(s, 0, EpochBegin(e)));
    var s2 := TrainLoop(s1, e, sizes, train.out, 0);
    TrainLoopPlain(s1, e, sizes, train.out, 0);
    TrainLoopEffect(s1, e, sizes, train.out, 0);
    assert sizes[0..] == sizes;
    CloseTrainEffect(s2);
  }

  /** Closing the validation phase: `None` when `epo_loss` is `None`, the mean
      otherwise, raising for no samples. */
  lemma CloseValidEffect(s: Session)
    requires s.crash.None?
    ensures var r := CloseValid(s);
      (s.accum.loss.Some? && s.accum.samples == 0 ==> r.crash.Some?) &&
      (r.crash.None? && s.accum.loss.None? ==>
         r.trainer == s.trainer.(validLoss := Some(None),
                                 metrics := s.trainer.metrics.(validLosses := s.trainer.metrics.validLosses + [None]))) &&
      (r.crash.None? && s.accum.loss.Some? ==>
         s.accum.samples != 0 &&
         var v := Some(s.accum.loss.value / s.accum.samples as real);
         r.trainer == s.trainer.(validLoss := Some(v),
                                 metrics := s.trainer.metrics.(validLosses := s.trainer.metrics.validLosses + [v])))
  {
  }

  lemma ValidStageCompose(t0: Trainer, t2: Trainer, t3: Trainer, v: Option<real>)
    requires Agrees(t0, t2)
    requires t3 == t2.(validLoss := Some(v), metrics := t2.metrics.(validLosses := t2.metrics.validLosses + [v]))
    ensures Agrees(t0.(validLoss := Some(v), metrics := t0.metrics.(validLosses := t0.metrics.validLosses + [v])), t3)
  {
  }

  /** The validation phase agrees with the reference validation stage when it raises
      nothing, and raises whenever the stage does. */
  lemma ValidPhaseEffect(s: Session, e: int, valid: Option<ValidFeed>)
    requires s.crash.None?
    ensures var r := ValidPhase(s, e, valid); var vs := ValidStage(s.trainer, e, valid);
      (r.crash.None? ==> vs.Ok? && Agrees(vs.value, r.trainer)) && (vs.Err? ==> r.crash.Some?)
  {
    if valid.None? {
      SetupKeepsKinds(s.trainer, s.trainer);
    } else {
      var sa := s.trainer.sizeAverage;
      var feed := valid.value;
      var sizes := BatchSizes(feed.loader);
      var s1 := StartPhase(s);
      if s1.crash.None? {
        SetupKeepsKinds(s.trainer, s.trainer);
        var s2 := ValidLoop(s1, e, sizes, feed.out, 0);
        ValidLoopEffect(s1, e, sizes, feed.out, 0);
        assert sizes[0..] == sizes;
        if s2.crash.None? {
          CloseValidEffect(s2);
          var r := CloseValid(s2);
          if r.crash.None? {
            ValidStageCompose(s.trainer, s2.trainer, r.trainer, r.trainer.validLoss.value);
          }
        }
      }
    }
  }

  /** With callbacks that do nothing and no interrupt, the validation phase is exactly
      the reference stage and raises exactly its error. */
  lemma ValidPhasePlain(s: Session, e: int, valid: Option<ValidFeed>)
    requires s.crash.None? && AllPlain(s.trainer.callbacks) && Uninterruptible(s)
    ensures var r := ValidPhase(s, e, valid); var vs := ValidStage(s.trainer, e, valid);
      (r.crash.None? <==> vs.Ok?) && (vs.Err? ==> r.crash == Some(vs.error)) &&
      (vs.Ok? ==> r.trainer == vs.value) && r.disk == s.disk
  {
    if valid.Some? {
      var feed := valid.value;
      var sizes := BatchSizes(feed.loader);
      var s1 := StartPhase(s);
      var s2 := ValidLoop(s1, e, sizes, feed.out, 0);
      ValidLoopPlain(s1, e, sizes, feed.out, 0);
      ValidLoopEffect(s1, e, sizes, feed.out, 0);
      assert sizes[0..] == sizes;
      if s2.crash.None? {
        CloseValidEffect(s2);
      }
    }
  }

  /** `on_epoch_end` for every callback, then the scheduler: when nothing is raised the
      scheduler log grows as the reference says, and a scheduler that cannot be stepped
      always raises. */
  lemma CloseEpochEffect(s: Session, e: int)
    requires s.crash.None?
    ensures var r := StepScheduler(Notify(s, 0, EpochEnd(e))); var lg := SchedulerLog(s.trainer);
      (r.crash.None? ==> lg.Ok? && Agrees(s.trainer.(schedulerCalls := s.trainer.schedulerCalls + lg.value), r.trainer)) &&
      (lg.Err? ==> r.crash.Some?)
  {
    var s1 := Notify(s, 0, EpochEnd(e));
    NotifyFrame(s, 0, EpochEnd(e));
    if s1.crash.None? {
      SchedulerLogCongruent(s.trainer, s1.trainer);
    }
  }

  /** With callbacks that do nothing and no interrupt, the end of an epoch only logs the
      scheduler call, raising exactly when the reference does. */
  lemma CloseEpochPlain(s: Session, e: int)
    requires s.crash.None? && AllPlain(s.trainer.callbacks) && Uninterruptible(s)
    ensures var r := StepScheduler(Notify(s, 0, EpochEnd(e))); var lg := SchedulerLog(s.trainer);
      (r.crash.None? <==> lg.Ok?) && (lg.Err? ==> r.crash == Some(lg.error)) &&
      (lg.Ok? ==> r.trainer == s.trainer.(schedulerCalls := s.trainer.schedulerCalls + lg.value)) && r.disk == s.disk
  {
    NotifyPlain(s, 0, EpochEnd(e));
  }

  /** One interpreted epoch agrees with the reference epoch when it raises nothing, and
      raises whenever the reference does. */
  lemma EpochEffect(s: Session, e: int, train: TrainFeed, valid: Option<ValidFeed>)
    requires s.crash.None?
    ensures var r := Epoch(s, e, train, valid); var pe := PlainEpoch(s.trainer, e, train, valid);
      (r.crash.None? ==> pe.Ok? && Agrees(pe.value, r.trainer)) && (pe.Err? ==> r.crash.Some?)
  {
    var ts := TrainStage(s.trainer, e, train);
    var s1 := TrainPhase(s, e, train);
    TrainPhaseEffect(s, e, train);
    if s1.crash.None? {
      var s2 := ValidPhase(s1, e, valid);
      ValidPhaseEffect(s1, e, valid);
      ValidStageCongruent(ts.value, s1.trainer, e, valid);
      if s2.crash.None? {
        var vs := ValidStage(ts.value, e, valid);
        var vs1 := ValidStage(s1.trainer, e, valid);
        AgreesTransitive(vs.value, vs1.value, s2.trainer);
        CloseEpochEffect(s2, e);
        SchedulerLogCongruent(vs.value, s2.trainer);
        var r := StepScheduler(Notify(s2, 0, EpochEnd(e)));
        if r.crash.None? {
          var lg := SchedulerLog(s2.trainer);
          AgreesTransitive(vs.value.(schedulerCalls := vs.value.schedulerCalls + lg.value),
                           s2.trainer.(schedulerCalls := s2.trainer.schedulerCalls + lg.value), r.trainer);
        }
      }
    }
  }

  /** With callbacks that do nothing and no interrupt, an epoch is exactly the reference
      epoch, raising exactly its error. */
  lemma EpochPlain(s: Session, e: int, train: TrainFeed, valid: Option<ValidFeed>)
    requires s.crash.None? && AllPlain(s.trainer.callbacks) && Uninterruptible(s)
    ensures var r := Epoch(s, e, train, valid); var pe := PlainEpoch(s.trainer, e, train, valid);
      (r.crash.None? <==> pe.Ok?) && (pe.Err? ==> r.crash == Some(pe.error)) &&
      (pe.Ok? ==> r.trainer == pe.value) && r.disk == s.disk
  {
    var s1 := TrainPhase(s, e, train);
    TrainPhasePlain(s, e, train);
    if s1.crash.None? {
      var s2 := ValidPhase(s1, e, valid);
      ValidPhasePlain(s1, e, valid);
      if s2.crash.None? {
        CloseEpochPlain(s2, e);
      }
    }
  }

  /** The interpreted run `r` stays in step with the reference outcome `p`: it raises
      whenever the reference does, and otherwise their trainers agree. */
  predicate Follows(r: Session, p: Result<Trainer>) {
    (r.crash.None? ==> p.Ok? && Agrees(p.value, r.trainer)) && (p.Err? ==> r.crash.Some?)
  }

  /** The interpreted run `r` from `s` is exactly the reference outcome `p`: the same
      error, or the same trainer; no file is written. */
  predicate Mirrors(r: Session, s: Session, p: Result<Trainer>) {
    (r.crash.None? <==> p.Ok?) && (p.Err? ==> r.crash == Some(p.error)) &&
    (p.Ok? ==> r.trainer == p.value) && r.disk == s.disk
  }

  /** Nothing raised, callbacks that do nothing, no interrupt pending. */
  predicate Quiet(s: Session) {
    s.crash.None? && AllPlain(s.trainer.callbacks) && Uninterruptible(s)
  }

  /** An epoch loop follows the reference loop when each body does and the reference
      body treats agreeing trainers alike. */
  lemma {:induction false} LoopFollows(body: (Session, int) -> Session, pbody: (Trainer, int) -> Result<Trainer>,
                                       s: Session, e: int, count: nat)
    requires s.crash.None?
    requires forall x: Session, k: int | x.crash.None? :: Follows(body(x, k), pbody(x.trainer, k))
    requires forall u: Trainer, v: Trainer, k: int | Agrees(u, v) :: AgreeResults(pbody(u, k), pbody(v, k))
    ensures Follows(EpochLoop(body, s, e, count), PlainLoop(pbody, s.trainer, e, count))
    decreases count
  {
    if count == 0 {
      AgreesReflexive(s.trainer);
    } else {
      var s1 := body(s, e);
      assert EpochLoop(body, s, e, count) == EpochLoop(body, s1, e + 1, count - 1);
      if s1.crash.None? {
        var pe := pbody(s.trainer, e);
        LoopFollows(body, pbody, s1, e + 1, count - 1);
        AgreesSymmetric(pe.value, s1.trainer);
        PlainLoopCongruent(pbody, s1.trainer, pe.value, e + 1, count - 1);
        var r := EpochLoop(body, s1, e + 1, count - 1);
        if r.crash.None? {
          var q := PlainLoop(pbody, s1.trainer, e + 1, count - 1);
          var p := PlainLoop(pbody, pe.value, e + 1, count - 1);
          AgreesSymmetric(q.value, p.value);
          AgreesTransitive(p.value, q.value, r.trainer);
        }
      }
    }
  }

  /** An epoch loop mirrors the reference loop when each body does on quiet sessions and
      keeps them quiet. */
  lemma {:induction false} LoopMirrors(body: (Session, int) -> Session, pbody: (Trainer, int) -> Result<Trainer>,
                                       s: Session, e: int, count: nat)
    requires Quiet(s)
    requires forall x: Session, k: int | Quiet(x) ::
      (Mirrors(body(x, k), x, pbody(x.trainer, k)) && (body(x, k).crash.None? ==> Quiet(body(x, k))))
    ensures Mirrors(EpochLoop(body, s, e, count), s, PlainLoop(pbody, s.trainer, e, count))
    ensures EpochLoop(body, s, e, count).crash.None? ==> Quiet(EpochLoop(body, s, e, count))
    decreases count
  {
    if count > 0 && body(s, e).crash.None? {
      LoopMirrors(body, pbody, body(s, e), e + 1, count - 1);
    }
  }

  /** Any number of interpreted epochs agree with the reference when nothing is raised,
      and raise whenever the reference does. */
  lemma EpochsEffect(s: Session, e: int, count: nat, train: TrainFeed, valid: Option<ValidFeed>)
    requires s.crash.None?
    ensures Follows(Epochs(s, e, count, train, valid), PlainEpochs(s.trainer, e, count, train, valid))
  {
    var body := (x: Session, k: int) => Epoch(x, k, train, valid);
    var pbody := (t: Trainer, k: int) => PlainEpoch(t, k, train, valid);
    forall x: Session, k: int | x.crash.None? ensures Follows(body(x, k), pbody(x.trainer, k)) {
      EpochEffect(x, k, train, valid);
    }
    forall u: Trainer, v: Trainer, k: int | Agrees(u, v) ensures AgreeResults(pbody(u, k), pbody(v, k)) {
      PlainEpochCongruent(u, v, k, train, valid);
    }
    LoopFollows(body, pbody, s, e, count);
  }

  /** What a caller sees of a finished call: how it ended, the trainer when it completed,
      and the files. */
  function Report(r: Run): (Outcome, Option<Trainer>, Disk) {
    (r.outcome, if r.outcome.Completed? then Some(r.trainer) else None, r.disk)
  }

  /** What a caller sees of a call that does exactly what reference run `p` does: it
      completes with `p`'s trainer when `p` succeeds, raises `p`'s error otherwise, and
      leaves the files `disk` alone. */
  function Expected(p: Result<Trainer>, disk: Disk): (Outcome, Option<Trainer>, Disk) {
    if p.Ok? then (Completed, Some(p.value), disk) else (Crashed(p.error), None, disk)
  }

  predicate Ends(r: Run, p: Result<Trainer>, disk: Disk) {
    Report(r) == Expected(p, disk)
  }

  /** With callbacks that do nothing and no interrupt, the epochs are exactly the
      reference epochs, raising exactly the first error the reference meets. */
  lemma EpochsPlain(s: Session, e: int, count: nat, train: TrainFeed, valid: Option<ValidFeed>)
    requires Quiet(s)
    ensures Mirrors(Epochs(s, e, count, train, valid), s, PlainEpochs(s.trainer, e, count, train, valid))
    ensures Epochs(s, e, count, train, valid).crash.None? ==> Quiet(Epochs(s, e, count, train, valid))
  {
    var body := (x: Session, k: int) => Epoch(x, k, train, valid);
    var pbody := (t: Trainer, k: int) => PlainEpoch(t, k, train, valid);
    forall x: Session, k: int | Quiet(x)
      ensures Mirrors(body(x, k), x, pbody(x.trainer, k)) && (body(x, k).crash.None? ==> Quiet(body(x, k)))
    {
      EpochPlain(x, k, train, valid);
    }
    LoopMirrors(body, pbody, s, e, count);
  }
}
