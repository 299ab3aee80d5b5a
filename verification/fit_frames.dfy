/** What the hook loops of `fit_loader` do to the session: the frame every delivery
    respects, whatever the callbacks are. */
module FitFrames {
  import opened Base
  import opened Batches
  import opened Store
  import opened Hooks
  import opened Training
  import opened Fitting

  /** The recorded history and `last_epoch` are unchanged. */
  predicate Recorded(t: Trainer, u: Trainer) {
    u.metrics.trainLosses == t.metrics.trainLosses && u.metrics.validLosses == t.metrics.validLosses &&
    u.lastEpoch == t.lastEpoch
  }

  /** History, parameters and `last_epoch` are unchanged. */
  predicate Keeps(t: Trainer, u: Trainer) {
    Recorded(t, u) && u.params == t.params
  }

  /** The configuration no step of a run changes, callback kinds included. */
  predicate Setup(t: Trainer, u: Trainer) {
    u.sizeAverage == t.sizeAverage && u.scheduler == t.scheduler && u.nBatches == t.nBatches &&
    |u.callbacks| == |t.callbacks| &&
    forall j :: 0 <= j < |t.callbacks| ==> SameKind(t.callbacks[j], u.callbacks[j])
  }

  /** The configuration and the trainer's own per-epoch bookkeeping, which only the
      trainer's steps write. */
  predicate Steady(t: Trainer, u: Trainer) {
    Setup(t, u) && u.schedulerCalls == t.schedulerCalls &&
    u.trainLoss == t.trainLoss && u.validLoss == t.validLoss
  }

  predicate AllPlain(cbs: seq<Callback>) {
    forall i :: 0 <= i < |cbs| ==> cbs[i].Plain?
  }

  /** Callback kinds never change, so neither does having a checkpointer or having only
      plain callbacks. */
  lemma SetupKeepsKinds(t: Trainer, u: Trainer)
    requires Setup(t, u)
    ensures HasCheckpoint(t.callbacks) <==> HasCheckpoint(u.callbacks)
    ensures AllPlain(t.callbacks) <==> AllPlain(u.callbacks)
  {
    if HasCheckpoint(t.callbacks) {
      var i :| 0 <= i < |t.callbacks| && t.callbacks[i].ModelCheckpoint?;
      assert SameKind(t.callbacks[i], u.callbacks[i]);
    }
    if HasCheckpoint(u.callbacks) {
      var i :| 0 <= i < |u.callbacks| && u.callbacks[i].ModelCheckpoint?;
      assert SameKind(t.callbacks[i], u.callbacks[i]);
    }
  }

  lemma SteadyTransitive(t: Trainer, m: Trainer, u: Trainer)
    requires Steady(t, m) && Steady(m, u)
    ensures Steady(t, u)
  {
  }

  /** The frame of a run of deliveries of hook `h`: accumulators and bookkeeping stay;
      hooks of an epoch keep history, parameters and `last_epoch`; only the train-begin
      hooks move `last_epoch`; without a checkpointer the history, the parameters and
      the files stay too. */
  predicate HookFrame(s: Session, r: Session, h: Hook) {
    r.accum == s.accum && Steady(s.trainer, r.trainer) &&
    (h.InEpoch() ==> Keeps(s.trainer, r.trainer)) &&
    (!h.TrainBegin? ==> r.trainer.lastEpoch == s.trainer.lastEpoch) &&
    (!HasCheckpoint(s.trainer.callbacks) ==> Keeps(s.trainer, r.trainer) && r.disk == s.disk)
  }

  lemma HookFrameTransitive(s: Session, m: Session, r: Session, h: Hook)
    requires HookFrame(s, m, h) && HookFrame(m, r, h)
    ensures HookFrame(s, r, h)
  {
    SetupKeepsKinds(s.trainer, m.trainer);
  }

  /** Nothing but the trace and the budget changed; at most an interrupt was raised. */
  predicate Untouched(s: Session, r: Session) {
    r.trainer == s.trainer && r.disk == s.disk && r.accum == s.accum &&
    (r.crash.Some? ==> r.crash == Some(KeyboardInterrupt))
  }

  /** One delivery respects the frame; a plain callback changes nothing. */
  lemma FireFrame(s: Session, i: nat, h: Hook)
    requires s.crash.None? && i < |s.trainer.callbacks|
    ensures var r := Call(s, i, h);
      (r.crash.None? ==> HookFrame(s, r, h)) &&
      (AllPlain(s.trainer.callbacks) ==> Untouched(s, r))
  {
    var r := Call(s, i, h);
    if s.budget != Some(0) {
      var d := Dispatch(s.trainer, s.disk, i, h);
      if r.crash.None? {
        assert d.Ok? && r.trainer == d.value.0 && r.disk == d.value.1;
      }
    }
  }

  /** `for cb in self.callbacks: cb.on_...(...)` from callback `i` on, when it raises
      nothing, stays within the frame of its hook. */
  lemma {:induction false} NotifyFrame(s: Session, i: nat, h: Hook)
    requires s.crash.None?
    ensures var r := Notify(s, i, h); r.crash.None? ==> HookFrame(s, r, h)
    decreases |s.trainer.callbacks| - i
  {
    if i < |s.trainer.callbacks| {
      FireFrame(s, i, h);
      var s1 := Call(s, i, h);
      if s1.crash.None? {
        NotifyFrame(s1, i + 1, h);
        var r := Notify(s1, i + 1, h);
        if r.crash.None? {
          HookFrameTransitive(s, s1, r, h);
        }
      }
    } else {
      SetupKeepsKinds(s.trainer, s.trainer);
    }
  }

  /** Plain callbacks change nothing at all; only an interrupt can stop their loop. */
  lemma {:induction false} NotifyPlain(s: Session, i: nat, h: Hook)
    requires s.crash.None? && AllPlain(s.trainer.callbacks)
    ensures Untouched(s, Notify(s, i, h))
    decreases |s.trainer.callbacks| - i
  {
    if i < |s.trainer.callbacks| {
      FireFrame(s, i, h);
      var s1 := Call(s, i, h);
      if s1.crash.None? {
        NotifyPlain(s1, i + 1, h);
      }
    }
  }
}
