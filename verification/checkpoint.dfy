/** `ModelCheckpoint` (lines 452-496): resume from disk at the start of training, keep
    and save the best model so far, optionally reload it at the end. */
module Checkpoint {
  import opened Base
  import opened Store

  /** `best_loss = 1e10`, the stand-in for "no best loss yet". */
  const Sentinel: real := 10000000000.0

  datatype Config = Config(basename: string, reset: bool, loadBest: bool)

  /** `best_loss`, `best_epoch` and the deep-copied `best_model`. */
  datatype Best = Best(loss: real, epoch: int, model: Params)

  /** `best` is `None` until `on_train_begin` assigns the three attributes. */
  datatype State = State(config: Config, best: Option<Best>)

  /** `ModelCheckpoint(basename, reset, load_best)`: no best is known yet. */
  function New(config: Config): (s: State)
    ensures s.config == config && s.best.None?
  {
    State(config, None)
  }

  /** `valid or train`: Python's `or` falls back on the training loss both when the
      validation loss is `None` and when it is exactly `0.0`. */
  function Monitored(valid: Option<real>, train: real): real
  {
    if valid.Some? && valid.value != 0.0 then valid.value else train
  }

  /** Only a non-zero validation loss is ever monitored; `None` and `0.0` alike yield
      the training loss. */
  lemma MonitoredFallback(valid: Option<real>, train: real)
    ensures Monitored(valid, train) == train <==> valid.None? || valid.value == 0.0 || valid.value == train
    ensures valid == Some(0.0) ==> Monitored(valid, train) == Monitored(None, train)
  {
  }

  /** `metrics['valid']['losses'][-1] or metrics['train']['losses'][-1]`: indexing an
      empty list raises, and the training list is only read when the fallback fires. */
  function LastMonitored(m: Metrics): (r: Result<real>)
    ensures r.Ok? <==> (|m.validLosses| > 0 &&
      (m.validLosses[|m.validLosses| - 1] in {None, Some(0.0)} ==> |m.trainLosses| > 0))
    ensures r.Err? ==> r.error == IndexOutOfRange
    ensures r.Ok? ==> r.value == Monitored(m.validLosses[|m.validLosses| - 1],
      if |m.trainLosses| > 0 then m.trainLosses[|m.trainLosses| - 1] else 0.0)
  {
    if |m.validLosses| == 0 then Err(IndexOutOfRange)
    else
      var v := m.validLosses[|m.validLosses| - 1];
      if v.Some? && v.value != 0.0 then Ok(v.value)
      else if |m.trainLosses| == 0 then Err(IndexOutOfRange)
      else Ok(m.trainLosses[|m.trainLosses| - 1])
  }

  /** What `on_train_begin` leaves behind: its own state and the trainer's parameters,
      history and `last_epoch`. */
  datatype Begun = Begun(state: State, params: Params, metrics: Metrics, lastEpoch: nat)

  /** The first half of `on_train_begin`: unless `reset`, resume from `<basename>.model`
      when it exists; realign `last_epoch` with the length of the training history; and
      start the best from the current model, the sentinel loss and that epoch. These
      effects are in place before the latest monitored loss is read, so they stay when
      that read raises. */
  function Resumed(s: State, params: Params, metrics: Metrics, disk: Disk): (b: Begun)
    ensures b.lastEpoch == |b.metrics.trainLosses|
    ensures b.state == State(s.config, Some(Best(Sentinel, b.lastEpoch, b.params)))
    ensures s.config.reset || s.config.basename !in disk.models ==>
      b.params == params && b.metrics == metrics
    ensures !s.config.reset && s.config.basename in disk.models ==>
      Ok((b.params, b.metrics)) == LoadTrainerState(disk, s.config.basename, params, metrics)
  {
    var (p, m) := if !s.config.reset && s.config.basename in disk.models
      then LoadTrainerState(disk, s.config.basename, params, metrics).value
      else (params, metrics);
    Begun(State(s.config, Some(Best(Sentinel, |m.trainLosses|, p))), p, m, |m.trainLosses|)
  }

  /** `on_train_begin`: resume as above, then replace the sentinel by the latest
      monitored loss when the history is not empty; that read raises when the lists it
      needs are empty. */
  function OnTrainBegin(s: State, params: Params, metrics: Metrics, disk: Disk): (r: Result<Begun>)
    ensures r.Ok? ==> r.value.lastEpoch == |r.value.metrics.trainLosses|
    ensures r.Ok? ==> r.value.state.config == s.config && r.value.state.best.Some?
    ensures r.Ok? ==> r.value.state.best.value.epoch == r.value.lastEpoch
    ensures r.Ok? ==> r.value.state.best.value.model == r.value.params
    ensures r.Ok? && r.value.lastEpoch == 0 ==> r.value.state.best.value.loss == Sentinel
    ensures r.Ok? && r.value.lastEpoch > 0 ==>
      Ok(r.value.state.best.value.loss) == LastMonitored(r.value.metrics)
    ensures r.Ok? && (s.config.reset || s.config.basename !in disk.models) ==>
      r.value.params == params && r.value.metrics == metrics
    ensures r.Ok? && !s.config.reset && s.config.basename in disk.models ==>
      Ok((r.value.params, r.value.metrics)) == LoadTrainerState(disk, s.config.basename, params, metrics)
    ensures r.Err? <==> (var m := if !s.config.reset && s.config.basename in disk.models
      then LoadTrainerState(disk, s.config.basename, params, metrics).value.1 else metrics;
      |m.trainLosses| > 0 && LastMonitored(m).Err?)
    ensures var b := Resumed(s, params, metrics, disk);
      r.Ok? ==> r.value.params == b.params && r.value.metrics == b.metrics && r.value.lastEpoch == b.lastEpoch
  {
    var b := Resumed(s, params, metrics, disk);
    if b.lastEpoch == 0 then Ok(b)
    else
      var loss :- LastMonitored(b.metrics);
      Ok(b.(state := State(s.config, Some(Best(loss, b.lastEpoch, b.params)))))
  }

  /** What `on_epoch_end` leaves behind, and whether it saved. */
  datatype Ended = Ended(state: State, disk: Disk, saved: bool)

  /** `on_epoch_end`: when the monitored loss is strictly below the best, it becomes the
      best (with this epoch and a copy of the model) and model and history are saved;
      otherwise nothing changes. */
  function OnEpochEnd(s: State, epoch: int, metrics: Metrics, params: Params, disk: Disk): (r: Result<Ended>)
    ensures r.Ok? <==> LastMonitored(metrics).Ok? && s.best.Some?
    ensures r.Ok? ==> r.value.state.config == s.config && r.value.state.best.Some?
    ensures r.Ok? ==> (r.value.saved <==> LastMonitored(metrics).value < s.best.value.loss)
    ensures r.Ok? ==> r.value.state.best.value.loss <= s.best.value.loss
    ensures r.Ok? ==> r.value.state.best.value.loss == MinReal(s.best.value.loss, LastMonitored(metrics).value)
    ensures r.Ok? && r.value.saved ==>
      r.value.state.best.value == Best(LastMonitored(metrics).value, epoch, params) &&
      r.value.disk == SaveTrainerState(disk, s.config.basename, params, metrics)
    ensures r.Ok? && !r.value.saved ==> r.value.state == s && r.value.disk == disk
  {
    var eloss :- LastMonitored(metrics);
    if s.best.None? then Err(MissingAttribute("best_loss"))
    else if eloss < s.best.value.loss then
      Ok(Ended(s.(best := Some(Best(eloss, epoch, params))),
               SaveTrainerState(disk, s.config.basename, params, metrics), true))
    else Ok(Ended(s, disk, false))
  }

  /** `on_train_end`: with `load_best`, reload the last saved model and history (a
      missing file raises); `last_epoch` is not touched. */
  function OnTrainEnd(s: State, params: Params, metrics: Metrics, disk: Disk): (r: Result<(Params, Metrics)>)
    ensures !s.config.loadBest ==> r == Ok((params, metrics))
    ensures s.config.loadBest ==> r == LoadTrainerState(disk, s.config.basename, params, metrics)
  {
    if s.config.loadBest then LoadTrainerState(disk, s.config.basename, params, metrics)
    else Ok((params, metrics))
  }

  /** Feed `on_epoch_end` one epoch per loss (training loss `losses[i]`, no validation),
      numbering epochs from `epoch`; collect the epochs at which it saved. They are
      among the fed epochs and strictly increasing. */
  function Replay(s: State, params: Params, m: Metrics, disk: Disk, losses: seq<real>, epoch: int): (saved: seq<int>)
    requires s.best.Some?
    ensures forall k :: 0 <= k < |saved| ==> epoch <= saved[k] < epoch + |losses|
    ensures forall k, l :: 0 <= k < l < |saved| ==> saved[k] < saved[l]
    decreases |losses|
  {
    if |losses| == 0 then []
    else
      var em := ReplayEpoch(s, params, m, disk, losses[0], epoch);
      var rest := Replay(em.0.state, params, em.1, em.0.disk, losses[1..], epoch + 1);
      if em.0.saved then [epoch] + rest else rest
  }

  /** One epoch of `Replay`: its losses appended, then `on_epoch_end`. */
  function ReplayEpoch(s: State, params: Params, m: Metrics, disk: Disk, loss: real, epoch: int): (r: (Ended, Metrics))
    requires s.best.Some?
    ensures r.1 == m.(trainLosses := m.trainLosses + [loss], validLosses := m.validLosses + [None])
    ensures r.0.state.best.Some?
    ensures Ok(r.0) == OnEpochEnd(s, epoch, r.1, params, disk)
  {
    var m' := m.(trainLosses := m.trainLosses + [loss], validLosses := m.validLosses + [None]);
    assert m'.validLosses[|m'.validLosses| - 1] == None && |m'.trainLosses| > 0;
    (OnEpochEnd(s, epoch, m', params, disk).value, m')
  }

  /** Loss `losses[i]` is a new record: strictly below the starting best and below every
      earlier loss. */
  ghost predicate Record(best: real, losses: seq<real>, i: nat)
    requires i < |losses|
  {
    losses[i] < best && forall j :: 0 <= j < i ==> losses[i] < losses[j]
  }

  /** The checkpointer saves at exactly the epochs whose loss is a strict record: equal
      losses never trigger a second save. */
  lemma {:induction false} ReplaySavesRecords(s: State, params: Params, m: Metrics, disk: Disk, losses: seq<real>, epoch: int)
    requires s.best.Some?
    ensures forall i :: 0 <= i < |losses| ==>
      (epoch + i in Replay(s, params, m, disk, losses, epoch) <==> Record(s.best.value.loss, losses, i))
    decreases |losses|
  {
    if |losses| > 0 {
      var (e, m') := ReplayEpoch(s, params, m, disk, losses[0], epoch);
      assert LastMonitored(m') == Ok(losses[0]);
      var b := s.best.value.loss;
      assert e.state.best.value.loss == MinReal(b, losses[0]);
      ReplaySavesRecords(e.state, params, m', e.disk, losses[1..], epoch + 1);
      var rest := Replay(e.state, params, m', e.disk, losses[1..], epoch + 1);
      var saved := Replay(s, params, m, disk, losses, epoch);
      assert saved == if e.saved then [epoch] + rest else rest;
      forall i | 0 <= i < |losses|
        ensures epoch + i in saved <==> Record(b, losses, i)
      {
        if i == 0 {
          assert epoch !in rest;
        } else {
          assert losses[1..][i - 1] == losses[i];
          assert epoch + i in saved <==> epoch + 1 + (i - 1) in rest;
          assert Record(MinReal(b, losses[0]), losses[1..], i - 1) <==> Record(b, losses, i) by {
            if Record(b, losses, i) {
              forall j | 0 <= j < i - 1
                ensures losses[1..][i - 1] < losses[1..][j]
              {
                assert losses[i] < losses[j + 1];
              }
            }
            if Record(MinReal(b, losses[0]), losses[1..], i - 1) {
              forall j | 0 <= j < i
                ensures losses[i] < losses[j]
              {
                if j > 0 {
                  assert losses[1..][i - 1] < losses[1..][j - 1];
                }
              }
            }
          }
        }
      }
    }
  }

  /** Starting from a fresh history (best 1e10), the training losses 0.5, 0.5, 0.4, 0.6
      of epochs 1-4 cause saves at epochs 1 and 3 only: a tie does not save. */
  lemma TwoSavesExample(config: Config, params: Params, disk: Disk)
    ensures Replay(State(config, Some(Best(Sentinel, 0, params))), params, Fresh(), disk, [0.5, 0.5, 0.4, 0.6], 1) == [1, 3]
  {
  }

  /** A perfect validation loss of `0.0` is not monitored: the checkpointer compares the
      training loss instead, so an epoch with validation loss 0 but a training loss
      above the best is not saved. */
  lemma ZeroValidationNotSaved(config: Config, params: Params, disk: Disk)
    ensures var m := Metrics([0.7], [Some(0.0)], map[], map[]);
      var s := State(config, Some(Best(0.5, 1, params)));
      OnEpochEnd(s, 2, m, params, disk).Ok? && !OnEpochEnd(s, 2, m, params, disk).value.saved
  {
  }
}
