/** `AccuracyMetric` (lines 418-449): per-epoch counters of correct predictions and
    seen samples for both phases, turned into one accuracy value per phase and epoch. */
module Accuracy {
  import opened Base
  import opened Batches
  import opened Store

  /** The metric name the tracker registers under. */
  const Name: string := "acc"

  datatype State = State(trainAccum: nat, validAccum: nat, nTrain: nat, nValid: nat)

  /** Never more correct predictions than samples seen. */
  predicate Consistent(s: State) {
    s.trainAccum <= s.nTrain && s.validAccum <= s.nValid
  }

  /** `on_train_begin`: (re)register an empty `acc` list in both phases, discarding any
      accuracy history already there; the losses stay as they are. */
  function OnTrainBegin(m: Metrics): (r: Metrics)
    ensures Name in r.train && r.train[Name] == []
    ensures Name in r.valid && r.valid[Name] == []
    ensures r.trainLosses == m.trainLosses && r.validLosses == m.validLosses
    ensures forall k :: k in m.train && k != Name ==> k in r.train && r.train[k] == m.train[k]
    ensures forall k :: k in m.valid && k != Name ==> k in r.valid && r.valid[k] == m.valid[k]
  {
    m.(train := m.train[Name := []], valid := m.valid[Name := []])
  }

  /** `on_epoch_begin`: all four counters restart from zero. */
  function OnEpochBegin(): (s: State)
    ensures s.trainAccum == 0 && s.validAccum == 0 && s.nTrain == 0 && s.nValid == 0
  {
    State(0, 0, 0, 0)
  }

  /** `on_batch_end`: count the batch's correct predictions and its samples. */
  function OnBatchEnd(s: State, size: nat, correct: nat): (r: State)
    ensures r.trainAccum == s.trainAccum + correct && r.nTrain == s.nTrain + size
    ensures r.validAccum == s.validAccum && r.nValid == s.nValid
    ensures correct <= size && Consistent(s) ==> Consistent(r)
  {
    s.(trainAccum := s.trainAccum + correct, nTrain := s.nTrain + size)
  }

  /** `on_vbatch_end`: the same for the validation counters. */
  function OnVBatchEnd(s: State, size: nat, correct: nat): (r: State)
    ensures r.validAccum == s.validAccum + correct && r.nValid == s.nValid + size
    ensures r.trainAccum == s.trainAccum && r.nTrain == s.nTrain
    ensures correct <= size && Consistent(s) ==> Consistent(r)
  {
    s.(validAccum := s.validAccum + correct, nValid := s.nValid + size)
  }

  function Ratio(correct: int, total: int): (r: real)
    requires total > 0
    ensures 0 <= correct <= total ==> 0.0 <= r <= 1.0
  {
    (1.0 * correct as real) / total as real
  }

  /** Append `value` to the list registered under `Name`; a missing name raises `KeyError`. */
  function AppendTo(phase: map<string, seq<real>>, value: real): (r: Result<map<string, seq<real>>>)
    ensures r.Ok? <==> Name in phase
    ensures r.Ok? ==> r.value == phase[Name := phase[Name] + [value]]
  {
    if Name in phase then Ok(phase[Name := phase[Name] + [value]]) else Err(KeyMissing(Name))
  }

  /** `on_epoch_end`: append `correct / total` to each phase that saw a sample this
      epoch; a phase that saw none gets no entry. */
  function OnEpochEnd(s: State, m: Metrics): (r: Result<Metrics>)
    ensures r.Ok? <==> (s.nTrain > 0 ==> Name in m.train) && (s.nValid > 0 ==> Name in m.valid)
    ensures r.Ok? ==> r.value.trainLosses == m.trainLosses && r.value.validLosses == m.validLosses
    ensures r.Ok? && s.nTrain == 0 ==> r.value.train == m.train
    ensures r.Ok? && s.nValid == 0 ==> r.value.valid == m.valid
    ensures r.Ok? && s.nTrain > 0 ==>
      r.value.train == m.train[Name := m.train[Name] + [Ratio(s.trainAccum, s.nTrain)]]
    ensures r.Ok? && s.nValid > 0 ==>
      r.value.valid == m.valid[Name := m.valid[Name] + [Ratio(s.validAccum, s.nValid)]]
  {
    var train :- if s.nTrain > 0 then AppendTo(m.train, Ratio(s.trainAccum, s.nTrain)) else Ok(m.train);
    var valid :- if s.nValid > 0 then AppendTo(m.valid, Ratio(s.validAccum, s.nValid)) else Ok(m.valid);
    Ok(m.(train := train, valid := valid))
  }

  /** The metrics `on_epoch_end` leaves behind when it raises. The training entry is
      appended before the validation one, so when only the validation `acc` list is
      missing, the training accuracy is already recorded; a raise from the training
      append leaves the metrics untouched. Either way the result is what the call would
      have returned for an epoch without validation samples, had it succeeded. */
  function OnEpochEndRaised(s: State, m: Metrics): (r: Metrics)
    requires OnEpochEnd(s, m).Err?
    ensures r.trainLosses == m.trainLosses && r.validLosses == m.validLosses && r.valid == m.valid
    ensures s.nTrain > 0 && Name in m.train <==> r.train != m.train
    ensures OnEpochEnd(s.(nValid := 0), m).Ok? ==> r == OnEpochEnd(s.(nValid := 0), m).value
    ensures OnEpochEnd(s.(nValid := 0), m).Err? ==> r == m
  {
    if s.nTrain > 0 && Name in m.train then
      var acc := m.train[Name] + [Ratio(s.trainAccum, s.nTrain)];
      assert |acc| != |m.train[Name]|;
      m.(train := m.train[Name := acc])
    else m
  }

  /** Every accuracy the tracker appends lies in [0, 1]. */
  lemma AppendedAccuracyInUnitInterval(s: State, m: Metrics)
    requires Consistent(s)
    requires OnEpochEnd(s, m).Ok?
    ensures s.nTrain > 0 ==> var v := OnEpochEnd(s, m).value.train[Name]; 0.0 <= v[|v| - 1] <= 1.0
    ensures s.nValid > 0 ==> var v := OnEpochEnd(s, m).value.valid[Name]; 0.0 <= v[|v| - 1] <= 1.0
  {
  }

  /** The training counters after a run of `on_batch_end` calls. */
  function AfterTrainBatches(s: State, sizes: seq<nat>, corrects: seq<nat>): State
    requires |sizes| == |corrects|
    decreases |sizes|
  {
    if |sizes| == 0 then s
    else AfterTrainBatches(OnBatchEnd(s, sizes[0], corrects[0]), sizes[1..], corrects[1..])
  }

  lemma {:induction false} TrainCountersAreSums(s: State, sizes: seq<nat>, corrects: seq<nat>)
    requires |sizes| == |corrects|
    ensures AfterTrainBatches(s, sizes, corrects).trainAccum == s.trainAccum + Sum(corrects)
    ensures AfterTrainBatches(s, sizes, corrects).nTrain == s.nTrain + Sum(sizes)
    ensures AfterTrainBatches(s, sizes, corrects).nValid == s.nValid
    decreases |sizes|
  {
    if |sizes| > 0 {
      TrainCountersAreSums(OnBatchEnd(s, sizes[0], corrects[0]), sizes[1..], corrects[1..]);
    }
  }

  /** An epoch whose training batches had `k_i` correct out of `m_i` appends
      `(sum of k_i) / (sum of m_i)` as its training accuracy. */
  lemma EpochTrainAccuracy(sizes: seq<nat>, corrects: seq<nat>, m: Metrics)
    requires |sizes| == |corrects|
    requires Sum(sizes) > 0
    requires Name in m.train && Name in m.valid
    ensures var s := AfterTrainBatches(OnEpochBegin(), sizes, corrects);
      OnEpochEnd(s, m).Ok? &&
      OnEpochEnd(s, m).value.train[Name] == m.train[Name] + [Ratio(Sum(corrects), Sum(sizes))]
  {
    TrainCountersAreSums(OnEpochBegin(), sizes, corrects);
  }
}
