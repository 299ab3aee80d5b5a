/** What `evaluate_loader` (lines 196-252) promises: the hooks it calls and in which
    order, the loss it records compared with the validation entry `fit_loader` records,
    the partial mean it keeps after an interrupt, and what its callbacks record. */
module EvaluationTheory {
  import opened Base
  import opened Batches
  import opened Store
  import opened Hooks
  import opened Evaluation
  import Accuracy
  import Fitting
  import Phases
  import Reference

  /** The calls before the `try` block, for callbacks `i .. n-1`: `on_train_begin(1)`
      and `on_epoch_begin(1)` to each callback before the next. */
  function Interleaved(i: nat, n: nat): (r: seq<Event>)
    ensures |r| == 2 * (n - i) || (i > n && r == [])
    decreases n - i
  {
    if i >= n then [] else [Fired(i, TrainBegin(1)), Fired(i, EpochBegin(1))] + Interleaved(i + 1, n)
  }

  /** The calls of the batch loop from batch `b` on: only `on_vbatch_end`, to every
      callback, once per batch. */
  function SweepTrace(n: nat, sizes: seq<Pos>, f: (int, nat) -> ValidOut, b: nat): (r: seq<Event>)
    ensures b >= |sizes| ==> r == []
    decreases |sizes| - b
  {
    if b >= |sizes| then [] else Broadcast(n, VBatchEnd(1, b, sizes[b], f(1, b))) + SweepTrace(n, sizes, f, b + 1)
  }

  /** What the model reports as correct predictions for batches `b .. m-1`. */
  function Corrects(f: (int, nat) -> ValidOut, m: nat, b: nat): (cs: seq<int>)
    requires b <= m
    ensures |cs| == m - b && forall k :: 0 <= k < m - b ==> cs[k] == f(1, b + k).correct
  {
    seq(m - b, k requires 0 <= k < m - b => f(1, b + k).correct)
  }

  // ---------------------------------------------------------------------------
  // The hook calls

  lemma Associative(a: seq<Event>, b: seq<Event>, c: seq<Event>)
    ensures a + b + c == a + (b + c)
  {
  }

  lemma LeftUnit(a: seq<Event>)
    ensures [] + a == a
  {
  }

  lemma SplitAtPrefix(a: seq<Event>, b: seq<Event>)
    requires a <= b
    ensures b == a + b[|a|..]
  {
  }

  lemma PrefixOfConcat(a: seq<Event>, b: seq<Event>)
    ensures a <= a + b
  {
  }

  /** A broadcast that raises nothing delivers the hook to callbacks `i ..` in order. */
  lemma {:induction false} RelayTrace(w: Sweep, i: nat, hook: Hook, rates: nat)
    requires w.budget.None? && i <= |w.meters|
    ensures var r := Relay(w, i, hook, rates);
      r.crash.None? ==> w.crash.None? && r.trace == w.trace + Fitting.Calls(i, |w.meters|, hook)
    decreases |w.meters| - i
  {
    if w.crash.None? && i < |w.meters| {
      var w1 := Deliver(w, i, hook, rates);
      RelayTrace(w1, i + 1, hook, rates);
      assert Relay(w, i, hook, rates) == Relay(w1, i + 1, hook, rates);
    }
  }

  /** The loop before the `try` block, when it raises nothing, leaves the interleaved
      calls. */
  lemma {:induction false} OpeningTrace(w: Sweep, i: nat, rates: nat)
    requires w.budget.None? && i <= |w.meters|
    ensures var r := Opening(w, i, rates);
      r.crash.None? ==> r.trace == w.trace + Interleaved(i, |w.meters|)
    decreases |w.meters| - i
  {
    if w.crash.None? && i < |w.meters| {
      var w2 := Deliver(Deliver(w, i, TrainBegin(1), rates), i, EpochBegin(1), rates);
      OpeningTrace(w2, i + 1, rates);
      assert Opening(w, i, rates) == Opening(w2, i + 1, rates);
    }
  }

  /** One batch that raises nothing: `on_vbatch_end` to every callback. */
  lemma SweepBatchTrace(w: Sweep, sa: bool, rates: nat, b: nat, size: Pos, vout: ValidOut)
    requires w.budget.None?
    ensures var r := SweepBatch(w, sa, rates, b, size, vout);
      r.crash.None? ==> r.trace == w.trace + Broadcast(|w.meters|, VBatchEnd(1, b, size, vout))
  {
    var hook := VBatchEnd(1, b, size, vout);
    var w1 := Measure(Count(w, size), sa, size, vout);
    RelayTrace(w1, 0, hook, rates);
    Fitting.CallsBroadcast(0, |w.meters|, hook);
    assert Broadcast(|w.meters|, hook)[0..] == Broadcast(|w.meters|, hook);
  }

  /** The batch loop, when nothing interrupts or raises, leaves one `on_vbatch_end`
      broadcast per batch. */
  lemma {:induction false} SweepLoopTrace(w: Sweep, sa: bool, rates: nat, sizes: seq<Pos>, f: (int, nat) -> ValidOut, b: nat)
    requires w.budget.None?
    ensures var r := SweepLoop(w, sa, rates, sizes, f, b);
      r.crash.None? ==> r.trace == w.trace + SweepTrace(|w.meters|, sizes, f, b)
    decreases |sizes| - b
  {
    if w.crash.None? && b < |sizes| {
      var w2 := SweepBatch(w, sa, rates, b, sizes[b], f(1, b));
      SweepBatchTrace(w, sa, rates, b, sizes[b], f(1, b));
      SweepLoopTrace(w2, sa, rates, sizes, f, b + 1);
      assert SweepLoop(w, sa, rates, sizes, f, b) == SweepLoop(w2, sa, rates, sizes, f, b + 1);
      var x := Broadcast(|w.meters|, VBatchEnd(1, b, sizes[b], f(1, b)));
      var y := SweepTrace(|w.meters|, sizes, f, b + 1);
      assert SweepTrace(|w.meters|, sizes, f, b) == x + y;
      Associative(w.trace, x, y);
    }
  }

  /** Leaving the `try` block and calling `on_epoch_end` on every callback: the last
      calls of a pass that returns. */
  lemma FinishTrace(w: Sweep, rates: nat)
    requires Sane(w)
    ensures var r := Finish(w, rates);
      r.Ok? ==> r.value.trace == w.trace + Broadcast(|w.meters|, EpochEnd(1))
  {
    var w3 := Settle(w);
    RelayTrace(w3, 0, EpochEnd(1), rates);
    var z := Broadcast(|w.meters|, EpochEnd(1));
    Fitting.CallsBroadcast(0, |w.meters|, EpochEnd(1));
    assert z[0..] == z;
  }

  /** Up to leaving the `try` block: the interleaved calls, then (when nothing
      interrupted or raised) one `on_vbatch_end` broadcast per batch. */
  lemma SweptTrace(ms: seq<Meter>, sa: bool, rates: nat, sizes: seq<Pos>, f: (int, nat) -> ValidOut,
                   interrupt: Option<nat>)
    ensures var w := Swept(ms, sa, rates, sizes, f, interrupt);
      (w.crash.None? || w.crash == Some(KeyboardInterrupt) ==> Interleaved(0, |ms|) <= w.trace) &&
      (interrupt.None? && w.crash.None? ==> w.trace == Interleaved(0, |ms|) + SweepTrace(|ms|, sizes, f, 0))
  {
    var w0 := Sweep(ms, Fresh(), [], Some(0.0), 0, 0, None, None);
    var w1 := Opening(w0, 0, rates);
    OpeningTrace(w0, 0, rates);
    LeftUnit(Interleaved(0, |ms|));
    if interrupt.None? {
      SweepLoopTrace(w1.(budget := interrupt), sa, rates, sizes, f, 0);
    }
  }

  /** A pass that returns made its hook calls in this order: `on_train_begin` and
      `on_epoch_begin` callback by callback, then (when nothing interrupted it)
      `on_vbatch_end` to every callback after each batch, and last `on_epoch_end` to
      every callback, which runs even after a `KeyboardInterrupt`. */
  lemma EvaluateBatchesTrace(ms: seq<Meter>, sa: bool, rates: nat, sizes: seq<Pos>, f: (int, nat) -> ValidOut,
                             interrupt: Option<nat>)
    ensures var r := EvaluateBatches(ms, sa, rates, sizes, f, interrupt);
      r.Ok? ==>
        Interleaved(0, |ms|) <= r.value.trace &&
        (exists middle :: r.value.trace == Interleaved(0, |ms|) + middle + Broadcast(|ms|, EpochEnd(1))) &&
        (interrupt.None? ==>
           r.value.trace == Interleaved(0, |ms|) + SweepTrace(|ms|, sizes, f, 0) + Broadcast(|ms|, EpochEnd(1)))
  {
    var w := Swept(ms, sa, rates, sizes, f, interrupt);
    var r := Finish(w, rates);
    if r.Ok? {
      FinishTrace(w, rates);
      SweptTrace(ms, sa, rates, sizes, f, interrupt);
      var pre := Interleaved(0, |ms|);
      var z := Broadcast(|ms|, EpochEnd(1));
      assert w.crash.None? || w.crash == Some(KeyboardInterrupt);
      var middle := w.trace[|pre|..];
      SplitAtPrefix(pre, w.trace);
      Associative(pre, middle, z);
      PrefixOfConcat(pre, middle + z);
      assert r.value.trace == pre + middle + z;
    }
  }

  /** `evaluate_loader`'s hook calls, in order (see `EvaluateBatchesTrace`). */
  lemma EvaluateLoaderTrace(metrics: Option<seq<Meter>>, sa: bool, rates: nat, feed: Fitting.ValidFeed,
                            interrupt: Option<nat>)
    ensures var r := EvaluateLoader(metrics, sa, rates, feed, interrupt);
      var n := |MetersOf(metrics)|;
      r.Ok? ==>
        Interleaved(0, n) <= r.value.trace &&
        (exists middle :: r.value.trace == Interleaved(0, n) + middle + Broadcast(n, EpochEnd(1))) &&
        (interrupt.None? ==>
           r.value.trace == Interleaved(0, n) + SweepTrace(n, BatchSizes(feed.loader), feed.out, 0) +
                            Broadcast(n, EpochEnd(1)))
  {
    EvaluateBatchesTrace(MetersOf(metrics), sa, rates, BatchSizes(feed.loader), feed.out, interrupt);
  }
}

module EvaluationLoss {
  import opened Base
  import opened Batches
  import opened Store
  import opened Hooks
  import opened Evaluation
  import opened EvaluationTheory
  import Accuracy
  import Fitting
  import Phases
  import Reference

  /** Callbacks that never raise during the batch loop: no-ops and accuracy trackers. */
  predicate Passive(ms: seq<Meter>) {
    forall j :: 0 <= j < |ms| ==> ms[j].Quiet? || ms[j].Counter?
  }

  /** `m1` is `m0` after `on_vbatch_end` calls that together saw `n` samples, `c` of
      them predicted correctly. */
  predicate Tally(m0: Meter, m1: Meter, n: int, c: int) {
    (m0.Quiet? && m1.Quiet?) ||
    (m0.Counter? && m1.Counter? &&
     m1.acc.validAccum == m0.acc.validAccum + c && m1.acc.nValid == m0.acc.nValid + n &&
     m1.acc.trainAccum == m0.acc.trainAccum && m1.acc.nTrain == m0.acc.nTrain)
  }

  predicate Tallied(a: seq<Meter>, b: seq<Meter>, n: int, c: int) {
    |a| == |b| && forall j :: 0 <= j < |a| ==> Tally(a[j], b[j], n, c)
  }

  /** Peeling batch `b` off the correct-prediction count of batches `b .. m-1`. */
  lemma CorrectsCons(f: (int, nat) -> ValidOut, m: nat, b: nat)
    requires b < m
    ensures Sum(Corrects(f, m, b)) == f(1, b).correct + Sum(Corrects(f, m, b + 1))
  {
    assert Corrects(f, m, b)[1..] == Corrects(f, m, b + 1);
  }

  lemma TalliedTransitive(a: seq<Meter>, b: seq<Meter>, c: seq<Meter>, n1: int, c1: int, n2: int, c2: int)
    requires Tallied(a, b, n1, c1) && Tallied(b, c, n2, c2)
    ensures Tallied(a, c, n1 + n2, c1 + c2)
  {
  }

  /** `on_vbatch_end` to passive callbacks `i ..` raises nothing and touches only
      their counters. */
  lemma {:induction false} PassiveRelay(w: Sweep, i: nat, b: nat, size: Pos, vout: ValidOut, rates: nat)
    requires Passive(w.meters) && w.crash.None? && w.budget.None? && i <= |w.meters|
    ensures var r := Relay(w, i, VBatchEnd(1, b, size, vout), rates);
      r.crash.None? && r.my == w.my && r.budget.None? && |r.meters| == |w.meters| &&
      (forall j :: 0 <= j < i ==> r.meters[j] == w.meters[j]) &&
      (forall j :: i <= j < |w.meters| ==> Tally(w.meters[j], r.meters[j], size, vout.correct))
    decreases |w.meters| - i
  {
    if i < |w.meters| {
      var hook := VBatchEnd(1, b, size, vout);
      var w1 := Deliver(w, i, hook, rates);
      assert w1.meters == w.meters[i := w1.meters[i]];
      assert Tally(w.meters[i], w1.meters[i], size, vout.correct);
      PassiveRelay(w1, i + 1, b, size, vout, rates);
      assert Relay(w, i, hook, rates) == Relay(w1, i + 1, hook, rates);
    }
  }

  /** One batch over passive callbacks with nothing pending: it counts its samples,
      folds its loss into `epo_loss` as the reference accumulation does, and the
      callbacks count it. */
  lemma PassiveBatch(w: Sweep, sa: bool, rates: nat, b: nat, size: Pos, vout: ValidOut)
    requires Passive(w.meters) && w.crash.None? && w.budget.None?
    ensures var r := SweepBatch(w, sa, rates, b, size, vout);
      var h := ValidAccumulated(sa, w.loss, [size], [vout.loss]);
      (r.crash.Some? <==> h.Err?) &&
      (h.Ok? ==> r.loss == h.value && r.samples == w.samples + size && r.batches == w.batches + 1 &&
                 r.my == w.my && r.budget.None? && Tallied(w.meters, r.meters, size, vout.correct))
  {
    Phases.ValidAccumulatedOne(sa, w.loss, size, vout.loss);
    var w1 := Measure(Count(w, size), sa, size, vout);
    if w1.crash.None? {
      PassiveRelay(w1, 0, b, size, vout, rates);
    }
  }

  /** Batches `b ..` over passive callbacks with nothing pending: the loop raises
      exactly when the reference accumulation does, and otherwise ends with its value
      in `epo_loss`, every batch and sample counted, and every callback having counted
      the batches' samples and correct predictions. */
  lemma {:induction false} PassiveLoop(w: Sweep, sa: bool, rates: nat, sizes: seq<Pos>, f: (int, nat) -> ValidOut, b: nat)
    requires Passive(w.meters) && w.crash.None? && w.budget.None? && b <= |sizes|
    ensures var r := SweepLoop(w, sa, rates, sizes, f, b);
      var v := ValidAccumulated(sa, w.loss, sizes[b..], Phases.ValidLosses(1, f, |sizes|, b));
      (r.crash.Some? <==> v.Err?) &&
      (v.Ok? ==> r.loss == v.value && r.samples == w.samples + Sum(sizes[b..]) &&
                 r.batches == w.batches + (|sizes| - b) && r.my == w.my && r.budget.None? &&
                 Tallied(w.meters, r.meters, Sum(sizes[b..]), Sum(Corrects(f, |sizes|, b))))
    decreases |sizes| - b
  {
    var v := ValidAccumulated(sa, w.loss, sizes[b..], Phases.ValidLosses(1, f, |sizes|, b));
    if b == |sizes| {
      assert sizes[b..] == [];
      assert Tallied(w.meters, w.meters, 0, 0);
    } else {
      var w1 := SweepBatch(w, sa, rates, b, sizes[b], f(1, b));
      Phases.ValidTotalsCons(sa, w.loss, sizes, 1, f, b);
      PassiveBatch(w, sa, rates, b, sizes[b], f(1, b));
      assert SweepLoop(w, sa, rates, sizes, f, b) == SweepLoop(w1, sa, rates, sizes, f, b + 1);
      CorrectsCons(f, |sizes|, b);
      if w1.crash.None? {
        PassiveLoop(w1, sa, rates, sizes, f, b + 1);
        var r := SweepLoop(w1, sa, rates, sizes, f, b + 1);
        if v.Ok? {
          TalliedTransitive(w.meters, w1.meters, r.meters, sizes[b], f(1, b).correct,
                            Sum(sizes[b + 1..]), Sum(Corrects(f, |sizes|, b + 1)));
        }
      }
    }
  }

  /** The entry a pass appends to the validation losses: the mean over the `seen`
      samples when `epo_loss` is a number and some sample was seen, nothing otherwise. */
  function MeanEntry(acc: Option<real>, seen: int): (r: seq<Option<real>>)
    ensures |r| <= 1 && (r != [] <==> acc.Some? && seen > 0)
  {
    if acc.Some? && seen > 0 then [Some(acc.value / seen as real)] else []
  }

  /** A broadcast to no-op callbacks raises nothing and changes nothing but the trace. */
  lemma {:induction false} QuietRelay(w: Sweep, i: nat, hook: Hook, rates: nat)
    requires AllQuiet(w.meters) && w.crash.None? && w.budget.None?
    ensures var r := Relay(w, i, hook, rates);
      r.crash.None? && r.my == w.my && r.meters == w.meters
    decreases |w.meters| - i
  {
    if i < |w.meters| {
      var w1 := Deliver(w, i, hook, rates);
      QuietRelay(w1, i + 1, hook, rates);
      assert Relay(w, i, hook, rates) == Relay(w1, i + 1, hook, rates);
    }
  }

  lemma {:induction false} QuietOpening(w: Sweep, i: nat, rates: nat)
    requires AllQuiet(w.meters) && w.crash.None? && w.budget.None?
    ensures var r := Opening(w, i, rates);
      r.crash.None? && r.my == w.my && r.meters == w.meters
    decreases |w.meters| - i
  {
    if i < |w.meters| {
      var w2 := Deliver(Deliver(w, i, TrainBegin(1), rates), i, EpochBegin(1), rates);
      QuietOpening(w2, i + 1, rates);
      assert Opening(w, i, rates) == Opening(w2, i + 1, rates);
    }
  }

  /** Positive batch sizes: some batch exactly when some sample. */
  lemma SomeBatch(sizes: seq<Pos>)
    ensures |sizes| > 0 <==> Sum(sizes) > 0
  {
    SumNonNegative(sizes);
  }

  /** With no-op callbacks and no interrupt, a pass raises exactly when the reference
      accumulation does (a number after a `None`), and otherwise records the mean of
      the accumulated loss over all samples, or nothing when a batch reported `None`
      or the loader was empty; the callbacks add no entry. */
  lemma EvaluateBatchesQuiet(ms: seq<Meter>, sa: bool, rates: nat, sizes: seq<Pos>, f: (int, nat) -> ValidOut)
    requires AllQuiet(ms)
    ensures var r := EvaluateBatches(ms, sa, rates, sizes, f, None);
      var v := ValidAccumulated(sa, Some(0.0), sizes, Phases.ValidLosses(1, f, |sizes|, 0));
      (r.Err? <==> v.Err?) &&
      (r.Ok? ==> r.value.valid == map[] && r.value.losses == MeanEntry(v.value, Sum(sizes)))
  {
    var w0 := Sweep(ms, Fresh(), [], Some(0.0), 0, 0, None, None);
    QuietOpening(w0, 0, rates);
    var w1 := Opening(w0, 0, rates);
    assert sizes[0..] == sizes;
    PassiveLoop(w1, sa, rates, sizes, f, 0);
    var w2 := SweepLoop(w1, sa, rates, sizes, f, 0);
    var v := ValidAccumulated(sa, Some(0.0), sizes, Phases.ValidLosses(1, f, |sizes|, 0));
    if v.Ok? {
      assert AllQuiet(w2.meters);
      SomeBatch(sizes);
      QuietRelay(Settle(w2), 0, EpochEnd(1), rates);
    }
  }

  /** `evaluate_loader` with no-op callbacks (or none) and no interrupt, against the
      validation entry `fit_loader` records for the same loader: both raise `TypeError`
      in the same cases; where `fit_loader` records the mean, `evaluate_loader` records
      the same mean; where `fit_loader` records `None` or divides by zero on an empty
      loader, `evaluate_loader` records nothing. */
  lemma EvaluateLoaderLoss(metrics: Option<seq<Meter>>, sa: bool, rates: nat, feed: Fitting.ValidFeed)
    requires AllQuiet(MetersOf(metrics))
    ensures var r := EvaluateLoader(metrics, sa, rates, feed, None);
      var v := Reference.ValidEpochLoss(sa, feed, 1);
      (r.Err? <==> v == Err(NoneArithmetic)) &&
      (r.Ok? ==> r.value.valid == map[] && r.value.losses == (if v.Ok? && v.value.Some? then [v.value] else [])) &&
      (feed.loader.samples == 0 ==> r.Ok? && r.value.losses == [])
  {
    var sizes := BatchSizes(feed.loader);
    EvaluateBatchesQuiet(MetersOf(metrics), sa, rates, sizes, feed.out);
  }

  /** The calls before the `try` block, for a lone `AccuracyMetric`: it registers its
      lists and resets its counters. */
  lemma CounterOpening(c: Accuracy.State, rates: nat)
    ensures var w0 := Sweep([Counter(c)], Fresh(), [], Some(0.0), 0, 0, None, None);
      var r := Opening(w0, 0, rates);
      r.crash.None? && r.budget.None? && r.meters == [Counter(Accuracy.OnEpochBegin())] &&
      r.my == Accuracy.OnTrainBegin(Fresh()) && r.loss == Some(0.0) && r.samples == 0 && r.batches == 0
  {
    var w0 := Sweep([Counter(c)], Fresh(), [], Some(0.0), 0, 0, None, None);
    var a := Deliver(w0, 0, TrainBegin(1), rates);
    assert a.meters == [Counter(c)] && a.my == Accuracy.OnTrainBegin(Fresh()) && a.crash.None?;
    var b := Deliver(a, 0, EpochBegin(1), rates);
    assert b.meters == [Counter(Accuracy.OnEpochBegin())] && b.my == a.my && b.crash.None?;
    assert Opening(w0, 0, rates) == Opening(b, 1, rates) == b;
  }

  /** `on_epoch_end` for a lone `AccuracyMetric` that counted `n` validation samples:
      it appends `correct / n` when `n > 0`, nothing otherwise. */
  lemma CounterClose(w: Sweep, rates: nat, s: Accuracy.State)
    requires w.crash.None? && w.budget.None? && w.meters == [Counter(s)]
    requires s.nTrain == 0 && w.my.train == map[Accuracy.Name := []] && w.my.valid == map[Accuracy.Name := []]
    ensures var r := Relay(w, 0, EpochEnd(1), rates);
      r.crash.None? && r.my.validLosses == w.my.validLosses &&
      r.my.valid == map[Accuracy.Name := if s.nValid > 0 then [Accuracy.Ratio(s.validAccum, s.nValid)] else []]
  {
    var d := Deliver(w, 0, EpochEnd(1), rates);
    assert Relay(w, 0, EpochEnd(1), rates) == Relay(d, 1, EpochEnd(1), rates) == d;
    if s.nValid > 0 {
      var x := Accuracy.Ratio(s.validAccum, s.nValid);
      assert d.my.valid == w.my.valid[Accuracy.Name := w.my.valid[Accuracy.Name] + [x]];
      assert w.my.valid[Accuracy.Name] + [x] == [x];
      assert w.my.valid[Accuracy.Name := [x]] == map[Accuracy.Name := [x]];
    }
  }

  /** Leaving the `try` block with a lone `AccuracyMetric` that counted `n` samples
      and nothing raised: the mean entry, and the accuracy entry when `n > 0`. */
  lemma CounterFinish(w: Sweep, rates: nat, s: Accuracy.State)
    requires Sane(w) && w.crash.None? && w.meters == [Counter(s)] && (w.batches > 0 <==> w.samples > 0)
    requires s.nTrain == 0 && w.my.train == map[Accuracy.Name := []] && w.my.valid == map[Accuracy.Name := []]
    requires w.my.validLosses == []
    ensures var r := Finish(w, rates);
      r.Ok? && r.value.losses == MeanEntry(w.loss, w.samples) &&
      r.value.valid == map[Accuracy.Name := if s.nValid > 0 then [Accuracy.Ratio(s.validAccum, s.nValid)] else []]
  {
    CounterClose(Settle(w), rates, s);
  }

  /** The `try` block with a lone `AccuracyMetric` and no interrupt: it raises exactly
      when the loss accumulation does, and otherwise the tracker counted every sample
      and every correct prediction of the pass. */
  lemma CounterSwept(c: Accuracy.State, sa: bool, rates: nat, sizes: seq<Pos>, f: (int, nat) -> ValidOut)
    ensures var w := Swept([Counter(c)], sa, rates, sizes, f, None);
      var v := ValidAccumulated(sa, Some(0.0), sizes, Phases.ValidLosses(1, f, |sizes|, 0));
      (w.crash.None? <==> v.Ok?) &&
      (v.Ok? ==> w.loss == v.value && w.samples == Sum(sizes) && (w.batches > 0 <==> w.samples > 0) &&
                 w.my == Accuracy.OnTrainBegin(Fresh()) && |w.meters| == 1 && w.meters[0].Counter? &&
                 w.meters[0].acc.nTrain == 0 && w.meters[0].acc.nValid == Sum(sizes) &&
                 w.meters[0].acc.validAccum == Sum(Corrects(f, |sizes|, 0)))
  {
    var w0 := Sweep([Counter(c)], Fresh(), [], Some(0.0), 0, 0, None, None);
    var w1 := Opening(w0, 0, rates);
    CounterOpening(c, rates);
    assert sizes[0..] == sizes;
    PassiveLoop(w1, sa, rates, sizes, f, 0);
    var w2 := SweepLoop(w1, sa, rates, sizes, f, 0);
    assert w2 == Swept([Counter(c)], sa, rates, sizes, f, None);
    var v := ValidAccumulated(sa, Some(0.0), sizes, Phases.ValidLosses(1, f, |sizes|, 0));
    if v.Ok? {
      SomeBatch(sizes);
      assert Tally(w1.meters[0], w2.meters[0], Sum(sizes), Sum(Corrects(f, |sizes|, 0)));
    }
  }

  /** A lone `AccuracyMetric` with no interrupt: the pass raises exactly as with no
      callbacks, and otherwise returns, beside the loss, one accuracy entry, the
      correct predictions over all samples, or an empty list for an empty loader. */
  lemma EvaluateBatchesAccuracy(c: Accuracy.State, sa: bool, rates: nat, sizes: seq<Pos>, f: (int, nat) -> ValidOut)
    ensures var r := EvaluateBatches([Counter(c)], sa, rates, sizes, f, None);
      var v := ValidAccumulated(sa, Some(0.0), sizes, Phases.ValidLosses(1, f, |sizes|, 0));
      (r.Err? <==> v.Err?) &&
      (r.Ok? ==> r.value.losses == MeanEntry(v.value, Sum(sizes)) &&
                 r.value.valid == map[Accuracy.Name :=
                   if Sum(sizes) > 0 then [Accuracy.Ratio(Sum(Corrects(f, |sizes|, 0)), Sum(sizes))] else []])
  {
    var w := Swept([Counter(c)], sa, rates, sizes, f, None);
    CounterSwept(c, sa, rates, sizes, f);
    if w.crash.None? {
      CounterFinish(w, rates, w.meters[0].acc);
    }
  }

  /** `evaluate_loader` with `metrics=[AccuracyMetric()]` and no interrupt (see
      `EvaluateBatchesAccuracy`), for the loader's batches. */
  lemma EvaluateLoaderAccuracy(c: Accuracy.State, sa: bool, rates: nat, feed: Fitting.ValidFeed)
    ensures var r := EvaluateLoader(Some([Counter(c)]), sa, rates, feed, None);
      var sizes := BatchSizes(feed.loader);
      (r.Err? <==> Reference.ValidEpochLoss(sa, feed, 1) == Err(NoneArithmetic)) &&
      (r.Ok? ==> r.value.valid == map[Accuracy.Name :=
                   if feed.loader.samples > 0 then [Accuracy.Ratio(Sum(Corrects(feed.out, |sizes|, 0)), feed.loader.samples)]
                   else []])
  {
    var sizes := BatchSizes(feed.loader);
    EvaluateBatchesAccuracy(c, sa, rates, sizes, feed.out);
    EvaluateBatchesQuiet([], sa, rates, sizes, feed.out);
  }

  /** `on_epoch_end` reaching a `PrintCallback` while the training losses are empty
      raises. */
  lemma {:induction false} RelayPrinter(w: Sweep, i: nat, rates: nat)
    requires w.budget.None? && |w.my.trainLosses| == 0
    requires exists j :: i <= j < |w.meters| && w.meters[j].Printer?
    ensures Relay(w, i, EpochEnd(1), rates).crash.Some?
    decreases |w.meters| - i
  {
    if w.crash.None? {
      var d := Deliver(w, i, EpochEnd(1), rates);
      assert Relay(w, i, EpochEnd(1), rates) == Relay(d, i + 1, EpochEnd(1), rates);
      if !w.meters[i].Printer? {
        var j :| i <= j < |w.meters| && w.meters[j].Printer?;
        assert d.meters[j].Printer?;
        RelayPrinter(d, i + 1, rates);
      }
    }
  }

  /** A `PrintCallback` among the callbacks makes every pass raise: its `on_epoch_end`
      reads the last training loss of `my_metrics`, whose training list stays empty. */
  lemma EvaluateBatchesPrinter(ms: seq<Meter>, sa: bool, rates: nat, sizes: seq<Pos>, f: (int, nat) -> ValidOut,
                               interrupt: Option<nat>)
    requires exists j :: 0 <= j < |ms| && ms[j].Printer?
    ensures EvaluateBatches(ms, sa, rates, sizes, f, interrupt).Err?
  {
    var w := Swept(ms, sa, rates, sizes, f, interrupt);
    var w3 := Settle(w);
    var j :| 0 <= j < |ms| && ms[j].Printer?;
    assert w3.meters[j].Printer?;
    RelayPrinter(w3, 0, rates);
  }

  lemma EvaluateLoaderPrinter(metrics: Option<seq<Meter>>, sa: bool, rates: nat, feed: Fitting.ValidFeed,
                              interrupt: Option<nat>)
    requires exists j :: 0 <= j < |MetersOf(metrics)| && MetersOf(metrics)[j].Printer?
    ensures EvaluateLoader(metrics, sa, rates, feed, interrupt).Err?
  {
    EvaluateBatchesPrinter(MetersOf(metrics), sa, rates, BatchSizes(feed.loader), feed.out, interrupt);
  }

  /** Peeling batch `b` off batches `b .. m-1`. */
  lemma PrefixCons(sa: bool, acc: Option<real>, sizes: seq<Pos>, f: (int, nat) -> ValidOut, b: nat, m: nat)
    requires b < m <= |sizes|
    ensures Sum(sizes[b..m]) == sizes[b] + Sum(sizes[b + 1..m])
    ensures var h := ValidAccumulated(sa, acc, [sizes[b]], [f(1, b).loss]);
      ValidAccumulated(sa, acc, sizes[b..m], Phases.ValidLosses(1, f, m, b)) ==
        if h.Err? then h else ValidAccumulated(sa, h.value, sizes[b + 1..m], Phases.ValidLosses(1, f, m, b + 1))
  {
    assert sizes[b..m][1..] == sizes[b + 1..m];
    assert Phases.ValidLosses(1, f, m, b)[1..] == Phases.ValidLosses(1, f, m, b + 1);
    Phases.ValidAccumulatedOne(sa, acc, sizes[b], f(1, b).loss);
  }

  /** One batch with no callbacks and `k` steps left: with two or more it is counted and
      evaluated; with one it is counted and the interrupt lands during its evaluation;
      with none the interrupt lands before it is counted. */
  lemma EmptyBatch(w: Sweep, sa: bool, rates: nat, b: nat, size: Pos, vout: ValidOut, k: nat)
    requires w.meters == [] && w.crash.None? && w.budget == Some(k)
    ensures var r := SweepBatch(w, sa, rates, b, size, vout);
      var h := ValidAccumulated(sa, w.loss, [size], [vout.loss]);
      r.meters == [] && r.my == w.my && r.trace == w.trace &&
      (k == 0 ==> r == w.(crash := Some(KeyboardInterrupt))) &&
      (k == 1 ==> r == w.(samples := w.samples + size, batches := w.batches + 1, budget := Some(0),
                          crash := Some(KeyboardInterrupt))) &&
      (k >= 2 ==> r.samples == w.samples + size && r.batches == w.batches + 1 && r.budget == Some(k - 2) &&
                  (r.crash.Some? <==> h.Err?) && (r.crash.Some? ==> r.crash == Some(NoneArithmetic)) &&
                  (h.Ok? ==> r.loss == h.value))
  {
    Phases.ValidAccumulatedOne(sa, w.loss, size, vout.loss);
  }

  /** What a callback-free sweep over batches `b ..` with `k` steps left leaves behind:
      the first `j` batches are counted and evaluated; when `k` is odd and a batch
      remains, one more is counted but not evaluated, so its samples enter the
      denominator and its loss does not. */
  ghost predicate EmptyOutcome(w: Sweep, r: Sweep, sa: bool, sizes: seq<Pos>, f: (int, nat) -> ValidOut, b: nat, k: nat)
    requires b <= |sizes|
  {
    var j := Min(k / 2, |sizes| - b);
    var half := k % 2 == 1 && b + j < |sizes|;
    var v := ValidAccumulated(sa, w.loss, sizes[b..b + j], Phases.ValidLosses(1, f, b + j, b));
    r.meters == [] && r.my == w.my && r.trace == w.trace &&
    (r.crash.None? || r.crash == Some(KeyboardInterrupt) || r.crash == Some(NoneArithmetic)) &&
    (r.crash == Some(NoneArithmetic) <==> v.Err?) &&
    (v.Ok? ==> r.loss == v.value &&
               r.samples == w.samples + Sum(sizes[b..b + j]) + (if half then sizes[b + j] else 0) &&
               r.batches == w.batches + j + (if half then 1 else 0))
  }

  /** The inductive step of `EmptyLoop`: a fully evaluated batch followed by what the
      remaining `k - 2` steps leave. */
  lemma EmptyCombine(w: Sweep, w1: Sweep, r: Sweep, sa: bool, sizes: seq<Pos>, f: (int, nat) -> ValidOut,
                     b: nat, k: nat)
    requires b < |sizes| && k >= 2 && w.meters == []
    requires var h := ValidAccumulated(sa, w.loss, [sizes[b]], [f(1, b).loss]);
      w1.meters == [] && w1.my == w.my && w1.trace == w.trace &&
      w1.samples == w.samples + sizes[b] && w1.batches == w.batches + 1 &&
      (w1.crash.Some? <==> h.Err?) && (w1.crash.Some? ==> w1.crash == Some(NoneArithmetic)) &&
      (h.Ok? ==> w1.loss == h.value)
    requires w1.crash.Some? ==> r == w1
    requires w1.crash.None? ==> EmptyOutcome(w1, r, sa, sizes, f, b + 1, k - 2)
    ensures EmptyOutcome(w, r, sa, sizes, f, b, k)
  {
    var j := Min(k / 2, |sizes| - b);
    PrefixCons(sa, w.loss, sizes, f, b, b + j);
    assert Min((k - 2) / 2, |sizes| - (b + 1)) == j - 1;
  }

  lemma {:induction false} EmptyLoop(w: Sweep, sa: bool, rates: nat, sizes: seq<Pos>, f: (int, nat) -> ValidOut,
                                     b: nat, k: nat)
    requires w.meters == [] && w.crash.None? && w.budget == Some(k) && b <= |sizes|
    ensures EmptyOutcome(w, SweepLoop(w, sa, rates, sizes, f, b), sa, sizes, f, b, k)
    decreases |sizes| - b
  {
    if b == |sizes| {
      assert sizes[b..b] == [];
    } else if k < 2 {
      EmptyShort(w, sa, rates, sizes, f, b, k);
    } else {
      var w1 := SweepBatch(w, sa, rates, b, sizes[b], f(1, b));
      EmptyBatch(w, sa, rates, b, sizes[b], f(1, b), k);
      assert SweepLoop(w, sa, rates, sizes, f, b) == SweepLoop(w1, sa, rates, sizes, f, b + 1);
      if w1.crash.None? {
        EmptyLoop(w1, sa, rates, sizes, f, b + 1, k - 2);
      }
      EmptyCombine(w, w1, SweepLoop(w1, sa, rates, sizes, f, b + 1), sa, sizes, f, b, k);
    }
  }

  /** The last step or none before the interrupt: no batch is fully evaluated. */
  lemma EmptyShort(w: Sweep, sa: bool, rates: nat, sizes: seq<Pos>, f: (int, nat) -> ValidOut, b: nat, k: nat)
    requires w.meters == [] && w.crash.None? && w.budget == Some(k) && b < |sizes| && k < 2
    ensures EmptyOutcome(w, SweepLoop(w, sa, rates, sizes, f, b), sa, sizes, f, b, k)
  {
    var w1 := SweepBatch(w, sa, rates, b, sizes[b], f(1, b));
    EmptyBatch(w, sa, rates, b, sizes[b], f(1, b), k);
    assert SweepLoop(w, sa, rates, sizes, f, b) == SweepLoop(w1, sa, rates, sizes, f, b + 1);
    assert sizes[b..b] == [];
  }

  /** An interrupted pass with no callbacks, `k` steps into the `try` block: the
      `KeyboardInterrupt` is swallowed and the pass records the mean over what it
      counted. That is the loss accumulated over the first `j = min(k / 2, n)` batches,
      divided by their samples plus, when `k` is odd and a batch remains, the samples
      of the batch whose evaluation was cut short. */
  lemma EvaluateBatchesInterrupted(sa: bool, rates: nat, sizes: seq<Pos>, f: (int, nat) -> ValidOut, k: nat)
    ensures var r := EvaluateBatches([], sa, rates, sizes, f, Some(k));
      var j := Min(k / 2, |sizes|);
      var half := k % 2 == 1 && j < |sizes|;
      var v := ValidAccumulated(sa, Some(0.0), sizes[..j], Phases.ValidLosses(1, f, j, 0));
      (r.Err? <==> v.Err?) &&
      (r.Ok? ==> r.value.trace == [] && r.value.valid == map[] &&
                 r.value.losses == MeanEntry(v.value, Sum(sizes[..j]) + (if half then sizes[j] else 0)))
  {
    var j := Min(k / 2, |sizes|);
    var w0 := Sweep([], Fresh(), [], Some(0.0), 0, 0, None, None);
    assert Opening(w0, 0, rates) == w0;
    EmptyLoop(w0.(budget := Some(k)), sa, rates, sizes, f, 0, k);
    assert sizes[0..j] == sizes[..j];
    var w := Swept([], sa, rates, sizes, f, Some(k));
    SumNonNegative(sizes[..j]);
    if j > 0 {
      assert sizes[..j][0] == sizes[0];
    }
  }

  lemma EvaluateLoaderInterrupted(metrics: Option<seq<Meter>>, sa: bool, rates: nat, feed: Fitting.ValidFeed, k: nat)
    requires MetersOf(metrics) == []
    ensures var r := EvaluateLoader(metrics, sa, rates, feed, Some(k));
      var sizes := BatchSizes(feed.loader);
      var j := Min(k / 2, |sizes|);
      var half := k % 2 == 1 && j < |sizes|;
      var v := ValidAccumulated(sa, Some(0.0), sizes[..j], Phases.ValidLosses(1, feed.out, j, 0));
      (r.Err? <==> v.Err?) &&
      (r.Ok? ==> r.value.trace == [] && r.value.valid == map[] &&
                 r.value.losses == MeanEntry(v.value, Sum(sizes[..j]) + (if half then sizes[j] else 0)))
  {
    EvaluateBatchesInterrupted(sa, rates, BatchSizes(feed.loader), feed.out, k);
  }
}

