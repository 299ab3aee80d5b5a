/** `DeepNetTrainer.evaluate_loader` (lines 196-252): one pass over a loader with no
    optimizer step, recording the mean loss and whatever its metric callbacks measure
    into a fresh history of its own, `my_metrics`, whose `valid` half it returns. */
module Evaluation {
  import opened Base
  import opened Batches
  import opened Store
  import opened Hooks
  import Accuracy
  import Printing
  import Fitting
  import Phases
  import Reference

  /** The callbacks passed as `metrics`. Their hooks receive `my_metrics`, not the
      trainer's history. `Quiet` is a callback whose hooks do nothing (the `Callback`
      base class), `Counter` is `AccuracyMetric`, and `Printer` is a `PrintCallback`
      bound to this trainer, reduced to how many learning rates it read. */
  datatype Meter = Quiet | Counter(acc: Accuracy.State) | Printer(rateCount: nat)

  predicate AllQuiet(ms: seq<Meter>) {
    forall j :: 0 <= j < |ms| ==> ms[j].Quiet?
  }

  /** The same callbacks in the same places, each still of its own kind. */
  predicate Kinds(a: seq<Meter>, b: seq<Meter>) {
    |a| == |b| &&
    forall j :: 0 <= j < |a| ==> (a[j].Quiet? <==> b[j].Quiet?) && (a[j].Counter? <==> b[j].Counter?) &&
                                 (a[j].Printer? <==> b[j].Printer?)
  }

  /** `metrics or []`. */
  function MetersOf(metrics: Option<seq<Meter>>): seq<Meter>
  {
    if metrics.None? then [] else metrics.value
  }

  /** Callback `m` receives `hook`; `rates` is the number of parameter groups of the
      trainer's optimizer, which `PrintCallback.on_epoch_begin` reads. */
  function Respond(m: Meter, my: Metrics, rates: nat, hook: Hook): (r: Result<(Meter, Metrics)>)
    ensures m.Quiet? ==> r == Ok((m, my))
    ensures r.Ok? ==> r.value.1.trainLosses == my.trainLosses && r.value.1.validLosses == my.validLosses
    ensures r.Ok? ==> (r.value.0.Quiet? <==> m.Quiet?) && (r.value.0.Counter? <==> m.Counter?)
    ensures r.Err? ==> hook.EpochEnd? && !m.Quiet?
    ensures r.Err? ==> r.error == IndexOutOfRange || r.error == KeyMissing(Accuracy.Name) || r.error == NoneComparison
    ensures m.Printer? && hook.EpochEnd? && |my.trainLosses| == 0 ==> r == Err(IndexOutOfRange)
    ensures r == Err(NoneComparison) ==> m.Printer? && |my.trainLosses| > 0
  {
    match m
    case Quiet => Ok((m, my))
    case Counter(acc) =>
      (match hook
       case TrainBegin(_) => Ok((m, Accuracy.OnTrainBegin(my)))
       case EpochBegin(_) => Ok((Counter(Accuracy.OnEpochBegin()), my))
       case VBatchEnd(_, _, size, vout) => Ok((Counter(Accuracy.OnVBatchEnd(acc, size, vout.correct)), my))
       case EpochEnd(_) =>
         var my' :- Accuracy.OnEpochEnd(acc, my);
         Ok((m, my'))
       case _ => Ok((m, my)))
    case Printer(k) =>
      (match hook
       case EpochBegin(_) => Ok((Printer(rates), my))
       case EpochEnd(_) =>
         var _ :- Printing.OnEpochEnd(k, my);
         Ok((m, my))
       case _ => Ok((m, my)))
  }

  /** The state of one evaluation: the callbacks, `my_metrics`, the hook calls so far,
      the accumulators `epo_loss`, `epo_samples`, `epo_batches`, the steps left before
      a `KeyboardInterrupt` (`None` outside the `try` block or when none comes), and
      the exception raised, if any. */
  datatype Sweep = Sweep(meters: seq<Meter>, my: Metrics, trace: seq<Event>,
                         loss: Option<real>, samples: nat, batches: nat,
                         budget: Option<nat>, crash: Option<Error>)

  /** The exceptions an evaluation can raise. */
  predicate Raisable(e: Error) {
    e.NoneArithmetic? || e.IndexOutOfRange? || e.KeyMissing? || e.KeyboardInterrupt?
  }

  /** Nothing was raised, or only something the evaluation can raise; never more
      batches than samples counted; and no training loss recorded, since evaluation only
      ever fills `my_metrics['valid']`. */
  predicate Sane(w: Sweep) {
    (w.crash.None? || Raisable(w.crash.value)) && w.batches <= w.samples && w.my.trainLosses == []
  }

  /** The next step runs. */
  predicate Live(w: Sweep) {
    w.crash.None? && w.budget != Some(0)
  }

  /** A step that does not run: skipped after an exception, a `KeyboardInterrupt`
      instead once the budget is spent. */
  function Stop(w: Sweep): (r: Sweep)
    requires !Live(w)
    ensures r.crash.Some? && (w.crash.Some? ==> r == w)
    ensures w.crash.None? ==> r == w.(crash := Some(KeyboardInterrupt))
  {
    if w.crash.Some? then w else w.(crash := Some(KeyboardInterrupt))
  }

  /** One more step spent. */
  function Tick(w: Sweep): (r: Sweep)
    requires Live(w)
    ensures r.budget.None? <==> w.budget.None?
    ensures w.budget.Some? ==> r.budget == Some(w.budget.value - 1)
  {
    w.(budget := if w.budget.None? then None else Some(w.budget.value - 1))
  }

  /** `cb.on_...(..., my_metrics)` for callback number `i`, recorded before it runs. */
  function Deliver(w: Sweep, i: nat, hook: Hook, rates: nat): (r: Sweep)
    requires i < |w.meters|
    ensures Kinds(w.meters, r.meters) && w.trace <= r.trace
    ensures w.crash.Some? ==> r == w
    ensures Live(w) ==> r.trace == w.trace + [Fired(i, hook)]
    ensures r.my.trainLosses == w.my.trainLosses && r.my.validLosses == w.my.validLosses
    ensures r.loss == w.loss && r.samples == w.samples && r.batches == w.batches
    ensures w.budget.None? ==> r.budget.None?
    ensures w.budget.None? && w.crash != Some(KeyboardInterrupt) ==> r.crash != Some(KeyboardInterrupt)
    ensures Sane(w) ==> Sane(r)
  {
    if !Live(w) then Stop(w)
    else
      var w1 := Tick(w).(trace := w.trace + [Fired(i, hook)]);
      match Respond(w.meters[i], w.my, rates, hook)
      case Ok(mm) => w1.(meters := w.meters[i := mm.0], my := mm.1)
      case Err(e) => w1.(crash := Some(e))
  }

  /** `for cb in metrics: cb.on_...(...)`, from callback `i` on. */
  function Relay(w: Sweep, i: nat, hook: Hook, rates: nat): (r: Sweep)
    ensures Kinds(w.meters, r.meters) && w.trace <= r.trace
    ensures w.crash.Some? ==> r == w
    ensures r.my.trainLosses == w.my.trainLosses && r.my.validLosses == w.my.validLosses
    ensures r.loss == w.loss && r.samples == w.samples && r.batches == w.batches
    ensures w.budget.None? ==> r.budget.None?
    ensures w.budget.None? && w.crash != Some(KeyboardInterrupt) ==> r.crash != Some(KeyboardInterrupt)
    ensures Sane(w) ==> Sane(r)
    decreases |w.meters| - i, 1
  {
    if w.crash.Some? || i >= |w.meters| then w else RelayRest(w, i, hook, rates)
  }

  /** Callback `i`, then the rest. */
  function RelayRest(w: Sweep, i: nat, hook: Hook, rates: nat): (r: Sweep)
    requires i < |w.meters|
    ensures Kinds(w.meters, r.meters) && w.trace <= r.trace
    ensures w.crash.Some? ==> r == w
    ensures r.my.trainLosses == w.my.trainLosses && r.my.validLosses == w.my.validLosses
    ensures r.loss == w.loss && r.samples == w.samples && r.batches == w.batches
    ensures w.budget.None? ==> r.budget.None?
    ensures w.budget.None? && w.crash != Some(KeyboardInterrupt) ==> r.crash != Some(KeyboardInterrupt)
    ensures Sane(w) ==> Sane(r)
    decreases |w.meters| - i, 0
  {
    Relay(Deliver(w, i, hook, rates), i + 1, hook, rates)
  }

  /** The loop before the `try` block: each callback gets `on_train_begin(1, ...)` and
      then `on_epoch_begin(1, ...)` before the next one gets either. */
  function Opening(w: Sweep, i: nat, rates: nat): (r: Sweep)
    ensures Kinds(w.meters, r.meters) && w.trace <= r.trace
    ensures w.crash.Some? ==> r == w
    ensures r.my.trainLosses == w.my.trainLosses && r.my.validLosses == w.my.validLosses
    ensures r.loss == w.loss && r.samples == w.samples && r.batches == w.batches
    ensures w.budget.None? ==> r.budget.None?
    ensures w.budget.None? && w.crash != Some(KeyboardInterrupt) ==> r.crash != Some(KeyboardInterrupt)
    ensures Sane(w) ==> Sane(r)
    decreases |w.meters| - i, 1
  {
    if w.crash.Some? || i >= |w.meters| then w else OpeningRest(w, i, rates)
  }

  /** Callback `i`'s two calls, then the rest. */
  function OpeningRest(w: Sweep, i: nat, rates: nat): (r: Sweep)
    requires i < |w.meters|
    ensures Kinds(w.meters, r.meters) && w.trace <= r.trace
    ensures w.crash.Some? ==> r == w
    ensures r.my.trainLosses == w.my.trainLosses && r.my.validLosses == w.my.validLosses
    ensures r.loss == w.loss && r.samples == w.samples && r.batches == w.batches
    ensures w.budget.None? ==> r.budget.None?
    ensures w.budget.None? && w.crash != Some(KeyboardInterrupt) ==> r.crash != Some(KeyboardInterrupt)
    ensures Sane(w) ==> Sane(r)
    decreases |w.meters| - i, 0
  {
    Opening(Deliver(Deliver(w, i, TrainBegin(1), rates), i, EpochBegin(1), rates), i + 1, rates)
  }

  /** `epo_samples += mb_size; epo_batches += 1`, which happens before the batch is
      evaluated. */
  function Count(w: Sweep, size: Pos): (r: Sweep)
    ensures Kinds(w.meters, r.meters) && w.trace <= r.trace
    ensures w.crash.Some? ==> r == w
    ensures r.my == w.my && r.trace == w.trace && r.loss == w.loss
    ensures Live(w) ==> r.crash.None? && r.samples == w.samples + size && r.batches == w.batches + 1
    ensures w.budget.None? ==> r.budget.None?
    ensures w.budget.None? && w.crash != Some(KeyboardInterrupt) ==> r.crash != Some(KeyboardInterrupt)
    ensures Sane(w) ==> Sane(r)
  {
    if !Live(w) then Stop(w) else Tick(w).(samples := w.samples + size, batches := w.batches + 1)
  }

  /** `_do_evaluate`, then `epo_loss` takes the batch's loss: `None` when the criterion
      gave none, a `TypeError` when a number meets an earlier `None`. */
  function Measure(w: Sweep, sa: bool, size: Pos, vout: ValidOut): (r: Sweep)
    ensures Kinds(w.meters, r.meters) && w.trace <= r.trace
    ensures w.crash.Some? ==> r == w
    ensures r.my == w.my && r.trace == w.trace && r.samples == w.samples && r.batches == w.batches
    ensures w.budget.None? ==> r.budget.None?
    ensures w.budget.None? && w.crash != Some(KeyboardInterrupt) ==> r.crash != Some(KeyboardInterrupt)
    ensures Sane(w) ==> Sane(r)
  {
    if !Live(w) then Stop(w)
    else
      var w1 := Tick(w);
      if vout.loss.None? then w1.(loss := None)
      else if w.loss.None? then w1.(crash := Some(NoneArithmetic))
      else w1.(loss := Some(w.loss.value + Contribution(sa, size, vout.loss.value)))
  }

  /** Batch `b`: count it, evaluate it, then `on_vbatch_end(1, b, ...)` for every
      callback. No `on_vbatch_begin` is called. */
  function SweepBatch(w: Sweep, sa: bool, rates: nat, b: nat, size: Pos, vout: ValidOut): (r: Sweep)
    ensures Kinds(w.meters, r.meters) && w.trace <= r.trace
    ensures w.crash.Some? ==> r == w
    ensures r.my.trainLosses == w.my.trainLosses && r.my.validLosses == w.my.validLosses
    ensures w.budget.None? ==> r.budget.None?
    ensures w.budget.None? && w.crash != Some(KeyboardInterrupt) ==> r.crash != Some(KeyboardInterrupt)
    ensures Sane(w) ==> Sane(r)
  {
    Relay(Measure(Count(w, size), sa, size, vout), 0, VBatchEnd(1, b, size, vout), rates)
  }

  /** Batches `b ..`. The model's answers are read as those of epoch 1, the epoch
      number the hooks receive. */
  function SweepLoop(w: Sweep, sa: bool, rates: nat, sizes: seq<Pos>, f: (int, nat) -> ValidOut, b: nat): (r: Sweep)
    ensures Kinds(w.meters, r.meters) && w.trace <= r.trace
    ensures w.crash.Some? ==> r == w
    ensures r.my.trainLosses == w.my.trainLosses && r.my.validLosses == w.my.validLosses
    ensures w.budget.None? ==> r.budget.None?
    ensures w.budget.None? && w.crash != Some(KeyboardInterrupt) ==> r.crash != Some(KeyboardInterrupt)
    ensures Sane(w) ==> Sane(r)
    decreases |sizes| - b, 1
  {
    if w.crash.Some? || b >= |sizes| then w else SweepRest(w, sa, rates, sizes, f, b)
  }

  /** Batch `b`, then the rest. */
  function SweepRest(w: Sweep, sa: bool, rates: nat, sizes: seq<Pos>, f: (int, nat) -> ValidOut, b: nat): (r: Sweep)
    requires b < |sizes|
    ensures Kinds(w.meters, r.meters) && w.trace <= r.trace
    ensures w.crash.Some? ==> r == w
    ensures r.my.trainLosses == w.my.trainLosses && r.my.validLosses == w.my.validLosses
    ensures w.budget.None? ==> r.budget.None?
    ensures w.budget.None? && w.crash != Some(KeyboardInterrupt) ==> r.crash != Some(KeyboardInterrupt)
    ensures Sane(w) ==> Sane(r)
    decreases |sizes| - b, 0
  {
    SweepLoop(SweepBatch(w, sa, rates, b, sizes[b], f(1, b)), sa, rates, sizes, f, b + 1)
  }

  /** Leaving the `try` block: a `KeyboardInterrupt` is swallowed; then the mean loss
      is appended, but only when `epo_loss` is a number and some batch was counted. */
  function Settle(w: Sweep): (r: Sweep)
    requires Sane(w)
    ensures r.meters == w.meters && r.trace == w.trace && r.budget.None?
    ensures r.crash.Some? ==> r.crash == w.crash && w.crash != Some(KeyboardInterrupt)
    ensures r.crash.None? ==>
      r.my.validLosses == w.my.validLosses +
        (if w.loss.Some? && w.batches > 0 then [Some(w.loss.value / w.samples as real)] else [])
    ensures r.my.trainLosses == w.my.trainLosses
    ensures Sane(r)
  {
    var w1 := w.(budget := None, crash := if w.crash == Some(KeyboardInterrupt) then None else w.crash);
    if w1.crash.Some? then w1
    else if w1.loss.Some? && w1.batches > 0 then
      if w1.samples == 0 then w1.(crash := Some(ZeroDivision))
      else w1.(my := w1.my.(validLosses := w1.my.validLosses + [Some(w1.loss.value / w1.samples as real)]))
    else w1
  }

  /** What `evaluate_loader` returns (`my_metrics['valid']`: its loss list and the
      callbacks' entries), together with the hook calls it made. */
  datatype Evaluated = Evaluated(losses: seq<Option<real>>, valid: map<string, seq<real>>, trace: seq<Event>)

  /** The state when the `try` block is left: the calls before it, then the batches. */
  function Swept(ms: seq<Meter>, sa: bool, rates: nat, sizes: seq<Pos>, f: (int, nat) -> ValidOut,
                 interrupt: Option<nat>): (r: Sweep)
    ensures Kinds(ms, r.meters) && Sane(r) && r.my.trainLosses == [] && r.my.validLosses == []
    ensures interrupt.None? ==> r.crash != Some(KeyboardInterrupt)
  {
    var w1 := Opening(Sweep(ms, Fresh(), [], Some(0.0), 0, 0, None, None), 0, rates);
    SweepLoop(w1.(budget := interrupt), sa, rates, sizes, f, 0)
  }

  /** After the `try` block: settle, then `on_epoch_end(1, ...)` for every callback, and
      return `my_metrics['valid']` unless something was raised. */
  function Finish(w: Sweep, rates: nat): (r: Result<Evaluated>)
    requires Sane(w)
    ensures r.Err? ==> r.error.NoneArithmetic? || r.error.IndexOutOfRange? || r.error.KeyMissing?
    ensures r.Ok? ==> |r.value.losses| <= |w.my.validLosses| + 1
  {
    var w3 := Relay(Settle(w), 0, EpochEnd(1), rates);
    if w3.crash.Some? then Err(w3.crash.value)
    else Ok(Evaluated(w3.my.validLosses, w3.my.valid, w3.trace))
  }

  /** The pass over batches of the given sizes, with callbacks `ms`. */
  function EvaluateBatches(ms: seq<Meter>, sa: bool, rates: nat, sizes: seq<Pos>, f: (int, nat) -> ValidOut,
                           interrupt: Option<nat>): (r: Result<Evaluated>)
    ensures r.Err? ==> r.error.NoneArithmetic? || r.error.IndexOutOfRange? || r.error.KeyMissing?
    ensures r.Ok? ==> |r.value.losses| <= 1
  {
    Finish(Swept(ms, sa, rates, sizes, f, interrupt), rates)
  }

  /** `evaluate_loader(loader, metrics)` for a trainer whose criterion has
      `size_average == sa` and whose optimizer has `rates` parameter groups. A
      `KeyboardInterrupt` arrives after `interrupt` steps of the `try` block, if ever;
      everything else raised escapes. It never divides by zero, whatever the loader. */
  function EvaluateLoader(metrics: Option<seq<Meter>>, sa: bool, rates: nat, feed: Fitting.ValidFeed,
                          interrupt: Option<nat>): (r: Result<Evaluated>)
    ensures r.Err? ==> r.error.NoneArithmetic? || r.error.IndexOutOfRange? || r.error.KeyMissing?
    ensures r.Ok? ==> |r.value.losses| <= 1
  {
    EvaluateBatches(MetersOf(metrics), sa, rates, BatchSizes(feed.loader), feed.out, interrupt)
  }
}
