/** `DeepNetTrainer.lr_find` (lines 305-358): one pass over the loader with a throwaway
    SGD optimizer whose rate grows every batch, recording `(lr, loss)` pairs until the
    stopping rule fires, then restoring the state saved under `'tmp'`. Each batch's loss
    is an input: the forward and backward passes are not modelled. */
module LrFinder {
  import opened Base
  import opened Store
  import opened Optim
  import opened Training

  /** `best` before the first batch. */
  const Start: real := 1000000000.0

  /** What `lr_find` leaves behind: the trainer after the `finally` block, the files on
      disk, and either the recorded rates and losses or the exception that escaped. */
  datatype Finding = Finding(trainer: Trainer, disk: Disk, outcome: Result<(seq<LearningRate>, seq<real>)>)

  /** The batch budget `num_it or len(dataloader)`: `None` and `0` are both falsy. */
  function Budget(numIt: Option<int>, batches: nat): (n: int)
    ensures numIt.Some? && numIt.value != 0 ==> n == numIt.value
    ensures numIt.None? || numIt.value == 0 ==> n == batches
  {
    if numIt.None? || numIt.value == 0 then batches else numIt.value
  }

  /** The arithmetic at the top of `lr_find` raises `ZeroDivisionError`: `max_lr / min_lr`
      for a zero `min_lr`, the multiplier for a zero budget `n`, and, for the exponential
      sweep, `ratio ** (1 / n)` when the ratio is zero and the budget negative. */
  predicate DividesByZero(minLr: real, maxLr: real, n: int, linear: bool) {
    minLr == 0.0 || n == 0 || (!linear && n < 0 && maxLr == 0.0)
  }

  /** The rate the `LambdaLR` scheduler writes after its `it`-th `step()`:
      `min_lr * lambda(it)` with `lambda(it) = lr_mult * it` and `lr_mult = ratio / n`
      for the linear sweep. The exponential sweep `min_lr * (ratio ** (1 / n)) ** it` is
      kept symbolic. */
  function SweepRate(minLr: real, ratio: real, n: int, linear: bool, it: nat): (lr: LearningRate)
    requires n != 0
    ensures linear <==> lr.Fixed?
    ensures !linear ==> lr == Geometric(minLr, ratio, it as real / n as real)
  {
    if linear then Fixed(minLr * ((ratio / n as real) * it as real))
    else Geometric(minLr, ratio, it as real / n as real)
  }

  /** The first `count` rates of the sweep, one per scheduler step. */
  function Rates(minLr: real, ratio: real, n: int, linear: bool, count: nat): (lrs: seq<LearningRate>)
    requires n != 0
    ensures |lrs| == count
  {
    if count == 0 then [] else Rates(minLr, ratio, n, linear, count - 1) + [SweepRate(minLr, ratio, n, linear, count)]
  }

  /** The `j`-th recorded rate is the one written by step `j + 1`. */
  lemma {:induction false} RatesAt(minLr: real, ratio: real, n: int, linear: bool, count: nat)
    requires n != 0
    ensures forall j :: 0 <= j < count ==> Rates(minLr, ratio, n, linear, count)[j] == SweepRate(minLr, ratio, n, linear, j + 1)
  {
    if count > 0 {
      RatesAt(minLr, ratio, n, linear, count - 1);
    }
  }

  /** The value of `best` after the losses `xs`: it starts at `Start` and takes every
      strictly smaller loss. */
  function Best(xs: seq<real>): (b: real)
    ensures b <= Start
  {
    if |xs| == 0 then Start
    else
      var before := Best(xs[..|xs| - 1]);
      if xs[|xs| - 1] < before then xs[|xs| - 1] else before
  }

  /** `best` is the smallest loss seen, or `Start` when every loss was at least that. */
  lemma {:induction false} BestIsMinimum(xs: seq<real>)
    ensures forall k :: 0 <= k < |xs| ==> Best(xs) <= xs[k]
    ensures Best(xs) == Start || exists k :: 0 <= k < |xs| && Best(xs) == xs[k]
  {
    if |xs| > 0 {
      var init := xs[..|xs| - 1];
      BestIsMinimum(init);
      assert forall k :: 0 <= k < |init| ==> init[k] == xs[k];
      if Best(xs) != Start && Best(xs) != xs[|xs| - 1] {
        var k :| 0 <= k < |init| && Best(init) == init[k];
        assert Best(xs) == xs[k];
      }
    }
  }

  /** Batch `i` ends the sweep: it did not improve on `best`, and either it exceeds
      `10000 * best` or it is the batch with index `n - 1`. The budget test sits in the
      `elif`, so an improving batch never stops the sweep. */
  predicate StopsAt(xs: seq<real>, i: nat, n: int)
    requires i < |xs|
  {
    var best := Best(xs[..i]);
    !(xs[i] < best) && (xs[i] > best * 10000.0 || i == n - 1)
  }

  /** How many batches, from batch `i` on, the sweep processes: up to and including the
      first one that stops it, or all of them. */
  function Scan(xs: seq<real>, n: int, i: nat): (count: nat)
    requires i <= |xs|
    ensures i <= count <= |xs|
    ensures i < |xs| ==> count > i
    decreases |xs| - i
  {
    if i == |xs| then i
    else if StopsAt(xs, i, n) then i + 1
    else Scan(xs, n, i + 1)
  }

  /** The sweep stops at the first batch the stopping rule picks, and at no earlier one. */
  lemma {:induction false} ScanFirstStop(xs: seq<real>, n: int, i: nat)
    requires i <= |xs|
    ensures forall j :: i <= j < Scan(xs, n, i) - 1 ==> !StopsAt(xs, j, n)
    ensures Scan(xs, n, i) < |xs| ==> StopsAt(xs, Scan(xs, n, i) - 1, n)
    decreases |xs| - i
  {
    if i < |xs| && !StopsAt(xs, i, n) {
      ScanFirstStop(xs, n, i + 1);
    }
  }

  /** One step of `best`: extending the losses by one batch. */
  lemma BestSnoc(xs: seq<real>, i: nat)
    requires i < |xs|
    ensures Best(xs[..i + 1]) == if xs[i] < Best(xs[..i]) then xs[i] else Best(xs[..i])
  {
    assert xs[..i + 1][..i] == xs[..i];
  }

  /** `Scan` one batch at a time, with the stopping rule read off the running `best`. */
  lemma ScanStep(xs: seq<real>, n: int, i: nat, best: real)
    requires i < |xs| && best == Best(xs[..i])
    ensures var stops := !(xs[i] < best) && (xs[i] > best * 10000.0 || i == n - 1);
      (stops ==> Scan(xs, n, i) == i + 1) && (!stops ==> Scan(xs, n, i) == Scan(xs, n, i + 1))
  {
  }

  /** The `try` block: batches are processed until the stopping rule fires, the loader
      is exhausted or the interrupt arrives. `updates` counts the optimizer steps applied
      to the model. */
  method SweepLoader(batchLosses: seq<real>, minLr: real, ratio: real, n: int, linear: bool, interrupt: Option<nat>)
    returns (lrs: seq<LearningRate>, losses: seq<real>, updates: nat, interrupted: bool)
    requires n != 0
    ensures var count := Scan(batchLosses, n, 0);
      (interrupted <==> interrupt.Some? && interrupt.value < count) &&
      (interrupted ==> updates == interrupt.value) &&
      (!interrupted ==> updates == count && lrs == Rates(minLr, ratio, n, linear, count) &&
                        losses == batchLosses[..count])
  {
    lrs, losses, updates := [], [], 0;
    var best := Start;
    var i := 0;
    var stopped := false;
    while i < |batchLosses| && !stopped && interrupt != Some(i)
      invariant 0 <= i <= |batchLosses| && updates == i
      invariant lrs == Rates(minLr, ratio, n, linear, i) && losses == batchLosses[..i]
      invariant best == Best(batchLosses[..i])
      invariant stopped ==> Scan(batchLosses, n, 0) == i
      invariant !stopped ==> Scan(batchLosses, n, 0) == Scan(batchLosses, n, i)
      invariant interrupt.None? || interrupt.value >= i
    {
      lrs := lrs + [SweepRate(minLr, ratio, n, linear, i + 1)];
      updates := updates + 1;
      var loss := batchLosses[i];
      losses := losses + [loss];
      assert losses == batchLosses[..i + 1];
      BestSnoc(batchLosses, i);
      ScanStep(batchLosses, n, i, best);
      if loss < best {
        best := loss;
      } else if loss > best * 10000.0 || i == n - 1 {
        stopped := true;
      }
      i := i + 1;
    }
    interrupted := !stopped && i < |batchLosses|;
  }

  /** `lr_find(dataloader, min_lr, max_lr, linear, num_it)` on a loader whose batches
      produce the losses `batchLosses`. `interrupt == Some(k)` is a `KeyboardInterrupt`
      arriving while batch `k` is processed. The multiplier and the construction of the
      SGD optimizer, which rejects a negative rate, come before `save_state`, so a
      `ZeroDivisionError` (see `DividesByZero`) or a negative `min_lr` (`ValueError`)
      raises with nothing changed; afterwards the `finally` block reloads `'tmp'` whether
      or not the sweep was interrupted. */
  method LrFind(t: Trainer, disk: Disk, batchLosses: seq<real>, minLr: real, maxLr: real, linear: bool,
                numIt: Option<int>, interrupt: Option<nat>) returns (r: Finding)
    ensures var n := Budget(numIt, |batchLosses|);
      DividesByZero(minLr, maxLr, n, linear) <==> r == Finding(t, disk, Err(ZeroDivision))
    ensures var n := Budget(numIt, |batchLosses|);
      (!DividesByZero(minLr, maxLr, n, linear) && minLr < 0.0) <==> r == Finding(t, disk, Err(InvalidValue("lr")))
    ensures var n := Budget(numIt, |batchLosses|);
      !DividesByZero(minLr, maxLr, n, linear) && minLr > 0.0 ==>
        r.disk == SaveState(t, disk, "tmp") &&
        r.trainer == t.(lastEpoch := |t.metrics.trainLosses|)
    ensures var n := Budget(numIt, |batchLosses|);
      !DividesByZero(minLr, maxLr, n, linear) && minLr > 0.0 ==>
        (r.outcome.Err? <==> interrupt.Some? && interrupt.value < Scan(batchLosses, n, 0)) &&
        (r.outcome.Err? ==> r.outcome.error == KeyboardInterrupt)
    ensures var n := Budget(numIt, |batchLosses|);
      r.outcome.Ok? ==>
        var count := Scan(batchLosses, n, 0);
        |r.outcome.value.0| == count && r.outcome.value.1 == batchLosses[..count] &&
        forall j :: 0 <= j < count ==> r.outcome.value.0[j] == SweepRate(minLr, maxLr / minLr, n, linear, j + 1)
  {
    var n := Budget(numIt, |batchLosses|);
    if DividesByZero(minLr, maxLr, n, linear) {
      r := Finding(t, disk, Err(ZeroDivision));
    } else if minLr < 0.0 {
      r := Finding(t, disk, Err(InvalidValue("lr")));
    } else {
      var ratio := maxLr / minLr;
      var saved := SaveState(t, disk, "tmp");
      var lrs, losses, updates, interrupted := SweepLoader(batchLosses, minLr, ratio, n, linear, interrupt);
      RatesAt(minLr, ratio, n, linear, |lrs|);
      var live := t.(params := Params(t.params.updates + updates));
      SaveLoadState(t, live, disk, "tmp");
      var restored := LoadState(live, saved, "tmp");
      r := Finding(restored.value, saved, if interrupted then Err(KeyboardInterrupt) else Ok((lrs, losses)));
    }
  }

  /** The linear sweep spaces its rates evenly: the `it`-th rate is `max_lr * it / n`.
      It starts at `max_lr / n`, not at `min_lr`, and reaches `max_lr` at `it == n`. */
  lemma LinearRates(minLr: real, maxLr: real, n: int, it: nat)
    requires minLr != 0.0 && n != 0
    ensures SweepRate(minLr, maxLr / minLr, n, true, it) == Fixed(maxLr * it as real / n as real)
    ensures it == n ==> SweepRate(minLr, maxLr / minLr, n, true, it) == Fixed(maxLr)
  {
    var ratio := maxLr / minLr;
    assert minLr * ratio == maxLr;
    calc {
      minLr * ((ratio / n as real) * it as real);
      (minLr * ratio) * it as real / n as real;
      maxLr * it as real / n as real;
    }
  }

  /** A sweep whose losses keep improving ignores the budget: with `num_it = 2` and
      three halving losses all three batches are processed. */
  lemma ImprovingIgnoresBudget()
    ensures Scan([1.0, 0.5, 0.25], 2, 0) == 3
  {
    var xs := [1.0, 0.5, 0.25];
    assert xs[..0] == [] && xs[..1] == [1.0] && xs[..2] == [1.0, 0.5];
    assert [1.0][..0] == [] && [1.0, 0.5][..1] == [1.0];
    assert !StopsAt(xs, 0, 2) && !StopsAt(xs, 1, 2) && !StopsAt(xs, 2, 2);
  }

  /** A loss more than `10000 * best` stops the sweep right after it is recorded. */
  lemma BlowUpStops()
    ensures Scan([1.0, 20000.0, 0.5], 3, 0) == 2
  {
    var xs := [1.0, 20000.0, 0.5];
    assert xs[..0] == [] && xs[..1] == [1.0];
    assert !StopsAt(xs, 0, 3) && StopsAt(xs, 1, 3);
  }
}
