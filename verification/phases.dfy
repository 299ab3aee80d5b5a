/** What the batch loops of one epoch do: the training batches step the optimizer and
    accumulate `epo_loss`; the validation batches accumulate it, `None` propagating. */
module Phases {
  import opened Base
  import opened Batches
  import opened Store
  import opened Hooks
  import opened Training
  import opened Fitting
  import opened FitFrames

  /** The trainer after `k` more optimizer steps. */
  function Stepped(t: Trainer, k: nat): (u: Trainer)
    ensures u.params.updates == t.params.updates + k
    ensures Keeps(t, u) <==> k == 0
  {
    t.(params := Params(t.params.updates + k))
  }

  /** The losses `loss` reports for batches `b .. m - 1` of epoch `e`, in batch order. */
  function Reported<L>(e: int, loss: (int, nat) -> L, m: nat, b: nat): (ls: seq<L>)
    requires b <= m
    ensures |ls| == m - b && forall k :: 0 <= k < m - b ==> ls[k] == loss(e, b + k)
  {
    seq(m - b, k requires 0 <= k < m - b => loss(e, b + k))
  }

  /** The training losses the model reports for batches `b ..` of epoch `e`. */
  function TrainLosses(e: int, f: (int, nat) -> TrainOut, m: nat, b: nat): (ls: seq<real>)
    requires b <= m
    ensures |ls| == m - b && forall k :: 0 <= k < m - b ==> ls[k] == f(e, b + k).loss
  {
    Reported(e, (x: int, k: nat) => f(x, k).loss, m, b)
  }

  /** The validation losses (possibly `None`) for batches `b ..` of epoch `e`. */
  function ValidLosses(e: int, f: (int, nat) -> ValidOut, m: nat, b: nat): (ls: seq<Option<real>>)
    requires b <= m
    ensures |ls| == m - b && forall k :: 0 <= k < m - b ==> ls[k] == f(e, b + k).loss
  {
    Reported(e, (x: int, k: nat) => f(x, k).loss, m, b)
  }

  /** Between `s` and `r`: `samples` more samples and `added` more loss were
      accumulated, the optimizer stepped `steps` times, and neither the history, nor
      `last_epoch`, nor the bookkeeping changed. */
  predicate Advanced(s: Session, r: Session, samples: int, added: real, steps: nat) {
    s.accum.loss.Some? && r.accum == Accum(Some(s.accum.loss.value + added), s.accum.samples + samples) &&
    Steady(s.trainer, r.trainer) && Recorded(s.trainer, r.trainer) &&
    r.trainer.params.updates == s.trainer.params.updates + steps
  }

  lemma AdvancedTransitive(s: Session, m: Session, r: Session, n1: int, a1: real, k1: nat, n2: int, a2: real, k2: nat,
                           n: int, a: real, k: nat)
    requires Advanced(s, m, n1, a1, k1) && Advanced(m, r, n2, a2, k2)
    requires n == n1 + n2 && a == a1 + a2 && k == k1 + k2
    ensures Advanced(s, r, n, a, k)
  {
    SteadyTransitive(s.trainer, m.trainer, r.trainer);
  }

  /** Hooks of an epoch that raise nothing advance nothing. */
  lemma HookAdvancesNothing(s: Session, r: Session, h: Hook)
    requires HookFrame(s, r, h) && h.InEpoch() && s.accum.loss.Some?
    ensures Advanced(s, r, 0, 0.0, 0) && Evaluated(s, r, 0, s.accum.loss)
  {
  }

  /** The optimizer step adds one update and the batch's contribution. */
  lemma OptimizeEffect(s: Session, size: nat, out: TrainOut)
    requires s.accum.loss.Some?
    ensures var r := Optimize(s, size, out);
      r.crash.None? ==> Advanced(s, r, size, Contribution(s.trainer.sizeAverage, size, out.loss), 1)
  {
    SetupKeepsKinds(s.trainer, s.trainer);
  }

  /** One training batch: the hooks around it keep everything but callback state and
      the optimizer's rates; the step adds one update and the batch's contribution. */
  lemma TrainBatchEffect(s: Session, e: int, b: nat, size: nat, out: TrainOut)
    requires s.crash.None? && s.accum.loss.Some?
    ensures var r := TrainBatch(s, e, b, size, out);
      r.crash.None? ==> Advanced(s, r, size, Contribution(s.trainer.sizeAverage, size, out.loss), 1)
  {
    var c := Contribution(s.trainer.sizeAverage, size, out.loss);
    var s1 := Notify(s, 0, BatchBegin(e, b, size));
    NotifyFrame(s, 0, BatchBegin(e, b, size));
    if s1.crash.None? {
      HookAdvancesNothing(s, s1, BatchBegin(e, b, size));
      var s2 := Optimize(s1, size, out);
      OptimizeEffect(s1, size, out);
      if s2.crash.None? {
        var r := Notify(s2, 0, BatchEnd(e, b, size, out));
        NotifyFrame(s2, 0, BatchEnd(e, b, size, out));
        if r.crash.None? {
          HookAdvancesNothing(s2, r, BatchEnd(e, b, size, out));
          AdvancedTransitive(s, s1, s2, 0, 0.0, 0, size, c, 1, size, c, 1);
          AdvancedTransitive(s, s2, r, size, c, 1, 0, 0.0, 0, size, c, 1);
        }
      }
    }
  }

  /** With plain callbacks and no interrupt, a training batch never raises, and changes
      nothing but the one optimizer step. */
  lemma TrainBatchPlain(s: Session, e: int, b: nat, size: nat, out: TrainOut)
    requires s.crash.None? && s.accum.loss.Some? && AllPlain(s.trainer.callbacks) && Uninterruptible(s)
    ensures var r := TrainBatch(s, e, b, size, out);
      r.crash.None? && r.trainer == Stepped(s.trainer, 1) && r.disk == s.disk && r.accum.loss.Some?
  {
    NotifyPlain(s, 0, BatchBegin(e, b, size));
    var s2 := Optimize(Notify(s, 0, BatchBegin(e, b, size)), size, out);
    NotifyPlain(s2, 0, BatchEnd(e, b, size, out));
  }

  /** Peeling batch `b` off the totals of batches `b ..`. */
  lemma TrainTotalsCons(sa: bool, sizes: seq<Pos>, e: int, f: (int, nat) -> TrainOut, b: nat)
    requires b < |sizes|
    ensures Sum(sizes[b..]) == sizes[b] + Sum(sizes[b + 1..])
    ensures Accumulated(sa, sizes[b..], TrainLosses(e, f, |sizes|, b)) ==
      Contribution(sa, sizes[b], f(e, b).loss) + Accumulated(sa, sizes[b + 1..], TrainLosses(e, f, |sizes|, b + 1))
  {
    assert sizes[b..][1..] == sizes[b + 1..];
    assert TrainLosses(e, f, |sizes|, b)[1..] == TrainLosses(e, f, |sizes|, b + 1);
  }

  /** Batch `b` followed by batches `b + 1 ..` advance the session as batches `b ..` do. */
  lemma TrainLoopCons(s: Session, s1: Session, r: Session, e: int, sizes: seq<Pos>, f: (int, nat) -> TrainOut, b: nat)
    requires b < |sizes|
    requires Advanced(s, s1, sizes[b], Contribution(s.trainer.sizeAverage, sizes[b], f(e, b).loss), 1)
    requires Advanced(s1, r, Sum(sizes[b + 1..]),
                      Accumulated(s1.trainer.sizeAverage, sizes[b + 1..], TrainLosses(e, f, |sizes|, b + 1)),
                      |sizes| - (b + 1))
    ensures Advanced(s, r, Sum(sizes[b..]), Accumulated(s.trainer.sizeAverage, sizes[b..], TrainLosses(e, f, |sizes|, b)),
                     |sizes| - b)
  {
    var sa := s.trainer.sizeAverage;
    TrainTotalsCons(sa, sizes, e, f, b);
    AdvancedTransitive(s, s1, r, sizes[b], Contribution(sa, sizes[b], f(e, b).loss), 1,
                       Sum(sizes[b + 1..]), Accumulated(sa, sizes[b + 1..], TrainLosses(e, f, |sizes|, b + 1)),
                       |sizes| - (b + 1),
                       Sum(sizes[b..]), Accumulated(sa, sizes[b..], TrainLosses(e, f, |sizes|, b)), |sizes| - b);
  }

  /** Training batches `b ..`: one optimizer step per batch, and `epo_loss` grows by the
      accumulated loss of those batches. */
  lemma {:induction false} TrainLoopEffect(s: Session, e: int, sizes: seq<Pos>, f: (int, nat) -> TrainOut, b: nat)
    requires s.crash.None? && s.accum.loss.Some? && b <= |sizes|
    ensures var r := TrainLoop(s, e, sizes, f, b);
      r.crash.None? ==>
        Advanced(s, r, Sum(sizes[b..]), Accumulated(s.trainer.sizeAverage, sizes[b..], TrainLosses(e, f, |sizes|, b)),
                 |sizes| - b)
    decreases |sizes| - b
  {
    var sa := s.trainer.sizeAverage;
    if b == |sizes| {
      assert sizes[b..] == [];
      SetupKeepsKinds(s.trainer, s.trainer);
    } else {
      var s1 := TrainBatch(s, e, b, sizes[b], f(e, b));
      TrainBatchEffect(s, e, b, sizes[b], f(e, b));
      if s1.crash.None? {
        TrainLoopEffect(s1, e, sizes, f, b + 1);
        var r := TrainLoop(s1, e, sizes, f, b + 1);
        if r.crash.None? {
          TrainLoopCons(s, s1, r, e, sizes, f, b);
        }
      }
    }
  }

  /** With plain callbacks and no interrupt the training batches never raise and change
      nothing but the optimizer's step count. */
  lemma {:induction false} TrainLoopPlain(s: Session, e: int, sizes: seq<Pos>, f: (int, nat) -> TrainOut, b: nat)
    requires s.crash.None? && s.accum.loss.Some? && AllPlain(s.trainer.callbacks) && Uninterruptible(s)
    requires b <= |sizes|
    ensures var r := TrainLoop(s, e, sizes, f, b);
      r.crash.None? && r.trainer == Stepped(s.trainer, |sizes| - b) && r.disk == s.disk
    decreases |sizes| - b
  {
    if b < |sizes| {
      TrainBatchPlain(s, e, b, sizes[b], f(e, b));
      TrainLoopPlain(TrainBatch(s, e, b, sizes[b], f(e, b)), e, sizes, f, b + 1);
    }
  }

  /** Between `s` and `r`: `samples` more samples were seen and `epo_loss` became
      `acc`; neither the history, nor the parameters, nor the bookkeeping changed. */
  predicate Evaluated(s: Session, r: Session, samples: int, acc: Option<real>) {
    r.accum == Accum(acc, s.accum.samples + samples) && Steady(s.trainer, r.trainer) && Keeps(s.trainer, r.trainer)
  }

  lemma EvaluatedTransitive(s: Session, m: Session, r: Session, n1: int, n2: int, acc1: Option<real>, n: int, acc: Option<real>)
    requires Evaluated(s, m, n1, acc1) && Evaluated(m, r, n2, acc) && n == n1 + n2
    ensures Evaluated(s, r, n, acc)
  {
    SteadyTransitive(s.trainer, m.trainer, r.trainer);
  }

  /** The accumulation over a single batch. */
  lemma ValidAccumulatedOne(sa: bool, acc: Option<real>, size: int, loss: Option<real>)
    ensures ValidAccumulated(sa, acc, [size], [loss]) ==
      if loss.None? then Ok(None)
      else if acc.None? then Err(NoneArithmetic)
      else Ok(Some(acc.value + Contribution(sa, size, loss.value)))
  {
    assert [size][1..] == [] && [loss][1..] == [];
  }

  /** The evaluation of one batch adds its size and folds its loss into `epo_loss`. */
  lemma EvaluateEffect(s: Session, size: nat, out: ValidOut)
    requires s.crash.None?
    ensures var r := Evaluate(s, size, out);
      var h := ValidAccumulated(s.trainer.sizeAverage, s.accum.loss, [size], [out.loss]);
      (r.crash.None? ==> h.Ok? && Evaluated(s, r, size, h.value)) &&
      (h.Err? ==> r.crash.Some?)
  {
    ValidAccumulatedOne(s.trainer.sizeAverage, s.accum.loss, size, out.loss);
    SetupKeepsKinds(s.trainer, s.trainer);
  }

  /** Validation hooks that raise nothing leave the accumulators and the trainer's
      bookkeeping alone. */
  lemma HookEvaluatesNothing(s: Session, r: Session, h: Hook)
    requires HookFrame(s, r, h) && h.InEpoch()
    ensures Evaluated(s, r, 0, s.accum.loss)
  {
  }

  /** One validation batch: the hooks around it change only callback state; the batch
      adds its size and folds its loss into `epo_loss`, raising where adding a number
      to `None` would. */
  lemma ValidBatchEffect(s: Session, e: int, b: nat, size: nat, out: ValidOut)
    requires s.crash.None?
    ensures var r := ValidBatch(s, e, b, size, out);
      var h := ValidAccumulated(s.trainer.sizeAverage, s.accum.loss, [size], [out.loss]);
      (r.crash.None? ==> h.Ok? && Evaluated(s, r, size, h.value)) &&
      (h.Err? ==> r.crash.Some?)
  {
    var h := ValidAccumulated(s.trainer.sizeAverage, s.accum.loss, [size], [out.loss]);
    var s1 := Notify(s, 0, VBatchBegin(e, b, size));
    NotifyFrame(s, 0, VBatchBegin(e, b, size));
    if s1.crash.None? {
      HookEvaluatesNothing(s, s1, VBatchBegin(e, b, size));
      var s2 := Evaluate(s1, size, out);
      EvaluateEffect(s1, size, out);
      if s2.crash.None? {
        var r := Notify(s2, 0, VBatchEnd(e, b, size, out));
        NotifyFrame(s2, 0, VBatchEnd(e, b, size, out));
        if r.crash.None? {
          HookEvaluatesNothing(s2, r, VBatchEnd(e, b, size, out));
          EvaluatedTransitive(s, s1, s2, 0, size, s.accum.loss, size, h.value);
          EvaluatedTransitive(s, s2, r, size, 0, h.value, size, h.value);
        }
      }
    }
  }

  /** With plain callbacks and no interrupt, a validation batch raises exactly when
      its loss cannot be added, and then with `TypeError`; the trainer is untouched. */
  lemma ValidBatchPlain(s: Session, e: int, b: nat, size: nat, out: ValidOut)
    requires s.crash.None? && AllPlain(s.trainer.callbacks) && Uninterruptible(s)
    ensures var r := ValidBatch(s, e, b, size, out);
      var h := ValidAccumulated(s.trainer.sizeAverage, s.accum.loss, [size], [out.loss]);
      (r.crash.None? <==> h.Ok?) && (r.crash.Some? ==> r.crash == Some(NoneArithmetic)) &&
      r.trainer == s.trainer && r.disk == s.disk
  {
    ValidAccumulatedOne(s.trainer.sizeAverage, s.accum.loss, size, out.loss);
    NotifyPlain(s, 0, VBatchBegin(e, b, size));
    var s2 := Evaluate(Notify(s, 0, VBatchBegin(e, b, size)), size, out);
    if s2.crash.None? {
      NotifyPlain(s2, 0, VBatchEnd(e, b, size, out));
    }
  }

  /** Peeling batch `b` off the accumulation over batches `b ..`. */
  lemma ValidTotalsCons(sa: bool, acc: Option<real>, sizes: seq<Pos>, e: int, f: (int, nat) -> ValidOut, b: nat)
    requires b < |sizes|
    ensures Sum(sizes[b..]) == sizes[b] + Sum(sizes[b + 1..])
    ensures var h := ValidAccumulated(sa, acc, [sizes[b]], [f(e, b).loss]);
      ValidAccumulated(sa, acc, sizes[b..], ValidLosses(e, f, |sizes|, b)) ==
        if h.Err? then h else ValidAccumulated(sa, h.value, sizes[b + 1..], ValidLosses(e, f, |sizes|, b + 1))
  {
    assert sizes[b..][1..] == sizes[b + 1..];
    assert ValidLosses(e, f, |sizes|, b)[1..] == ValidLosses(e, f, |sizes|, b + 1);
    ValidAccumulatedOne(sa, acc, sizes[b], f(e, b).loss);
  }

  /** Validation batches `b ..`: `epo_loss` ends as the accumulation of their losses,
      and when that accumulation adds a number to `None` the loop raises. */
  lemma {:induction false} ValidLoopEffect(s: Session, e: int, sizes: seq<Pos>, f: (int, nat) -> ValidOut, b: nat)
    requires s.crash.None? && b <= |sizes|
    ensures var r := ValidLoop(s, e, sizes, f, b);
      var va := ValidAccumulated(s.trainer.sizeAverage, s.accum.loss, sizes[b..], ValidLosses(e, f, |sizes|, b));
      (r.crash.None? ==> va.Ok? && Evaluated(s, r, Sum(sizes[b..]), va.value)) &&
      (va.Err? ==> r.crash.Some?)
    decreases |sizes| - b
  {
    var sa := s.trainer.sizeAverage;
    if b == |sizes| {
      assert sizes[b..] == [];
      SetupKeepsKinds(s.trainer, s.trainer);
    } else {
      var s1 := ValidBatch(s, e, b, sizes[b], f(e, b));
      ValidBatchEffect(s, e, b, sizes[b], f(e, b));
      ValidTotalsCons(sa, s.accum.loss, sizes, e, f, b);
      if s1.crash.None? {
        ValidLoopEffect(s1, e, sizes, f, b + 1);
        var r := ValidLoop(s1, e, sizes, f, b + 1);
        if r.crash.None? {
          var h := ValidAccumulated(sa, s.accum.loss, [sizes[b]], [f(e, b).loss]);
          var va2 := ValidAccumulated(sa, h.value, sizes[b + 1..], ValidLosses(e, f, |sizes|, b + 1));
          EvaluatedTransitive(s, s1, r, sizes[b], Sum(sizes[b + 1..]), h.value, Sum(sizes[b..]), va2.value);
        }
      }
    }
  }

  /** With plain callbacks and no interrupt the validation batches raise exactly when
      the accumulation fails, always with `TypeError`, and leave the trainer alone. */
  lemma {:induction false} ValidLoopPlain(s: Session, e: int, sizes: seq<Pos>, f: (int, nat) -> ValidOut, b: nat)
    requires s.crash.None? && AllPlain(s.trainer.callbacks) && Uninterruptible(s) && b <= |sizes|
    ensures var r := ValidLoop(s, e, sizes, f, b);
      var va := ValidAccumulated(s.trainer.sizeAverage, s.accum.loss, sizes[b..], ValidLosses(e, f, |sizes|, b));
      (r.crash.None? <==> va.Ok?) && (r.crash.Some? ==> r.crash == Some(NoneArithmetic)) &&
      r.trainer == s.trainer && r.disk == s.disk
    decreases |sizes| - b
  {
    if b == |sizes| {
      assert sizes[b..] == [];
    } else {
      var s1 := ValidBatch(s, e, b, sizes[b], f(e, b));
      ValidBatchPlain(s, e, b, sizes[b], f(e, b));
      ValidBatchEffect(s, e, b, sizes[b], f(e, b));
      ValidTotalsCons(s.trainer.sizeAverage, s.accum.loss, sizes, e, f, b);
      if s1.crash.None? {
        ValidLoopPlain(s1, e, sizes, f, b + 1);
      }
    }
  }
}
