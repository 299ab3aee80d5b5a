/** Data loaders reduced to batch sizes, the per-epoch loss normalisation, and the
    train/validation split done by `DeepNetTrainer.fit`. */
module Batches {
  import opened Base

  type Pos = n: int | n > 0 witness 1

  /** A loader over `samples` examples cut into batches of `batchSize` (the last one
      possibly shorter, since `drop_last` is never set). */
  datatype Loader = Loader(samples: nat, batchSize: Pos)

  /** What the opaque model, criterion and optimizer report for one training batch:
      its loss and how many predictions matched their target. */
  datatype TrainOut = TrainOut(loss: real, correct: nat)

  /** The same for a validation batch, whose criterion may return `None`. */
  datatype ValidOut = ValidOut(loss: Option<real>, correct: nat)

  function Sum(xs: seq<int>): int
  {
    if |xs| == 0 then 0 else xs[0] + Sum(xs[1..])
  }

  lemma {:induction false} SumNonNegative(xs: seq<int>)
    requires forall i :: 0 <= i < |xs| ==> xs[i] >= 0
    ensures Sum(xs) >= 0
    ensures |xs| > 0 && xs[0] > 0 ==> Sum(xs) > 0
  {
    if |xs| > 0 {
      SumNonNegative(xs[1..]);
    }
  }

  /** `int(np.ceil(len(dataset) / batch_size))`: the number of batches the loader yields. */
  function NumBatches(samples: nat, batchSize: Pos): (n: nat)
    ensures n * batchSize >= samples
    ensures n > 0 ==> (n - 1) * batchSize < samples
    ensures samples > 0 ==> n > 0
  {
    var q := (samples + batchSize - 1) / batchSize;
    var r := (samples + batchSize - 1) % batchSize;
    assert samples + batchSize - 1 == q * batchSize + r && 0 <= r < batchSize;
    assert (q - 1) * batchSize == q * batchSize - batchSize;
    q
  }

  /** The two ensures of `NumBatches` pin its value down: the ceiling is unique. */
  lemma CeilingUnique(samples: nat, batchSize: Pos, n: nat)
    requires n * batchSize >= samples
    requires n > 0 ==> (n - 1) * batchSize < samples
    ensures n == NumBatches(samples, batchSize)
  {
    var m := NumBatches(samples, batchSize);
    if n < m {
      assert (m - 1) * batchSize >= n * batchSize by {
        assert m - 1 >= n;
        MulMonotone(n, m - 1, batchSize);
      }
    } else if m < n {
      assert (n - 1) * batchSize >= m * batchSize by {
        assert n - 1 >= m;
        MulMonotone(m, n - 1, batchSize);
      }
    }
  }

  lemma MulMonotone(a: int, b: int, c: nat)
    requires a <= b
    ensures a * c <= b * c
  {
    assert b * c - a * c == (b - a) * c;
  }

  /** The sizes of the batches a loader yields, in order. */
  function BatchSizes(l: Loader): (sizes: seq<Pos>)
    ensures |sizes| == NumBatches(l.samples, l.batchSize)
    ensures Sum(sizes) == l.samples
    ensures forall i :: 0 <= i < |sizes| ==> sizes[i] <= l.batchSize
    ensures forall i :: 0 <= i < |sizes| - 1 ==> sizes[i] == l.batchSize
    decreases l.samples
  {
    if l.samples == 0 then
      CeilingUnique(0, l.batchSize, 0);
      []
    else if l.samples <= l.batchSize then
      CeilingUnique(l.samples, l.batchSize, 1);
      [l.samples]
    else
      var rest := BatchSizes(Loader(l.samples - l.batchSize, l.batchSize));
      var n := |rest| + 1;
      assert n * l.batchSize == |rest| * l.batchSize + l.batchSize;
      assert (n - 1) * l.batchSize == |rest| * l.batchSize;
      assert (|rest| - 1) * l.batchSize == |rest| * l.batchSize - l.batchSize;
      CeilingUnique(l.samples, l.batchSize, n);
      assert ([l.batchSize] + rest)[1..] == rest;
      [l.batchSize] + rest
  }

  /** What one batch adds to `epo_loss`: its loss times its size when the criterion
      averages over the batch (`size_average`), the bare loss otherwise. */
  function Contribution(sizeAverage: bool, size: int, loss: real): real
  {
    if sizeAverage then size as real * loss else loss
  }

  /** `epo_loss` after a whole phase. */
  function Accumulated(sizeAverage: bool, sizes: seq<int>, losses: seq<real>): real
    requires |sizes| == |losses|
  {
    if |sizes| == 0 then 0.0
    else Contribution(sizeAverage, sizes[0], losses[0]) + Accumulated(sizeAverage, sizes[1..], losses[1..])
  }

  /** `epo_loss` after a validation phase that started from `acc`. A batch whose
      criterion returns `None` sets it to `None`; adding a number to `None` afterwards
      raises `TypeError`. */
  function ValidAccumulated(sizeAverage: bool, acc: Option<real>, sizes: seq<int>, losses: seq<Option<real>>): (r: Result<Option<real>>)
    requires |sizes| == |losses|
    ensures r.Err? ==> r.error == NoneArithmetic
    ensures acc.None? && r.Ok? ==> r.value.None?
    decreases |sizes|
  {
    if |sizes| == 0 then Ok(acc)
    else if losses[0].None? then ValidAccumulated(sizeAverage, None, sizes[1..], losses[1..])
    else if acc.None? then Err(NoneArithmetic)
    else ValidAccumulated(sizeAverage, Some(acc.value + Contribution(sizeAverage, sizes[0], losses[0].value)),
                          sizes[1..], losses[1..])
  }

  /** The accumulation runs batch by batch: the first batch, then the rest from there. */
  lemma ValidAccumulatedCons(sizeAverage: bool, acc: Option<real>, sizes: seq<int>, losses: seq<Option<real>>)
    requires |sizes| == |losses| && |sizes| > 0
    ensures var h := ValidAccumulated(sizeAverage, acc, sizes[..1], losses[..1]);
      ValidAccumulated(sizeAverage, acc, sizes, losses) ==
        (if h.Err? then h else ValidAccumulated(sizeAverage, h.value, sizes[1..], losses[1..]))
  {
    assert sizes[..1][1..] == [] && losses[..1][1..] == [];
    assert sizes[..1][0] == sizes[0] && losses[..1][0] == losses[0];
  }

  predicate AllSome(losses: seq<Option<real>>) {
    forall i :: 0 <= i < |losses| ==> losses[i].Some?
  }

  /** Some batch reports `None` and a later one reports a number. */
  predicate NoneThenSome(losses: seq<Option<real>>) {
    exists i, j :: 0 <= i < j < |losses| && losses[i].None? && losses[j].Some?
  }

  function Values(losses: seq<Option<real>>): (vs: seq<real>)
    requires AllSome(losses)
    ensures |vs| == |losses| && forall i :: 0 <= i < |losses| ==> losses[i] == Some(vs[i])
  {
    seq(|losses|, i requires 0 <= i < |losses| && AllSome(losses) => losses[i].value)
  }

  /** Once `epo_loss` is `None`, the phase raises exactly when some later batch
      reports a number. */
  lemma {:induction false} ValidAccumulatedFromNone(sizeAverage: bool, sizes: seq<int>, losses: seq<Option<real>>)
    requires |sizes| == |losses|
    ensures ValidAccumulated(sizeAverage, None, sizes, losses).Err? <==>
      exists j :: 0 <= j < |losses| && losses[j].Some?
    decreases |sizes|
  {
    if |sizes| > 0 && losses[0].None? {
      ValidAccumulatedFromNone(sizeAverage, sizes[1..], losses[1..]);
      if exists j :: 0 <= j < |losses| && losses[j].Some? {
        var j :| 0 <= j < |losses| && losses[j].Some?;
        assert losses[1..][j - 1] == losses[j];
      }
      if exists j :: 0 <= j < |losses| - 1 && losses[1..][j].Some? {
        var j :| 0 <= j < |losses| - 1 && losses[1..][j].Some?;
        assert losses[j + 1] == losses[1..][j];
      }
    }
  }

  /** Reference meaning of the validation accumulation, starting from a number: it
      raises exactly when a `None` batch is followed by a numeric one; otherwise the
      result is a number exactly when every batch reported one, and then it is the
      ordinary accumulated loss. */
  lemma {:induction false} ValidAccumulatedMeaning(sizeAverage: bool, a: real, sizes: seq<int>, losses: seq<Option<real>>)
    requires |sizes| == |losses|
    ensures var r := ValidAccumulated(sizeAverage, Some(a), sizes, losses);
      (r.Err? <==> NoneThenSome(losses)) &&
      (r.Ok? ==> (r.value.Some? <==> AllSome(losses))) &&
      (AllSome(losses) ==> r == Ok(Some(a + Accumulated(sizeAverage, sizes, Values(losses)))))
    decreases |sizes|
  {
    if |sizes| > 0 {
      var tail := losses[1..];
      assert forall k :: 0 <= k < |tail| ==> tail[k] == losses[k + 1];
      if losses[0].None? {
        ValidAccumulatedFromNone(sizeAverage, sizes[1..], tail);
        if NoneThenSome(losses) {
          var i, j :| 0 <= i < j < |losses| && losses[i].None? && losses[j].Some?;
          assert tail[j - 1].Some?;
        }
        if exists j :: 0 <= j < |tail| && tail[j].Some? {
          var j :| 0 <= j < |tail| && tail[j].Some?;
          assert losses[0].None? && losses[j + 1].Some?;
        }
      } else {
        var a' := a + Contribution(sizeAverage, sizes[0], losses[0].value);
        ValidAccumulatedMeaning(sizeAverage, a', sizes[1..], tail);
        if NoneThenSome(losses) {
          var i, j :| 0 <= i < j < |losses| && losses[i].None? && losses[j].Some?;
          assert tail[i - 1].None? && tail[j - 1].Some?;
        }
        if NoneThenSome(tail) {
          var i, j :| 0 <= i < j < |tail| && tail[i].None? && tail[j].Some?;
          assert losses[i + 1].None? && losses[j + 1].Some?;
        }
        if AllSome(losses) {
          assert AllSome(tail);
          assert Values(losses)[1..] == Values(tail);
        } else {
          var i :| 0 <= i < |losses| && losses[i].None?;
          assert tail[i - 1].None?;
        }
      }
    }
  }

  /** The epoch loss `epo_loss / epo_samples`. */
  function EpochLoss(sizeAverage: bool, sizes: seq<int>, losses: seq<real>): real
    requires |sizes| == |losses|
    requires Sum(sizes) > 0
  {
    Accumulated(sizeAverage, sizes, losses) / Sum(sizes) as real
  }

  lemma {:induction false} AccumulatedBounds(sizes: seq<int>, losses: seq<real>, lo: real, hi: real)
    requires |sizes| == |losses|
    requires forall i :: 0 <= i < |sizes| ==> sizes[i] >= 0
    requires forall i :: 0 <= i < |losses| ==> lo <= losses[i] <= hi
    ensures lo * Sum(sizes) as real <= Accumulated(true, sizes, losses) <= hi * Sum(sizes) as real
  {
    if |sizes| > 0 {
      AccumulatedBounds(sizes[1..], losses[1..], lo, hi);
      BoundsStep(lo, hi, sizes[0] as real, losses[0], Sum(sizes[1..]) as real,
                 Accumulated(true, sizes[1..], losses[1..]), Sum(sizes) as real, Accumulated(true, sizes, losses));
    }
  }

  /** One batch of `m` samples with loss `x` added to a bounded accumulation. */
  lemma BoundsStep(lo: real, hi: real, m: real, x: real, rest: real, tail: real, total: real, acc: real)
    requires m >= 0.0 && lo <= x <= hi
    requires lo * rest <= tail <= hi * rest
    requires total == m + rest && acc == m * x + tail
    ensures lo * total <= acc <= hi * total
  {
    ScaleMonotone(m, lo, x);
    ScaleMonotone(m, x, hi);
    Distribute(lo, total, m, rest);
    Distribute(hi, total, m, rest);
  }

  lemma ScaleMonotone(m: real, a: real, b: real)
    requires m >= 0.0 && a <= b
    ensures m * a <= m * b
  {
    assert m * b - m * a == m * (b - a);
  }

  lemma Distribute(a: real, total: real, m: real, rest: real)
    requires total == m + rest
    ensures a * total == m * a + a * rest
  {
  }

  lemma QuotientBounds(a: real, s: real, lo: real, hi: real)
    requires s > 0.0
    requires lo * s <= a <= hi * s
    ensures lo <= a / s <= hi
  {
    var q := a / s;
    assert q * s == a;
    assert (q - lo) * s >= 0.0;
    assert (hi - q) * s >= 0.0;
  }

  /** With `size_average`, the epoch loss is a weighted mean of the batch losses: it
      lies between their minimum and maximum. */
  lemma WeightedEpochLossBounds(sizes: seq<int>, losses: seq<real>, lo: real, hi: real)
    requires |sizes| == |losses|
    requires forall i :: 0 <= i < |sizes| ==> sizes[i] >= 0
    requires Sum(sizes) > 0
    requires forall i :: 0 <= i < |losses| ==> lo <= losses[i] <= hi
    ensures lo <= EpochLoss(true, sizes, losses) <= hi
  {
    AccumulatedBounds(sizes, losses, lo, hi);
    QuotientBounds(Accumulated(true, sizes, losses), Sum(sizes) as real, lo, hi);
  }

  /** With `size_average` and every batch loss equal to `c`, the epoch loss is `c`. */
  lemma ConstantEpochLoss(sizes: seq<int>, losses: seq<real>, c: real)
    requires |sizes| == |losses|
    requires forall i :: 0 <= i < |sizes| ==> sizes[i] >= 0
    requires Sum(sizes) > 0
    requires forall i :: 0 <= i < |losses| ==> losses[i] == c
    ensures EpochLoss(true, sizes, losses) == c
  {
    WeightedEpochLossBounds(sizes, losses, c, c);
  }

  /** Python's `int(x)` on a float: truncation toward zero. */
  function Trunc(x: real): (r: int)
    ensures x >= 0.0 ==> r as real <= x < r as real + 1.0
    ensures x < 0.0 ==> r as real - 1.0 < x <= r as real
  {
    if x >= 0.0 then x.Floor else -((-x).Floor)
  }

  /** Where `xs[:iv]` / `xs[iv:]` cut a sequence of length `n`: negative indices count
      from the end and out-of-range ones are clamped. */
  function SliceCut(iv: int, n: nat): (c: nat)
    ensures c <= n
    ensures 0 <= iv <= n ==> c == iv
  {
    if iv < 0 then Max(0, n + iv) else Min(iv, n)
  }

  /** `iv = int(valid_split * N)`, as a slice bound of a sequence of length `N`. */
  function SplitCut(validSplit: real, n: nat): nat {
    SliceCut(Trunc(validSplit * n as real), n)
  }

  /** The `valid_split` branch of `fit`: the first `int(valid_split * N)` examples
      validate, the rest train. */
  function ValidSplit<T>(xs: seq<T>, validSplit: real): (r: (seq<T>, seq<T>))
    ensures r.0 + r.1 == xs
    ensures |r.0| == SliceCut(Trunc(validSplit * |xs| as real), |xs|) == SplitCut(validSplit, |xs|)
  {
    var c := SplitCut(validSplit, |xs|);
    assert xs[..c] + xs[c..] == xs;
    (xs[..c], xs[c..])
  }

  lemma FractionOf(v: real, n: real)
    requires 0.0 <= v <= 1.0 && n >= 0.0
    ensures 0.0 <= v * n <= n
  {
    assert n - v * n == (1.0 - v) * n;
    ProductNonNegative(1.0 - v, n);
    ProductNonNegative(v, n);
  }

  /** For a fraction in [0, 1] the validation part holds `floor(valid_split * N)` examples. */
  lemma ValidSplitSize<T>(xs: seq<T>, validSplit: real)
    requires 0.0 <= validSplit <= 1.0
    ensures |ValidSplit(xs, validSplit).0| == (validSplit * |xs| as real).Floor
    ensures |ValidSplit(xs, validSplit).1| == |xs| - (validSplit * |xs| as real).Floor
  {
    var n := |xs| as real;
    var x := validSplit * n;
    FractionOf(validSplit, n);
    assert Trunc(x) == x.Floor;
    assert 0 <= x.Floor <= |xs|;
    assert SplitCut(validSplit, |xs|) == x.Floor;
    var parts := ValidSplit(xs, validSplit);
    assert |parts.0 + parts.1| == |xs|;
  }

  /** The loaders `fit` builds (lines 46-57): explicit validation data wins over a
      split fraction; with neither there is no validation loader. Only sizes matter. */
  function FitLoaders(samples: nat, validData: Option<nat>, validSplit: Option<real>, batchSize: Pos): (r: (Loader, Option<Loader>))
    ensures r.0.batchSize == batchSize
    ensures r.1.Some? <==> validData.Some? || validSplit.Some?
    ensures r.1.Some? ==> r.1.value.batchSize == batchSize
    ensures validData.Some? ==> r == (Loader(samples, batchSize), Some(Loader(validData.value, batchSize)))
    ensures validData.None? && validSplit.Some? ==> r.0.samples + r.1.value.samples == samples
    ensures validData.None? && validSplit.None? ==> r.0.samples == samples
  {
    if validData.Some? then
      (Loader(samples, batchSize), Some(Loader(validData.value, batchSize)))
    else if validSplit.Some? then
      var c := SplitCut(validSplit.value, samples);
      (Loader(samples - c, batchSize), Some(Loader(c, batchSize)))
    else
      (Loader(samples, batchSize), None)
  }

  /** With a split and no explicit validation data, the validation loader holds the
      first part of the samples as Python slices them, and the training loader the rest. */
  lemma FitLoadersSplit(samples: nat, validSplit: real, batchSize: Pos)
    ensures var parts := ValidSplit(seq(samples, i => i), validSplit);
      FitLoaders(samples, None, Some(validSplit), batchSize) ==
        (Loader(|parts.1|, batchSize), Some(Loader(|parts.0|, batchSize)))
  {
    var xs := seq(samples, i => i);
    var parts := ValidSplit(xs, validSplit);
    assert |parts.0| + |parts.1| == |xs| == samples by {
      assert |parts.0 + parts.1| == |xs|;
    }
  }
}
