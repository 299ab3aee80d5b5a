/** The decisions `PrintCallback` (lines 499-543) takes before it prints: which batches
    get a progress line, which epochs get a star, and when its epoch summary fails. */
module Printing {
  import opened Base
  import opened Batches
  import opened Store

  /** `n_batches < 4 or batch % (n_batches // 4) == 0` (line 542). */
  predicate Sampled(nBatches: nat, batch: nat) {
    nBatches < 4 || batch % (nBatches / 4) == 0
  }

  /** The batches among `b, b+1, ..., n-1` that print a progress line, in order. */
  function SampledFrom(n: nat, b: nat): (r: seq<nat>)
    ensures forall k :: 0 <= k < |r| ==> b <= r[k] < n && Sampled(n, r[k])
    ensures forall k, l :: 0 <= k < l < |r| ==> r[k] < r[l]
    decreases n - b
  {
    if b >= n then [] else (if Sampled(n, b) then [b] else []) + SampledFrom(n, b + 1)
  }

  /** Every batch of an epoch with fewer than four batches prints. */
  lemma {:induction false} ShortEpochsPrintEveryBatch(n: nat, b: nat)
    requires n < 4 && b <= n
    ensures SampledFrom(n, b) == seq(n - b, k => b + k)
    decreases n - b
  {
    if b < n {
      ShortEpochsPrintEveryBatch(n, b + 1);
    }
  }

  /** Between two multiples of `q = n // 4` nothing prints. */
  lemma {:induction false} SkipGap(n: nat, q: int, j: nat, i: int)
    requires n >= 4 && q == n / 4
    requires 1 <= i <= q
    ensures SampledFrom(n, j * q + i) == SampledFrom(n, (j + 1) * q)
    decreases q - i
  {
    if i < q && j * q + i < n {
      DivModUnique(j * q + i, q, j, i);
      SkipGap(n, q, j, i + 1);
    }
  }

  /** From the `j`-th multiple of `q` on, exactly the remaining multiples below `n` print. */
  lemma {:induction false} PrintsMultiples(n: nat, q: int, K: nat, j: nat)
    requires n >= 4 && q == n / 4 && K == NumBatches(n, q)
    requires j <= K
    ensures SampledFrom(n, j * q) == seq(K - j, k => (j + k) * q)
    decreases K - j
  {
    if j < K {
      MulMonotone(j, K - 1, q);
      DivModUnique(j * q, q, j, 0);
      SkipGap(n, q, j, 1);
      PrintsMultiples(n, q, K, j + 1);
      var rest := seq(K - j - 1, k => (j + 1 + k) * q);
      assert SampledFrom(n, j * q) == [j * q] + rest;
      assert [j * q] + rest == seq(K - j, k => (j + k) * q);
    }
  }

  /** With four or more batches an epoch prints the batches `0, q, 2q, ...` for
      `q = n // 4`: between four and seven progress lines. */
  lemma QuarterProgress(n: nat)
    requires n >= 4
    ensures var q := n / 4; var K := NumBatches(n, q);
      SampledFrom(n, 0) == seq(K, k => k * q) && 4 <= K <= 7
  {
    var q := n / 4;
    var K := NumBatches(n, q);
    PrintsMultiples(n, q, K, 0);
    assert seq(K - 0, k => (0 + k) * q) == seq(K, k => k * q);
    assert n == 4 * q + n % 4;
    assert (K - 4) * q == K * q - 4 * q;
    MultipleOutsideOpenInterval(K - 4, q);
    assert (K - 7) * q == (K - 1) * q - 6 * q;
    MultipleOutsideOpenInterval(K - 7, q);
  }

  /** `int(np.argmin(values))`: the first position holding the smallest value. */
  function FirstArgMin(s: seq<real>): (i: nat)
    requires |s| > 0
    ensures i < |s|
    ensures forall j :: 0 <= j < |s| ==> s[i] <= s[j]
    ensures forall j :: 0 <= j < i ==> s[j] > s[i]
  {
    if |s| == 1 then 0
    else
      var k := FirstArgMin(s[..|s| - 1]);
      assert forall j :: 0 <= j < |s| - 1 ==> s[..|s| - 1][j] == s[j];
      if s[|s| - 1] < s[k] then |s| - 1 else k
  }

  /** The two properties pin the position down. */
  lemma FirstArgMinUnique(s: seq<real>, i: nat)
    requires i < |s|
    requires forall j :: 0 <= j < |s| ==> s[i] <= s[j]
    requires forall j :: 0 <= j < i ==> s[j] > s[i]
    ensures FirstArgMin(s) == i
  {
  }

  /** Epoch `epoch` gets a star next to a metric when it is the first argmin plus one
      (lines 523 and 534). */
  predicate Starred(epoch: int, values: seq<real>)
    requires |values| > 0
  {
    epoch == FirstArgMin(values) + 1
  }

  /** When the epoch number is the history length, the latest epoch is starred exactly
      when its value is strictly below every earlier one. Since the rule is the same for
      every metric, a star on an accuracy history marks the lowest accuracy so far. */
  lemma StarMarksNewMinimum(values: seq<real>)
    requires |values| > 0
    ensures Starred(|values|, values) <==> forall j :: 0 <= j < |values| - 1 ==> values[|values| - 1] < values[j]
  {
    var last := |values| - 1;
    if forall j :: 0 <= j < last ==> values[last] < values[j] {
      FirstArgMinUnique(values, last);
    }
  }

  /** A validation loss history that `np.argmin` cannot rank: its latest entry is a
      number, so it is printed and ranked, but an earlier epoch recorded `None`, and
      comparing `None` with a float raises `TypeError`. */
  predicate Incomparable(vs: seq<Option<real>>) {
    |vs| > 0 && vs[|vs| - 1].Some? && exists j :: 0 <= j < |vs| - 1 && vs[j].None?
  }

  /** The training lists all hold an entry: the `T:` half of the summary gets through. */
  predicate TrainPrintable(m: Metrics) {
    |m.trainLosses| > 0 && forall k :: k in m.train ==> |m.train[k]| > 0
  }

  /** `on_epoch_end` reads `self.lrs[0]` (the rates recorded at `on_epoch_begin`), then
      the last entry of every list, training phase first. An empty list raises
      `IndexError`. The validation `losses` list comes first in its phase, and ranking it
      with `np.argmin` raises `TypeError` when it is `Incomparable`. Accuracy histories
      only ever hold numbers. */
  function OnEpochEnd(rateCount: nat, m: Metrics): (r: Result<()>)
    ensures r.Ok? <==> (rateCount > 0 && TrainPrintable(m) && |m.validLosses| > 0 &&
                        !Incomparable(m.validLosses) &&
                        (forall k :: k in m.valid ==> |m.valid[k]| > 0))
    ensures r.Err? ==> r.error == IndexOutOfRange || r.error == NoneComparison
    ensures r == Err(NoneComparison) <==> rateCount > 0 && TrainPrintable(m) && Incomparable(m.validLosses)
    ensures rateCount == 0 || |m.trainLosses| == 0 ==> r == Err(IndexOutOfRange)
  {
    if rateCount == 0 || |m.trainLosses| == 0 then Err(IndexOutOfRange)
    else if exists k :: k in m.train && |m.train[k]| == 0 then Err(IndexOutOfRange)
    else if |m.validLosses| == 0 then Err(IndexOutOfRange)
    else if Incomparable(m.validLosses) then Err(NoneComparison)
    else if exists k :: k in m.valid && |m.valid[k]| == 0 then Err(IndexOutOfRange)
    else Ok(())
  }

  /** An epoch without validation numbers followed by one with: the summary of the
      second epoch raises `TypeError`, and so does every later one, since the `None`
      stays in the history. */
  lemma NoneThenNumberRaises(rateCount: nat, m: Metrics, later: seq<Option<real>>)
    requires rateCount > 0 && TrainPrintable(m)
    requires |m.validLosses| > 0 && m.validLosses[|m.validLosses| - 1].None?
    requires |later| > 0 && later[|later| - 1].Some?
    ensures OnEpochEnd(rateCount, m.(validLosses := m.validLosses + later)) == Err(NoneComparison)
  {
    var vs := m.validLosses + later;
    assert vs[|m.validLosses| - 1].None?;
  }
}
