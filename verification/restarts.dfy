/** `SGDRestarts` (lines 699-794): cosine annealing with warm restarts, stepped from
    `on_batch_begin` so that the learning rate changes every batch. Periods are counted
    in epochs (`Tcur`, `Ti`); the batch index only places the rate inside an epoch. */
module Restarts {
  import opened Base
  import opened Optim

  datatype State = State(
    etaMin: real,
    To: int,
    Tmul: int,
    Ti: int,
    Tcur: int,
    restarts: nat,
    lastEpoch: int,
    nBatches: Option<int>,      // the `n_batches` constructor argument
    history: seq<LearningRate>) // the rate of the first group before each batch

  function Pow(b: int, e: nat): int
  {
    if e == 0 then 1 else b * Pow(b, e - 1)
  }

  lemma {:induction false} PowPositive(b: int, e: nat)
    requires b >= 1
    ensures Pow(b, e) >= 1
  {
    if e > 0 {
      PowPositive(b, e - 1);
      assert b * Pow(b, e - 1) >= Pow(b, e - 1);
    }
  }

  /** The period after a restart is the previous one times `Tmul`. */
  lemma NextPeriod(To: int, Tmul: int, k: nat)
    requires To >= 1 && Tmul >= 1
    ensures To * Pow(Tmul, k + 1) == To * Pow(Tmul, k) * Tmul
    ensures To * Pow(Tmul, k + 1) >= 1
  {
    var p := Pow(Tmul, k);
    PowPositive(Tmul, k);
    assert Pow(Tmul, k + 1) == Tmul * p;
    assert To * (Tmul * p) == (To * p) * Tmul;
    assert To * p >= 1 by {
      assert To * p - p == (To - 1) * p;
      assert (To - 1) * p >= 0;
    }
    assert (To * p) * Tmul >= 1 by {
      assert (To * p) * Tmul - To * p == (To * p) * (Tmul - 1);
      assert (To * p) * (Tmul - 1) >= 0;
    }
  }

  /** The schedule's invariant: integer base period and multiplier of at least 1, the
      period is `To * Tmul ** restarts`, and the epoch counter lies inside the period. */
  predicate Valid(s: State) {
    s.To >= 1 && s.Tmul >= 1 && s.Ti == s.To * Pow(s.Tmul, s.restarts) && 0 <= s.Tcur < s.Ti
  }

  /** The states a schedule can reach: the constructor's asserts establish `Valid` and
      every operation keeps it. */
  type Sgdr = s: State | Valid(s) witness State(1.0, 1, 1, 1, 0, 0, -1, None, [])

  /** The constructor: its three asserts, then a first period of length `To`. */
  function New(lastEpoch: int, etaMin: real, To: int, Tmul: int, nBatches: Option<int>): (r: Result<State>)
    ensures r.Ok? <==> etaMin > 0.0 && To > 0 && Tmul > 0
    ensures r.Ok? ==> Valid(r.value) && r.value.Ti == To && r.value.Tcur == 0 && r.value.restarts == 0
    ensures r.Ok? ==> r.value.lastEpoch == lastEpoch && r.value.history == []
  {
    if !(etaMin > 0.0) then Err(AssertionFailed("eta_min > 0"))
    else if !(To > 0) then Err(AssertionFailed("To > 0"))
    else if !(Tmul > 0) then Err(AssertionFailed("Tmul > 0"))
    else Ok(State(etaMin, To, Tmul, To, 0, 0, lastEpoch, nBatches, []))
  }

  /** The `n_batches` property: the constructor argument if given, else the trainer's. */
  function NBatches(s: State, trainerBatches: int): int {
    if s.nBatches.Some? then s.nBatches.value else trainerBatches
  }

  /** `Tcur` moves only on the first call that sees a later epoch than the last one
      (and never on the very first call, when `last_epoch` is still -1). */
  predicate Bumps(s: State, cepoch: int) {
    s.lastEpoch != -1 && cepoch > s.lastEpoch
  }

  /** The counter updates at the top of `get_lr` (lines 743-758). */
  function Advance(s: State, cepoch: int): (r: State)
    ensures r.etaMin == s.etaMin && r.To == s.To && r.Tmul == s.Tmul
    ensures r.nBatches == s.nBatches && r.history == s.history
    ensures r.lastEpoch == if s.lastEpoch == -1 || cepoch > s.lastEpoch then cepoch else s.lastEpoch
    ensures Valid(s) ==> Valid(r)
    ensures Valid(s) ==> (r.restarts == s.restarts + 1 <==> Bumps(s, cepoch) && s.Tcur + 1 == s.Ti)
    ensures Valid(s) ==> r.restarts == s.restarts || r.restarts == s.restarts + 1
    ensures Valid(s) && r.restarts == s.restarts ==>
      r.Ti == s.Ti && r.Tcur == if Bumps(s, cepoch) then s.Tcur + 1 else s.Tcur
    ensures Valid(s) && r.restarts == s.restarts + 1 ==> r.Tcur == 0 && r.Ti == s.Ti * s.Tmul
  {
    var s1 :=
      if s.lastEpoch == -1 then s.(lastEpoch := cepoch)
      else if cepoch > s.lastEpoch then s.(lastEpoch := cepoch, Tcur := s.Tcur + 1)
      else s;
    if s1.Tcur == s1.Ti then
      var r := s1.(Tcur := 0, restarts := s1.restarts + 1, Ti := s1.To * Pow(s1.Tmul, s1.restarts + 1));
      assert Valid(s) ==> r.Ti == s.Ti * s.Tmul && r.Ti >= 1 by {
        if Valid(s) {
          NextPeriod(s.To, s.Tmul, s.restarts);
        }
      }
      r
    else s1
  }

  /** A second call with the same epoch changes nothing: within an epoch only the first
      batch moves the counters. */
  lemma AdvanceIdempotent(s: State, cepoch: int)
    requires Valid(s)
    ensures Advance(Advance(s, cepoch), cepoch) == Advance(s, cepoch)
  {
  }

  /** Where in the period the rate is, as a fraction of a half cosine turn:
      `step = Ti / max(1, Ti*n - 1)`, `x = step * (Tcur*n + cbatch)`, and the cosine
      argument `x * pi / Ti` is `phase * pi`. */
  function Phase(Ti: int, Tcur: int, n: int, cbatch: int): (p: real)
    requires Ti >= 1
    ensures p == (Tcur * n + cbatch) as real / Max(1, Ti * n - 1) as real
  {
    var d := Max(1, Ti * n - 1) as real;
    var step := Ti as real / d;
    var x := step * (Tcur * n + cbatch) as real;
    assert x / Ti as real == (Tcur * n + cbatch) as real / d;
    x / Ti as real
  }

  /** Inside a period and inside an epoch, the phase lies in [0, 1]. */
  lemma PhaseInUnitInterval(Ti: int, Tcur: int, n: int, cbatch: int)
    requires 0 <= Tcur < Ti
    requires 0 <= cbatch < n
    ensures 0.0 <= Phase(Ti, Tcur, n, cbatch) <= 1.0
  {
    var num := Tcur * n + cbatch;
    NumeratorBounds(Ti, Tcur, n, cbatch);
    var d := Max(1, Ti * n - 1);
    assert 0 <= num <= d;
    QuotientInUnitInterval(num, d);
  }

  /** `0 <= Tcur*n + cbatch <= Ti*n - 1` for positions inside the period. */
  lemma NumeratorBounds(Ti: int, Tcur: int, n: int, cbatch: int)
    requires 0 <= Tcur < Ti
    requires 0 <= cbatch < n
    ensures 0 <= Tcur * n + cbatch <= Ti * n - 1
  {
    MulNonNegative(Tcur, n);
    MulNonNegative(Ti - 1 - Tcur, n);
    var k := Ti - 1 - Tcur;
    assert Ti == Tcur + k + 1;
    assert Ti * n == Tcur * n + k * n + n;
  }

  lemma QuotientInUnitInterval(num: int, d: int)
    requires 0 <= num <= d && d >= 1
    ensures 0.0 <= num as real / d as real <= 1.0
  {
    var q := num as real / d as real;
    assert q * d as real == num as real;
    assert (1.0 - q) * d as real == (d - num) as real;
  }

  /** The phase is 0 at the first batch of a period and 1 at its last batch. */
  lemma PhaseAtPeriodEnds(Ti: int, n: int)
    requires Ti >= 1 && n >= 1
    ensures Phase(Ti, 0, n, 0) == 0.0
    ensures Ti * n >= 2 ==> Phase(Ti, Ti - 1, n, n - 1) == 1.0
  {
    assert (Ti - 1) * n + (n - 1) == Ti * n - 1;
  }

  /** `get_lr(lr, cepoch, cbatch)`: advance the counters, then the annealed rate for
      this position between `eta_min` and `lr`. As the comment on lines 760-761 promises,
      the first batch of a period is at phase 0 (rate `lr`) and its last batch at phase 1
      (rate `eta_min`), except that a period of a single batch stays at phase 0. */
  function GetLr(s: State, lr: real, cepoch: int, cbatch: int, trainerBatches: int): (r: (State, LearningRate))
    requires Valid(s)
    ensures r.0 == Advance(s, cepoch) && Valid(r.0)
    ensures r.1 == Annealed(s.etaMin, lr, Phase(r.0.Ti, r.0.Tcur, NBatches(s, trainerBatches), cbatch))
    ensures 0 <= cbatch < NBatches(s, trainerBatches) ==> 0.0 <= r.1.phase <= 1.0
    ensures r.0.Tcur == 0 && cbatch == 0 ==> r.1.phase == 0.0
    ensures var n := NBatches(s, trainerBatches);
      r.0.Tcur == r.0.Ti - 1 && cbatch == n - 1 && r.0.Ti * n >= 2 ==> r.1.phase == 1.0
  {
    var s1 := Advance(s, cepoch);
    var n := NBatches(s1, trainerBatches);
    PhaseLandmarks(s1.Ti, s1.Tcur, n, cbatch);
    (s1, Annealed(s.etaMin, lr, Phase(s1.Ti, s1.Tcur, n, cbatch)))
  }

  /** The phase inside a period: in [0, 1] for a batch of the epoch, 0 at the period's
      first batch, and 1 at its last unless the period is a single batch. */
  lemma PhaseLandmarks(Ti: int, Tcur: int, n: int, cbatch: int)
    requires 0 <= Tcur < Ti
    ensures 0 <= cbatch < n ==> 0.0 <= Phase(Ti, Tcur, n, cbatch) <= 1.0
    ensures Tcur == 0 && cbatch == 0 ==> Phase(Ti, Tcur, n, cbatch) == 0.0
    ensures Tcur == Ti - 1 && cbatch == n - 1 && Ti * n >= 2 ==> Phase(Ti, Tcur, n, cbatch) == 1.0
  {
    if 0 <= cbatch < n {
      PhaseInUnitInterval(Ti, Tcur, n, cbatch);
    }
    if n >= 1 {
      PhaseAtPeriodEnds(Ti, n);
    }
  }

  /** With one period of one batch, the comment's two promises collide and the first
      one wins: that batch is at phase 0, so the rate never reaches `eta_min`. */
  lemma SingleBatchPeriod(s: State, lr: real, cepoch: int, trainerBatches: int)
    requires Valid(s) && Advance(s, cepoch).Ti == 1 && NBatches(s, trainerBatches) == 1
    ensures GetLr(s, lr, cepoch, 0, trainerBatches).1.phase == 0.0
    ensures GetLr(s, lr, cepoch, 0, trainerBatches).0.Tcur == GetLr(s, lr, cepoch, 0, trainerBatches).0.Ti - 1
  {
  }

  /** The loop of `step` over `optimizer.param_groups`: each group gets `get_lr` of its
      own `initial_lr`, and the state threads through the calls. */
  function StepGroups(s: State, groups: seq<Group>, epoch: int, batch: int, trainerBatches: int): (r: (State, seq<Group>))
    requires Valid(s)
    ensures Valid(r.0)
    ensures |r.1| == |groups|
    ensures |groups| == 0 ==> r.0 == s
    ensures |groups| > 0 ==> r.0 == Advance(s, epoch)
    ensures forall i :: 0 <= i < |groups| ==> r.1[i] == Group(
      Annealed(s.etaMin, groups[i].initialLr,
        Phase(Advance(s, epoch).Ti, Advance(s, epoch).Tcur, NBatches(s, trainerBatches), batch)),
      groups[i].initialLr)
    decreases |groups|
  {
    if |groups| == 0 then (s, [])
    else
      var (s1, lr) := GetLr(s, groups[0].initialLr, epoch, batch, trainerBatches);
      var (s2, rest) := StepGroups(s1, groups[1..], epoch, batch, trainerBatches);
      AdvanceIdempotent(s, epoch);
      (s2, [groups[0].(lr := lr)] + rest)
  }

  /** `step(epoch, batch)`: without a batch index it returns at once; a missing epoch
      means the one after `last_epoch`. Afterwards `last_epoch` is the epoch used. */
  function Step(s: State, groups: seq<Group>, epoch: Option<int>, batch: Option<int>, trainerBatches: int): (r: (State, seq<Group>))
    requires Valid(s)
    ensures Valid(r.0)
    ensures batch.None? ==> r == (s, groups)
    ensures batch.Some? ==> r.0.lastEpoch == (if epoch.Some? then epoch.value else s.lastEpoch + 1)
    ensures var e := if epoch.Some? then epoch.value else s.lastEpoch + 1;
      batch.Some? ==>
        |r.1| == |groups| &&
        (forall i :: 0 <= i < |groups| ==> r.1[i] == Group(
           Annealed(s.etaMin, groups[i].initialLr,
             Phase(Advance(s, e).Ti, Advance(s, e).Tcur, NBatches(s, trainerBatches), batch.value)),
           groups[i].initialLr)) &&
        r.0 == (if |groups| > 0 then Advance(s, e) else s).(lastEpoch := e)
  {
    if batch.None? then (s, groups)
    else
      var e := if epoch.Some? then epoch.value else s.lastEpoch + 1;
      var (s1, gs) := StepGroups(s, groups, e, batch.value, trainerBatches);
      (s1.(lastEpoch := e), gs)
  }

  /** `on_train_begin`: take over the trainer's `last_epoch`. */
  function OnTrainBegin(s: State, trainerLastEpoch: int): (r: State)
    ensures r.lastEpoch == trainerLastEpoch
    ensures Valid(s) ==> Valid(r)
  {
    s.(lastEpoch := trainerLastEpoch)
  }

  /** `on_batch_begin(cepoch, cbatch)`: record the first group's current rate, then
      `step(cepoch, cbatch)`. With no parameter group the record raises `IndexError`. */
  function OnBatchBegin(s: State, groups: seq<Group>, cepoch: int, cbatch: int, trainerBatches: int): (r: Result<(State, seq<Group>)>)
    requires Valid(s)
    ensures r.Ok? <==> |groups| > 0
    ensures r.Ok? ==> Valid(r.value.0) && |r.value.1| == |groups|
    ensures r.Ok? ==> r.value.0.history == s.history + [groups[0].lr]
    ensures r.Ok? ==> r.value.0.lastEpoch == cepoch
    ensures r.Ok? ==> r.value.0.Tcur == Advance(s, cepoch).Tcur && r.value.0.Ti == Advance(s, cepoch).Ti
    ensures r.Ok? ==> r.value.0.restarts == Advance(s, cepoch).restarts
    ensures r.Ok? ==> forall i :: 0 <= i < |groups| ==>
      (r.value.1[i].initialLr == groups[i].initialLr &&
       r.value.1[i].lr == Annealed(s.etaMin, groups[i].initialLr,
         Phase(Advance(s, cepoch).Ti, Advance(s, cepoch).Tcur, NBatches(s, trainerBatches), cbatch)))
  {
    if |groups| == 0 then Err(IndexOutOfRange)
    else
      var s1 := s.(history := s.history + [groups[0].lr]);
      assert Advance(s1, cepoch).Tcur == Advance(s, cepoch).Tcur;
      Ok(Step(s1, groups, Some(cepoch), Some(cbatch), trainerBatches))
  }

  /** Every rate the schedule writes is between `eta_min` and the group's initial rate,
      whatever cosine stands behind it, as long as the batch index is inside the epoch. */
  lemma RateBetweenEtaMinAndInitial(s: State, groups: seq<Group>, cepoch: int, cbatch: int, trainerBatches: int, cosPi: real -> real)
    requires Valid(s)
    requires CosineRange(cosPi)
    requires 0 <= cbatch < NBatches(s, trainerBatches)
    requires OnBatchBegin(s, groups, cepoch, cbatch, trainerBatches).Ok?
    ensures forall i :: 0 <= i < |groups| && s.etaMin <= groups[i].initialLr ==>
      var lr := OnBatchBegin(s, groups, cepoch, cbatch, trainerBatches).value.1[i].lr;
      s.etaMin <= AnnealedValue(lr.etaMin, lr.initial, lr.phase, cosPi) <= groups[i].initialLr
  {
    var a := Advance(s, cepoch);
    PhaseInUnitInterval(a.Ti, a.Tcur, NBatches(s, trainerBatches), cbatch);
    forall i | 0 <= i < |groups| && s.etaMin <= groups[i].initialLr
      ensures var lr := OnBatchBegin(s, groups, cepoch, cbatch, trainerBatches).value.1[i].lr;
        s.etaMin <= AnnealedValue(lr.etaMin, lr.initial, lr.phase, cosPi) <= groups[i].initialLr
    {
      var p := Phase(a.Ti, a.Tcur, NBatches(s, trainerBatches), cbatch);
      AnnealedBetween(s.etaMin, groups[i].initialLr, p, cosPi);
    }
  }

  /** The counters after one epoch per call, epochs `epoch, epoch+1, ...`: every batch
      of an epoch after the first leaves them alone (`AdvanceIdempotent`). */
  function AfterEpochs(s: State, epoch: int, count: nat): State
    decreases count
  {
    if count == 0 then s else AfterEpochs(Advance(s, epoch), epoch + 1, count - 1)
  }

  lemma DivModStep(x: nat, d: int)
    requires d >= 1
    ensures x % d + 1 == d ==> (x + 1) % d == 0 && (x + 1) / d == x / d + 1
    ensures x % d + 1 < d ==> (x + 1) % d == x % d + 1 && (x + 1) / d == x / d
  {
    var q, r := x / d, x % d;
    if r + 1 == d {
      DivModUnique(x + 1, d, q + 1, 0);
    } else {
      DivModUnique(x + 1, d, q, r + 1);
    }
  }

  /** With `Tmul = 1` the period never changes and, counting from a period start, a
      restart happens exactly every `To` epochs: after `c` more epochs `Tcur` is the
      elapsed count modulo `To` and `restarts` grew by the elapsed count divided by `To`. */
  lemma {:induction false} ConstantPeriodRestarts(s: State, epoch: int, count: nat, done: nat)
    requires Valid(s) && s.Tmul == 1
    requires 0 <= s.lastEpoch < epoch
    requires s.Tcur == done % s.To
    ensures AfterEpochs(s, epoch, count).Ti == s.To
    ensures AfterEpochs(s, epoch, count).Tcur == (done + count) % s.To
    ensures AfterEpochs(s, epoch, count).restarts == s.restarts + (done + count) / s.To - done / s.To
    ensures AfterEpochs(s, epoch, count).lastEpoch == if count == 0 then s.lastEpoch else epoch + count - 1
    decreases count
  {
    PowOne(s.restarts);
    if count > 0 {
      var a := Advance(s, epoch);
      assert Bumps(s, epoch);
      DivModStep(done, s.To);
      PowOne(a.restarts);
      ConstantPeriodRestarts(a, epoch + 1, count - 1, done + 1);
      assert done + 1 + (count - 1) == done + count;
    }
  }

  lemma {:induction false} PowOne(e: nat)
    ensures Pow(1, e) == 1
  {
    if e > 0 {
      PowOne(e - 1);
    }
  }

  /** With `To = 4`, `Tmul = 1`, training from `last_epoch = L`: the
      first batch already finds `Tcur = 1`, so the first restart comes at epoch `L + 4`
      and the next at `L + 8`; the period stays 4. With `Tmul = 2` the period doubles
      at each restart. */
  lemma RestartEveryFourEpochs(s: State, L: nat)
    requires Valid(s) && s.To == 4 && s.Tcur == 0 && s.restarts == 0 && s.lastEpoch == L
    ensures s.Tmul == 1 ==> Advance(s, L + 1).Tcur == 1
    ensures s.Tmul == 1 ==> AfterEpochs(s, L + 1, 3).restarts == 0
    ensures s.Tmul == 1 ==> AfterEpochs(s, L + 1, 4).restarts == 1 && AfterEpochs(s, L + 1, 4).Tcur == 0
    ensures s.Tmul == 1 ==> AfterEpochs(s, L + 1, 8).restarts == 2 && AfterEpochs(s, L + 1, 8).Ti == 4
    ensures s.Tmul == 2 ==> AfterEpochs(s, L + 1, 4).Ti == 8
  {
    if s.Tmul == 1 {
      ConstantPeriodRestarts(s, L + 1, 3, 0);
      ConstantPeriodRestarts(s, L + 1, 4, 0);
      ConstantPeriodRestarts(s, L + 1, 8, 0);
    }
    if s.Tmul == 2 {
      var s1 := Advance(s, L + 1);
      var s2 := Advance(s1, L + 2);
      var s3 := Advance(s2, L + 3);
      var s4 := Advance(s3, L + 4);
      assert s4 == AfterEpochs(s, L + 1, 4);
      assert s4.Ti == 8;
    }
  }
}
