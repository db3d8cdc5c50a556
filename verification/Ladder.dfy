/** The pyramiding ladder: fills, their average cost, and the risk they carry against a stop line.

    Every simulator that adds to a position keeps a list of fills. This module says what the
    fills' average, open risk and peak risk are, and proves that fills spaced at least one rung
    apart never carry more risk than the theoretical peak of the size schedule. */
module Ladder {
  import opened Basics

  datatype Fill = Fill(bar: int, price: real, size: real)

  function Qty(f: seq<Fill>): real {
    if f == [] then 0.0 else Qty(f[..|f| - 1]) + f[|f| - 1].size
  }

  function Cost(f: seq<Fill>): real {
    if f == [] then 0.0 else Cost(f[..|f| - 1]) + f[|f| - 1].price * f[|f| - 1].size
  }

  function Avg(f: seq<Fill>): real
    requires Qty(f) != 0.0
  {
    Cost(f) / Qty(f)
  }

  /** Money lost if the whole position closes at `line`. */
  function RiskTo(f: seq<Fill>, line: real): real {
    if f == [] then 0.0
    else RiskTo(f[..|f| - 1], line) + FillLoss(f[|f| - 1], line)
  }

  /** Money made if the whole position closes at `price`. */
  function Gain(f: seq<Fill>, price: real): real {
    if f == [] then 0.0
    else Gain(f[..|f| - 1], price) + f[|f| - 1].size * (price - f[|f| - 1].price)
  }

  function Last(f: seq<Fill>): real
    requires f != []
  {
    f[|f| - 1].price
  }

  /** The set's own stop: `stopAtr` ATRs under the last fill. */
  function SetLine(f: seq<Fill>, n: real, stopAtr: real): real
    requires f != []
  {
    Last(f) - stopAtr * n
  }

  /** Open risk of the position in units of the initial risk. */
  function RiskR(f: seq<Fill>, n: real, stopAtr: real): real
    requires f != [] && stopAtr * n != 0.0
  {
    RiskTo(f, SetLine(f, n, stopAtr)) / (stopAtr * n)
  }

  /** Result of closing at `price`, in the same units. */
  function VirtualR(f: seq<Fill>, price: real, n: real, stopAtr: real): real
    requires stopAtr * n != 0.0
  {
    Gain(f, price) / (stopAtr * n)
  }

  /** The largest open risk over the history of the position: one value after each fill. */
  function PeakRisk(f: seq<Fill>, n: real, stopAtr: real): real
    requires f != [] && stopAtr * n != 0.0
  {
    if |f| == 1 then RiskR(f, n, stopAtr)
    else MaxR(PeakRisk(f[..|f| - 1], n, stopAtr), RiskR(f, n, stopAtr))
  }

  predicate Schedule(sizes: seq<real>) {
    |sizes| > 0 && sizes[0] > 0.0 && forall i :: 0 <= i < |sizes| ==> sizes[i] >= 0.0
  }

  /** The fills follow the size schedule and stand at least `gap` apart. */
  ghost predicate OnLadder(f: seq<Fill>, sizes: seq<real>, gap: real) {
    && 0 < |f| <= |sizes|
    && (forall i :: 0 <= i < |f| ==> f[i].size == sizes[i])
    && (forall i :: 0 < i < |f| ==> f[i].price >= f[i - 1].price + gap)
  }

  /** Every fill sits exactly on its rung. */
  ghost predicate OnRungs(f: seq<Fill>, gap: real) {
    forall i :: 0 < i < |f| ==> f[i].price == f[i - 1].price + gap
  }

  // ---- averages --------------------------------------------------------------------------

  lemma {:induction false} LadderQty(f: seq<Fill>, sizes: seq<real>, gap: real)
    requires Schedule(sizes) && OnLadder(f, sizes, gap)
    ensures Qty(f) >= sizes[0] > 0.0
  {
    if |f| > 1 { LadderQty(f[..|f| - 1], sizes, gap); } else { assert Qty(f[..0]) == 0.0; }
  }

  lemma AddBetween(lo: real, hi: real, q: real, c: real, size: real, cost: real)
    requires lo * q <= c <= hi * q && lo * size <= cost <= hi * size
    ensures lo * (q + size) <= c + cost <= hi * (q + size)
  {
  }

  lemma {:induction false} CostBetween(f: seq<Fill>, lo: real, hi: real)
    requires forall i :: 0 <= i < |f| ==> f[i].size >= 0.0 && lo <= f[i].price <= hi
    ensures Qty(f) >= 0.0 && lo * Qty(f) <= Cost(f) <= hi * Qty(f)
  {
    if f != [] {
      var x, pre := f[|f| - 1], f[..|f| - 1];
      CostBetween(pre, lo, hi);
      MulMono(x.size, lo, x.price);
      MulMono(x.size, x.price, hi);
      AddBetween(lo, hi, Qty(pre), Cost(pre), x.size, x.price * x.size);
    }
  }

  lemma QuotientBetween(c: real, q: real, lo: real, hi: real)
    requires q > 0.0 && lo * q <= c <= hi * q
    ensures lo <= c / q <= hi
  {
    DivMono(lo * q, c, q);
    DivMono(c, hi * q, q);
    assert lo * q / q == lo && hi * q / q == hi;
  }

  lemma AvgBetween(f: seq<Fill>, lo: real, hi: real)
    requires Qty(f) > 0.0
    requires forall i :: 0 <= i < |f| ==> f[i].size >= 0.0 && lo <= f[i].price <= hi
    ensures lo <= Avg(f) <= hi
  {
    CostBetween(f, lo, hi);
    QuotientBetween(Cost(f), Qty(f), lo, hi);
  }

  lemma SingleFillAvg(f: seq<Fill>)
    requires |f| == 1 && f[0].size > 0.0
    ensures Qty(f) == f[0].size && Avg(f) == f[0].price
  {
    assert Qty(f) == Qty(f[..0]) + f[0].size;
    AvgBetween(f, f[0].price, f[0].price);
  }

  lemma {:induction false} SpacedPrices(f: seq<Fill>, sizes: seq<real>, gap: real, i: int, j: int)
    requires OnLadder(f, sizes, gap) && 0 <= i <= j < |f|
    ensures f[j].price >= f[i].price + (j - i) as real * gap
    decreases j
  {
    if i < j {
      SpacedPrices(f, sizes, gap, i, j - 1);
      assert (j - i) as real == (j - 1 - i) as real + 1.0;
    }
  }

  lemma {:induction false} PricesRise(f: seq<Fill>, sizes: seq<real>, gap: real, i: int, j: int)
    requires OnLadder(f, sizes, gap) && gap >= 0.0 && 0 <= i <= j < |f|
    ensures f[i].price <= f[j].price
    decreases j
  {
    if i < j { PricesRise(f, sizes, gap, i, j - 1); }
  }

  /** The average stays between the entry price and the last fill. */
  lemma LadderAvg(f: seq<Fill>, sizes: seq<real>, gap: real)
    requires Schedule(sizes) && OnLadder(f, sizes, gap) && gap >= 0.0
    ensures Qty(f) > 0.0 && f[0].price <= Avg(f) <= Last(f)
  {
    LadderQty(f, sizes, gap);
    forall i | 0 <= i < |f| ensures f[i].size >= 0.0 && f[0].price <= f[i].price <= Last(f) {
      PricesRise(f, sizes, gap, 0, i);
      PricesRise(f, sizes, gap, i, |f| - 1);
    }
    AvgBetween(f, f[0].price, Last(f));
  }

  // ---- risk ------------------------------------------------------------------------------

  lemma {:induction false} GainIsMinusRisk(f: seq<Fill>, price: real)
    ensures Gain(f, price) == -RiskTo(f, price)
  {
    if f != [] { GainIsMinusRisk(f[..|f| - 1], price); }
  }

  lemma {:induction false} RiskFallsAsLineRises(f: seq<Fill>, lo: real, hi: real)
    requires lo <= hi && forall i :: 0 <= i < |f| ==> f[i].size >= 0.0
    ensures RiskTo(f, hi) <= RiskTo(f, lo)
  {
    if f != [] {
      RiskFallsAsLineRises(f[..|f| - 1], lo, hi);
      MulMono(f[|f| - 1].size, f[|f| - 1].price - hi, f[|f| - 1].price - lo);
    }
  }

  function FillLoss(x: Fill, line: real): real { x.size * (x.price - line) }

  function RungLoss(step: real, size: real, stop: real, i: nat): real { size * (i as real * step - stop) }

  lemma Distribute(n: real, a: real, b: real)
    ensures n * (a + b) == n * a + n * b
  {
  }

  lemma Commute(a: real, b: real, c: real)
    ensures a * (b * c) == b * (a * c)
  {
  }

  /** Risk, in ATRs, of the first `m` sizes filled exactly on their rungs, against `stop` (in ATRs
      from the entry). */
  function RungSum(step: real, sizes: seq<real>, stop: real, m: nat): real
    requires m <= |sizes|
  {
    if m == 0 then 0.0
    else RungSum(step, sizes, stop, m - 1) + RungLoss(step, sizes[m - 1], stop, m - 1)
  }

  /** The stop that stands once `k` rungs are filled, in ATRs from the entry. */
  function RungStop(step: real, stopAtr: real, k: nat): real
    requires k > 0
  {
    if k == 1 then -stopAtr else (k - 1) as real * step - stopAtr
  }

  function RungRisk(step: real, sizes: seq<real>, stopAtr: real, k: nat): real
    requires 0 < k <= |sizes|
  {
    RungSum(step, sizes, RungStop(step, stopAtr, k), k)
  }

  function PeakUpTo(step: real, sizes: seq<real>, stopAtr: real, k: nat): real
    requires k <= |sizes|
  {
    if k == 0 then 0.0
    else MaxR(PeakUpTo(step, sizes, stopAtr, k - 1), RungRisk(step, sizes, stopAtr, k))
  }

  function TheoPeak(step: real, sizes: seq<real>, stopAtr: real): real
    requires stopAtr != 0.0
  {
    PeakUpTo(step, sizes, stopAtr, |sizes|) / stopAtr
  }

  lemma {:induction false} PeakUpToIsMax(step: real, sizes: seq<real>, stopAtr: real, k: nat)
    requires k <= |sizes|
    ensures PeakUpTo(step, sizes, stopAtr, k) >= 0.0
    ensures forall m :: 0 < m <= k ==> RungRisk(step, sizes, stopAtr, m) <= PeakUpTo(step, sizes, stopAtr, k)
    ensures PeakUpTo(step, sizes, stopAtr, k) == 0.0
         || exists m :: 0 < m <= k && RungRisk(step, sizes, stopAtr, m) == PeakUpTo(step, sizes, stopAtr, k)
  {
    if k > 0 { PeakUpToIsMax(step, sizes, stopAtr, k - 1); }
  }

  /** The theoretical peak is the largest rung risk, or zero if none is positive. */
  lemma TheoPeakIsLargest(step: real, sizes: seq<real>, stopAtr: real)
    requires stopAtr > 0.0
    ensures TheoPeak(step, sizes, stopAtr) >= 0.0
    ensures forall k :: 0 < k <= |sizes| ==>
              RungRisk(step, sizes, stopAtr, k) / stopAtr <= TheoPeak(step, sizes, stopAtr)
    ensures TheoPeak(step, sizes, stopAtr) == 0.0
         || exists k :: 0 < k <= |sizes|
              && TheoPeak(step, sizes, stopAtr) == RungRisk(step, sizes, stopAtr, k) / stopAtr
  {
    PeakUpToIsMax(step, sizes, stopAtr, |sizes|);
    forall k | 0 < k <= |sizes| ensures RungRisk(step, sizes, stopAtr, k) / stopAtr <= TheoPeak(step, sizes, stopAtr) {
      DivMono(RungRisk(step, sizes, stopAtr, k), PeakUpTo(step, sizes, stopAtr, |sizes|), stopAtr);
    }
  }

  /** Risk of the first `k` rungs against `stop`. */
  method AddUpRungs(step: real, sizes: seq<real>, stop: real, k: nat) returns (sum: real)
    requires k <= |sizes|
    ensures sum == RungSum(step, sizes, stop, k)
  {
    sum := 0.0;
    for j := 0 to k
      invariant sum == RungSum(step, sizes, stop, j)
    {
      sum := sum + RungLoss(step, sizes[j], stop, j);
    }
  }

  /** The running maximum of the rung risks. */
  method ComputeTheoPeak(step: real, sizes: seq<real>, stopAtr: real) returns (r: real)
    requires stopAtr > 0.0
    ensures r == TheoPeak(step, sizes, stopAtr)
  {
    var pk := 0.0;
    for k := 1 to |sizes| + 1
      invariant pk == PeakUpTo(step, sizes, stopAtr, k - 1)
    {
      var sum := AddUpRungs(step, sizes, RungStop(step, stopAtr, k), k);
      pk := MaxR(pk, sum);
    }
    r := pk / stopAtr;
  }

  /** Scaled by the ATR, the fills lose no more than the rungs would. */
  lemma {:induction false} RiskWithinRungs(f: seq<Fill>, sizes: seq<real>, step: real, n: real, line: real, stop: real)
    requires |f| <= |sizes|
    requires forall i :: 0 <= i < |f| ==> FillLoss(f[i], line) <= n * RungLoss(step, sizes[i], stop, i)
    ensures RiskTo(f, line) <= n * RungSum(step, sizes, stop, |f|)
  {
    var m := |f|;
    if m > 0 {
      RiskWithinRungs(f[..m - 1], sizes, step, n, line, stop);
      Distribute(n, RungSum(step, sizes, stop, m - 1), RungLoss(step, sizes[m - 1], stop, m - 1));
    }
  }

  lemma {:induction false} RiskOnRungs(f: seq<Fill>, sizes: seq<real>, step: real, n: real, line: real, stop: real)
    requires |f| <= |sizes|
    requires forall i :: 0 <= i < |f| ==> FillLoss(f[i], line) == n * RungLoss(step, sizes[i], stop, i)
    ensures RiskTo(f, line) == n * RungSum(step, sizes, stop, |f|)
  {
    var m := |f|;
    if m > 0 {
      RiskOnRungs(f[..m - 1], sizes, step, n, line, stop);
      Distribute(n, RungSum(step, sizes, stop, m - 1), RungLoss(step, sizes[m - 1], stop, m - 1));
    }
  }

  lemma RungTerm(f: seq<Fill>, sizes: seq<real>, step: real, n: real, stopAtr: real, i: nat)
    requires Schedule(sizes) && OnLadder(f, sizes, step * n) && i < |f|
    ensures FillLoss(f[i], SetLine(f, n, stopAtr)) <= n * RungLoss(step, sizes[i], RungStop(step, stopAtr, |f|), i)
    ensures OnRungs(f, step * n) ==>
              FillLoss(f[i], SetLine(f, n, stopAtr)) == n * RungLoss(step, sizes[i], RungStop(step, stopAtr, |f|), i)
  {
    var last := |f| - 1;
    SpacedPrices(f, sizes, step * n, i, last);
    var d := (last - i) as real;
    var rung := i as real * step - RungStop(step, stopAtr, |f|);
    assert rung == stopAtr - d * step by {
      assert RungStop(step, stopAtr, |f|) == last as real * step - stopAtr;
      assert d == last as real - i as real;
    }
    var x := f[i].price - SetLine(f, n, stopAtr);
    assert n * rung == stopAtr * n - d * (step * n);
    MulMono(sizes[i], x, n * rung);
    Commute(sizes[i], n, rung);
    if OnRungs(f, step * n) {
      ExactPrices(f, step * n, i, last);
    }
  }

  lemma {:induction false} ExactPrices(f: seq<Fill>, gap: real, i: int, j: int)
    requires OnRungs(f, gap) && 0 <= i <= j < |f|
    ensures f[j].price == f[i].price + (j - i) as real * gap
    decreases j
  {
    if i < j {
      ExactPrices(f, gap, i, j - 1);
      assert (j - i) as real == (j - 1 - i) as real + 1.0;
    }
  }

  lemma ScaleOut(x: real, n: real, b: real, s: real)
    requires n > 0.0 && s > 0.0 && x <= n * b
    ensures s * n > 0.0 && x / (s * n) <= b / s
    ensures x == n * b ==> x / (s * n) == b / s
  {
    var q := b / s;
    assert s * n > 0.0;
    assert q * s == b;
    assert q * (s * n) == n * b;
    assert (n * b) / (s * n) == q;
    DivMono(x, n * b, s * n);
  }

  lemma {:induction false} LossWithinRung(f: seq<Fill>, sizes: seq<real>, step: real, n: real, stopAtr: real)
    requires Schedule(sizes) && OnLadder(f, sizes, step * n)
    ensures RiskTo(f, SetLine(f, n, stopAtr)) <= n * RungRisk(step, sizes, stopAtr, |f|)
  {
    var line, stop := SetLine(f, n, stopAtr), RungStop(step, stopAtr, |f|);
    forall i | 0 <= i < |f| ensures FillLoss(f[i], line) <= n * RungLoss(step, sizes[i], stop, i) {
      RungTerm(f, sizes, step, n, stopAtr, i);
    }
    RiskWithinRungs(f, sizes, step, n, line, stop);
  }

  lemma {:induction false} LossOnRung(f: seq<Fill>, sizes: seq<real>, step: real, n: real, stopAtr: real)
    requires Schedule(sizes) && OnLadder(f, sizes, step * n) && OnRungs(f, step * n)
    ensures RiskTo(f, SetLine(f, n, stopAtr)) == n * RungRisk(step, sizes, stopAtr, |f|)
  {
    var line, stop := SetLine(f, n, stopAtr), RungStop(step, stopAtr, |f|);
    forall i | 0 <= i < |f| ensures FillLoss(f[i], line) == n * RungLoss(step, sizes[i], stop, i) {
      RungTerm(f, sizes, step, n, stopAtr, i);
    }
    RiskOnRungs(f, sizes, step, n, line, stop);
  }

  /** Open risk after any fill is at most that rung's risk; equal when every fill is on its rung. */
  lemma RiskWithinRung(f: seq<Fill>, sizes: seq<real>, step: real, n: real, stopAtr: real)
    requires Schedule(sizes) && OnLadder(f, sizes, step * n) && n > 0.0 && stopAtr > 0.0
    ensures stopAtr * n > 0.0
    ensures RiskR(f, n, stopAtr) <= RungRisk(step, sizes, stopAtr, |f|) / stopAtr
    ensures OnRungs(f, step * n) ==> RiskR(f, n, stopAtr) == RungRisk(step, sizes, stopAtr, |f|) / stopAtr
  {
    LossWithinRung(f, sizes, step, n, stopAtr);
    if OnRungs(f, step * n) { LossOnRung(f, sizes, step, n, stopAtr); }
    ScaleOut(RiskTo(f, SetLine(f, n, stopAtr)), n, RungRisk(step, sizes, stopAtr, |f|), stopAtr);
  }

  /** Observed peak risk never exceeds the theoretical peak, even when fills gap above their rung;
      with all sizes filled exactly on their rungs the two are equal. */
  lemma {:induction false} PeakWithinTheory(f: seq<Fill>, sizes: seq<real>, step: real, n: real, stopAtr: real)
    requires Schedule(sizes) && OnLadder(f, sizes, step * n) && n > 0.0 && stopAtr > 0.0
    ensures stopAtr * n > 0.0
    ensures PeakRisk(f, n, stopAtr) <= PeakUpTo(step, sizes, stopAtr, |f|) / stopAtr <= TheoPeak(step, sizes, stopAtr)
    ensures OnRungs(f, step * n) ==> PeakRisk(f, n, stopAtr) == PeakUpTo(step, sizes, stopAtr, |f|) / stopAtr
    ensures OnRungs(f, step * n) && |f| == |sizes| ==> PeakRisk(f, n, stopAtr) == TheoPeak(step, sizes, stopAtr)
  {
    var k := |f|;
    RiskWithinRung(f, sizes, step, n, stopAtr);
    PeakGrows(step, sizes, stopAtr, k, |sizes|);
    DivMono(PeakUpTo(step, sizes, stopAtr, k), PeakUpTo(step, sizes, stopAtr, |sizes|), stopAtr);
    DivMono(RungRisk(step, sizes, stopAtr, k), PeakUpTo(step, sizes, stopAtr, k), stopAtr);
    if k > 1 {
      PeakWithinTheory(f[..k - 1], sizes, step, n, stopAtr);
      DivMono(PeakUpTo(step, sizes, stopAtr, k - 1), PeakUpTo(step, sizes, stopAtr, k), stopAtr);
    } else {
      FirstRungIsPeak(step, sizes, stopAtr);
    }
  }

  /** The bound alone, for a position's gap. */
  lemma PeakBounded(f: seq<Fill>, sizes: seq<real>, step: real, n: real, stopAtr: real, gap: real)
    requires gap == step * n && Schedule(sizes) && OnLadder(f, sizes, gap) && n > 0.0 && stopAtr > 0.0
    ensures stopAtr * n > 0.0
    ensures PeakRisk(f, n, stopAtr) <= TheoPeak(step, sizes, stopAtr)
    ensures OnRungs(f, gap) && |f| == |sizes| ==> PeakRisk(f, n, stopAtr) == TheoPeak(step, sizes, stopAtr)
  {
    PeakWithinTheory(f, sizes, step, n, stopAtr);
  }

  lemma {:induction false} PeakGrows(step: real, sizes: seq<real>, stopAtr: real, k: nat, m: nat)
    requires k <= m <= |sizes|
    ensures PeakUpTo(step, sizes, stopAtr, k) <= PeakUpTo(step, sizes, stopAtr, m)
    decreases m
  {
    if k < m { PeakGrows(step, sizes, stopAtr, k, m - 1); }
  }

  lemma FirstRungIsPeak(step: real, sizes: seq<real>, stopAtr: real)
    requires Schedule(sizes) && stopAtr > 0.0
    ensures PeakUpTo(step, sizes, stopAtr, 1) == RungRisk(step, sizes, stopAtr, 1)
  {
    assert RungSum(step, sizes, -stopAtr, 0) == 0.0;
    MulMono(sizes[0], 0.0, stopAtr);
    assert RungRisk(step, sizes, stopAtr, 1) == sizes[0] * (0.0 * step + stopAtr);
  }

  lemma LossRatio(gain: real, risk: real, r: real)
    requires r > 0.0 && -gain <= risk
    ensures gain / r >= -(risk / r)
  {
    DivMono(-gain, risk, r);
    assert (-gain) / r == -(gain / r);
  }

  /** Closing at or above the set's stop line loses no more than the theoretical peak. */
  lemma LossWithinTheory(f: seq<Fill>, sizes: seq<real>, step: real, n: real, stopAtr: real, price: real)
    requires Schedule(sizes) && OnLadder(f, sizes, step * n) && n > 0.0 && stopAtr > 0.0
    requires price >= SetLine(f, n, stopAtr)
    ensures stopAtr * n > 0.0
    ensures VirtualR(f, price, n, stopAtr) >= -TheoPeak(step, sizes, stopAtr)
  {
    PeakWithinTheory(f, sizes, step, n, stopAtr);
    GainIsMinusRisk(f, price);
    RiskFallsAsLineRises(f, SetLine(f, n, stopAtr), price);
    LossRatio(Gain(f, price), RiskTo(f, SetLine(f, n, stopAtr)), stopAtr * n);
    assert RiskR(f, n, stopAtr) <= PeakRisk(f, n, stopAtr);
  }

  /** Appending one more fill keeps the ladder. */
  lemma LadderExtends(f: seq<Fill>, sizes: seq<real>, gap: real, x: Fill)
    requires OnLadder(f, sizes, gap) && |f| < |sizes|
    requires x.size == sizes[|f|] && x.price >= Last(f) + gap
    ensures OnLadder(f + [x], sizes, gap)
  {
  }
}
