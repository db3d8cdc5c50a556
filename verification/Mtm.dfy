/** Drawdown of the sleeve two ways: profit booked at each exit, and positions marked to market each
    day. Both book the same total. */
module Mtm {
  import opened Ordering
  import opened Trades

  /** Bars of one ticker: closes and their calendar indices. */
  datatype Bars = Bars(c: seq<real>, ci: seq<int>)

  /** The trade's bars exist, its exit bar is not before its entry bar, and all days are on the calendar. */
  ghost predicate Priced(t: Trade, data: map<string, Bars>, ncal: nat) {
    && t.rw != 0.0 && t.ticker in data
    && 0 <= t.j + 1 <= t.k < |data[t.ticker].c| == |data[t.ticker].ci|
    && forall i :: t.j + 1 <= i <= t.k ==> 0 <= data[t.ticker].ci[i] < ncal
  }

  /** Net result in R: the price change less costs, over the risk width. */
  function RNet(t: Trade): real
    requires t.rw != 0.0
  {
    (t.exitPx - t.e - t.cost * t.e) / t.rw
  }

  function Pnl(t: Trade): real
    requires t.rw != 0.0
  {
    RNet(t) * t.f * t.m * 2.0 * RISK_PCT
  }

  function TotalPnl(ts: seq<Trade>): real
    requires forall t :: t in ts ==> t.rw != 0.0
  {
    if ts == [] then 0.0
    else
      assert forall t :: t in ts[..|ts| - 1] ==> t in ts;
      TotalPnl(ts[..|ts| - 1]) + Pnl(ts[|ts| - 1])
  }

  function Sum(s: seq<real>): real {
    if s == [] then 0.0 else Sum(s[..|s| - 1]) + s[|s| - 1]
  }

  lemma {:induction false} SumOfUpdate(s: seq<real>, i: nat, x: real)
    requires i < |s|
    ensures Sum(s[i := s[i] + x]) == Sum(s) + x
  {
    var t := s[i := s[i] + x];
    var n := |s| - 1;
    if i == n {
      assert t[..n] == s[..n];
    } else {
      SumOfUpdate(s[..n], i, x);
      assert t[..n] == s[..n][i := s[..n][i] + x];
    }
  }

  lemma {:induction false} SumOfZeros(n: nat)
    ensures Sum(seq(n, _ => 0.0)) == 0.0
  {
    if n > 0 {
      SumOfZeros(n - 1);
      assert seq(n, _ => 0.0)[..n - 1] == seq(n - 1, _ => 0.0);
    }
  }

  // ---- drawdown --------------------------------------------------------------------------

  /** `mdd` is the deepest fall of the curve from an earlier point, attained somewhere. */
  ghost predicate IsMaxDrawdown(curve: seq<real>, mdd: real) {
    && (forall i, j :: 0 <= i <= j < |curve| ==> mdd <= curve[j] - curve[i])
    && (exists i, j :: 0 <= i <= j < |curve| && mdd == curve[j] - curve[i])
  }

  lemma DrawdownIsUniqueAndNotPositive(curve: seq<real>, a: real, b: real)
    requires curve != [] && IsMaxDrawdown(curve, a) && IsMaxDrawdown(curve, b)
    ensures a == b <= 0.0
  {
    assert curve[0] - curve[0] == 0.0;
  }

  /** One pass with a running peak. */
  method MaxDrawdown(curve: seq<real>) returns (mdd: real)
    requires curve != []
    ensures IsMaxDrawdown(curve, mdd)
    ensures mdd <= 0.0
  {
    var peak := curve[0];
    mdd := 0.0;
    ghost var (top, from, to) := (0, 0, 0);
    for j := 1 to |curve|
      invariant 0 <= top < j && peak == curve[top] && forall i :: 0 <= i < j ==> curve[i] <= peak
      invariant 0 <= from <= to < j && mdd == curve[to] - curve[from] && mdd <= 0.0
      invariant forall a, b :: 0 <= a <= b < j ==> mdd <= curve[b] - curve[a]
    {
      if curve[j] > peak {
        peak, top := curve[j], j;
      }
      if curve[j] - peak < mdd {
        mdd, from, to := curve[j] - peak, top, j;
      }
    }
  }

  /** Cumulative sums in percent, after a leading zero. */
  function Curve(steps: seq<real>): (r: seq<real>)
    ensures |r| == |steps| + 1 && r[|steps|] == Sum(steps) * 100.0
  {
    if steps == [] then [0.0] else Curve(steps[..|steps| - 1]) + [Sum(steps) * 100.0]
  }

  method Accumulate(steps: seq<real>) returns (curve: seq<real>)
    ensures curve == Curve(steps)
  {
    var cum := 0.0;
    curve := [0.0];
    for i := 0 to |steps|
      invariant cum == Sum(steps[..i]) && curve == Curve(steps[..i])
    {
      assert steps[..i + 1][..i] == steps[..i];
      cum := cum + steps[i];
      curve := curve + [cum * 100.0];
    }
    assert steps[..|steps|] == steps;
  }

  // ---- profit booked at exit --------------------------------------------------------------

  function ByExit(): (Trade, Trade) -> bool {
    (a: Trade, b: Trade) => a.exitCi < b.exitCi || (a.exitCi == b.exitCi && a.entryCi <= b.entryCi)
  }

  function Pnls(ts: seq<Trade>): (r: seq<real>)
    requires forall t :: t in ts ==> t.rw != 0.0
    ensures |r| == |ts|
  {
    if ts == [] then []
    else
      assert forall t :: t in ts[..|ts| - 1] ==> t in ts;
      Pnls(ts[..|ts| - 1]) + [Pnl(ts[|ts| - 1])]
  }

  lemma {:induction false} PnlsSum(ts: seq<Trade>)
    requires forall t :: t in ts ==> t.rw != 0.0
    ensures Sum(Pnls(ts)) == TotalPnl(ts)
  {
    if ts != [] {
      PnlsSum(ts[..|ts| - 1]);
      assert Pnls(ts)[..|ts| - 1] == Pnls(ts[..|ts| - 1]);
    }
  }

  lemma {:induction false} TotalOfInsert(ts: seq<Trade>, x: Trade)
    requires x.rw != 0.0 && forall t :: t in ts ==> t.rw != 0.0
    ensures forall t :: t in Insert(ByExit(), ts, x) ==> t.rw != 0.0
    ensures TotalPnl(Insert(ByExit(), ts, x)) == TotalPnl(ts) + Pnl(x)
  {
    if ts == [] {
      assert Insert(ByExit(), ts, x)[..0] == [];
    } else {
      var pre, last := ts[..|ts| - 1], ts[|ts| - 1];
      assert ts == pre + [last];
      if ByExit()(last, x) {
        assert (ts + [x])[..|ts|] == ts;
      } else {
        TotalOfInsert(pre, x);
        var r := Insert(ByExit(), pre, x);
        assert (r + [last])[..|r|] == r;
      }
    }
  }

  lemma {:induction false} TotalOfSort(ts: seq<Trade>)
    requires forall t :: t in ts ==> t.rw != 0.0
    ensures forall t :: t in Sort(ByExit(), ts) ==> t.rw != 0.0
    ensures TotalPnl(Sort(ByExit(), ts)) == TotalPnl(ts)
  {
    if ts != [] {
      assert ts == ts[..|ts| - 1] + [ts[|ts| - 1]];
      TotalOfSort(ts[..|ts| - 1]);
      TotalOfInsert(Sort(ByExit(), ts[..|ts| - 1]), ts[|ts| - 1]);
    }
  }

  /** Drawdown of the profits booked in exit order. */
  method ApproxMdd(taken: seq<Trade>) returns (mdd: real, curve: seq<real>)
    requires forall t :: t in taken ==> t.rw != 0.0
    ensures IsMaxDrawdown(curve, mdd) && mdd <= 0.0
    ensures |curve| == |taken| + 1 && curve[|taken|] == TotalPnl(taken) * 100.0
    ensures exists order: seq<Trade> :: multiset(order) == multiset(taken) && Sorted(ByExit(), order)
                            && (forall t :: t in order ==> t.rw != 0.0) && curve == Curve(Pnls(order))
  {
    TotalOfSort(taken);
    SortKeepsElements(ByExit(), taken);
    ExitOrder();
    SortSorts(ByExit(), taken);
    SortMembers(ByExit(), taken);
    var order := Sort(ByExit(), taken);
    PnlsSum(order);
    curve := Accumulate(Pnls(order));
    mdd := MaxDrawdown(curve);
  }

  lemma ExitOrder()
    ensures TotalPreorder(ByExit())
  {
  }

  // ---- marked to market ------------------------------------------------------------------

  function Weight(t: Trade): real
    requires t.rw != 0.0
  {
    t.f * t.m * 2.0 * RISK_PCT / t.rw
  }

  /** What bar `i` of the holding period books: the close, or on the exit bar the exit price less
      costs, against the previous close (the entry price on the first bar). */
  function BarMark(t: Trade, bars: Bars, i: int): real
    requires t.rw != 0.0 && 0 <= t.j + 1 <= i <= t.k < |bars.c|
  {
    var prev := PrevPrice(t, bars, i);
    if i < t.k then (bars.c[i] - prev) * Weight(t) else (t.exitPx - prev - t.cost * t.e) * Weight(t)
  }

  /** What the bars before `i` book on calendar day `day`. */
  function MarkOn(t: Trade, bars: Bars, day: int, i: int): real
    requires t.rw != 0.0 && 0 <= t.j + 1 <= i <= t.k + 1 <= |bars.c| == |bars.ci|
    decreases i
  {
    if i == t.j + 1 then 0.0
    else MarkOn(t, bars, day, i - 1) + (if bars.ci[i - 1] == day then BarMark(t, bars, i - 1) else 0.0)
  }

  function DayTotal(ts: seq<Trade>, data: map<string, Bars>, ncal: nat, day: int): real
    requires forall t :: t in ts ==> Priced(t, data, ncal)
  {
    if ts == [] then 0.0
    else
      var t := ts[|ts| - 1];
      assert forall x :: x in ts[..|ts| - 1] ==> x in ts;
      assert t in ts && Priced(t, data, ncal);
      DayTotal(ts[..|ts| - 1], data, ncal, day) + MarkOn(t, data[t.ticker], day, t.k + 1)
  }

  /** What the bars before `i` book in all. */
  function Booked(t: Trade, bars: Bars, i: int): real
    requires t.rw != 0.0 && 0 <= t.j + 1 <= i <= t.k + 1 <= |bars.c| == |bars.ci|
    decreases i
  {
    if i == t.j + 1 then 0.0 else Booked(t, bars, i - 1) + BarMark(t, bars, i - 1)
  }

  function PrevPrice(t: Trade, bars: Bars, i: int): real
    requires 0 <= t.j + 1 <= i <= t.k < |bars.c|
  {
    if i == t.j + 1 then t.e else bars.c[i - 1]
  }

  /** The bars before the exit telescope to the price change since entry. */
  lemma {:induction false} BookedTelescopes(t: Trade, bars: Bars, i: int)
    requires t.rw != 0.0 && 0 <= t.j + 1 <= i <= t.k < |bars.c| == |bars.ci|
    ensures Booked(t, bars, i) == (PrevPrice(t, bars, i) - t.e) * Weight(t)
    decreases i
  {
    if i > t.j + 1 {
      BookedTelescopes(t, bars, i - 1);
      Telescopes(PrevPrice(t, bars, i - 1), bars.c[i - 1], t.e, Weight(t));
    }
  }

  /** The whole trade books exactly its profit. */
  lemma WholeBooked(t: Trade, bars: Bars)
    requires t.rw != 0.0 && 0 <= t.j + 1 <= t.k < |bars.c| == |bars.ci|
    ensures Booked(t, bars, t.k + 1) == Pnl(t)
  {
    var prev, net, w := PrevPrice(t, bars, t.k), t.exitPx - t.cost * t.e, Weight(t);
    BookedTelescopes(t, bars, t.k);
    assert BarMark(t, bars, t.k) == (net - prev) * w by {
      assert t.exitPx - prev - t.cost * t.e == net - prev;
    }
    Telescopes(prev, net, t.e, w);
    WholeTrade(t, w);
  }

  /** Spread one trade over the calendar. Each day grows by what the trade's bars book on it, and all
      days together by exactly the trade's profit. */
  method MarkTrade(daily: array<real>, t: Trade, bars: Bars)
    requires Priced(t, map[t.ticker := bars], daily.Length)
    modifies daily
    ensures forall day :: 0 <= day < daily.Length ==> daily[day] == old(daily[day]) + MarkOn(t, bars, day, t.k + 1)
    ensures Sum(daily[..]) == Sum(old(daily[..])) + Pnl(t)
  {
    var w := Weight(t);
    var prev := t.e;
    ghost var before := daily[..];
    for i := t.j + 1 to t.k
      invariant prev == if i == t.j + 1 then t.e else bars.c[i - 1]
      invariant forall day :: 0 <= day < daily.Length ==> daily[day] == before[day] + MarkOn(t, bars, day, i)
      invariant Sum(daily[..]) == Sum(before) + Booked(t, bars, i)
    {
      var x := (bars.c[i] - prev) * w;
      assert x == BarMark(t, bars, i);
      AddTo(daily, bars.ci[i], x);
      prev := bars.c[i];
    }
    var x := (t.exitPx - prev - t.cost * t.e) * w;
    assert x == BarMark(t, bars, t.k);
    AddTo(daily, bars.ci[t.k], x);
    WholeBooked(t, bars);
  }

  method AddTo(daily: array<real>, day: int, x: real)
    requires 0 <= day < daily.Length
    modifies daily
    ensures daily[..] == old(daily[..])[day := old(daily[day]) + x]
    ensures forall d :: 0 <= d < daily.Length ==> daily[d] == old(daily[d]) + (if d == day then x else 0.0)
    ensures Sum(daily[..]) == Sum(old(daily[..])) + x
  {
    SumOfUpdate(daily[..], day, x);
    daily[day] := daily[day] + x;
  }

  lemma Telescopes(prev: real, next: real, e: real, w: real)
    ensures (prev - e) * w + (next - prev) * w == (next - e) * w
  {
  }

  lemma WholeTrade(t: Trade, w: real)
    requires t.rw != 0.0 && w == Weight(t)
    ensures (t.exitPx - t.cost * t.e - t.e) * w == Pnl(t)
  {
    var x, s := t.exitPx - t.e - t.cost * t.e, t.f * t.m * 2.0 * RISK_PCT;
    ScaledQuotient(x, s, t.rw);
    assert RNet(t) * t.f * t.m * 2.0 * RISK_PCT == RNet(t) * s;
  }

  lemma ScaledQuotient(x: real, s: real, d: real)
    requires d != 0.0
    ensures x * (s / d) == (x / d) * s
  {
    var q := x / d;
    var p := s / d;
    assert q * d == x && p * d == s;
    assert x * p == (q * d) * p == q * (p * d);
  }

  /** Every taken trade marked, day by day. */
  method MarkAll(taken: seq<Trade>, data: map<string, Bars>, ncal: nat) returns (daily: array<real>)
    requires ncal > 0 && forall t :: t in taken ==> Priced(t, data, ncal)
    ensures fresh(daily) && daily.Length == ncal && forall t :: t in taken ==> t.rw != 0.0
    ensures forall day :: 0 <= day < ncal ==> daily[day] == DayTotal(taken, data, ncal, day)
    ensures Sum(daily[..]) == TotalPnl(taken)
  {
    daily := new real[ncal](_ => 0.0);
    SumOfZeros(ncal);
    assert daily[..] == seq(ncal, _ => 0.0);
    for n := 0 to |taken|
      invariant forall t :: t in taken[..n] ==> Priced(t, data, ncal)
      invariant forall day :: 0 <= day < ncal ==> daily[day] == DayTotal(taken[..n], data, ncal, day)
      invariant Sum(daily[..]) == TotalPnl(taken[..n])
    {
      var t := taken[n];
      assert t in taken;
      MarkTrade(daily, t, data[t.ticker]);
      assert taken[..n + 1] == taken[..n] + [t];
      assert taken[..n + 1][..n] == taken[..n];
    }
    assert taken[..|taken|] == taken;
  }

  /** Daily marks of all taken trades and the drawdown of their running sum. The curve is built from
      the marks of each day, and it ends at the same total as booking every profit at its exit. */
  method MtmMdd(taken: seq<Trade>, data: map<string, Bars>, ncal: nat) returns (mdd: real, curve: seq<real>)
    requires ncal > 0 && forall t :: t in taken ==> Priced(t, data, ncal)
    ensures curve == Curve(seq(ncal, day requires 0 <= day < ncal => DayTotal(taken, data, ncal, day)))
    ensures forall t :: t in taken ==> t.rw != 0.0
    ensures curve[ncal] == TotalPnl(taken) * 100.0
    ensures IsMaxDrawdown(curve, mdd) && mdd <= 0.0
  {
    var daily := MarkAll(taken, data, ncal);
    assert daily[..] == seq(ncal, day requires 0 <= day < ncal => DayTotal(taken, data, ncal, day));
    curve := Accumulate(daily[..]);
    mdd := MaxDrawdown(curve);
  }
}
