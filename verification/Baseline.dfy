/** The one-lot exit rule, in the two forms the studies use: the 60-bar `Baseline` and the
    open-ended cycle-346 `Simulate` it was copied from. */
module Baseline {
  import opened Basics

  const HARD := -8.0
  const STOP_ATR := 2.0
  const TRAIL := 2.5
  const BE := 1.5
  const GAP_SKIP := 1.05
  const MAX_HOLD := 60
  /** Stands for "no break-even line yet". */
  const NO_LINE := -1000000000000000000.0

  /** Daily bars with their ATR and stage. */
  datatype Series = Series(o: seq<real>, h: seq<real>, l: seq<real>, c: seq<real>, atr: seq<real>, st: seq<int>) {
    predicate Aligned() { |o| == |h| == |l| == |c| == |atr| == |st| }

    /** `t0` is an entry bar: it exists and so does the signal bar before it. */
    predicate Entry(t0: int) { Aligned() && 1 <= t0 < |o| }
  }

  datatype Why = Stage3 | Gap | LineHit | Time | StillOpen | StopAfterAdd

  datatype Exit = Exit(bar: int, price: real, why: Why)

  function LastBar(s: Series, t0: int): int { MinI(t0 + MAX_HOLD - 1, |s.o| - 1) }

  function TimeOut(s: Series, t0: int): Exit
    requires s.Entry(t0)
  {
    var last := LastBar(s, t0);
    Exit(last, s.c[last], if last == t0 + MAX_HOLD - 1 then Time else StillOpen)
  }

  /** The fixed percentage stop under a price. */
  function PctLine(price: real): real { price * (1.0 + HARD / 100.0) }

  /** Highest of the four lines of a one-lot position bought at `e`. */
  function OneLotLine(e: real, a: real, floor: real, hsb: real): real {
    var be := if hsb >= e + BE * a then e else NO_LINE;
    MaxR(MaxR(PctLine(e), floor), MaxR(be, hsb - TRAIL * a))
  }

  /** What a bar's open and low do to a standing line: gap through it, trade through it, or neither. */
  function Hit(s: Series, t0: int, j: int, line: real): Option<Exit>
    requires s.Aligned() && 0 <= j < |s.o|
  {
    if s.o[j] <= line && j > t0 then Some(Exit(j, s.o[j], Gap))
    else if s.l[j] <= line then Some(Exit(j, if j > t0 then MinR(line, s.o[j]) else line, LineHit))
    else None
  }

  /** The ATR stop under the entry only ratchets up, from the second bar on. */
  function Ratchet(s: Series, t0: int, j: int, floor: real): real
    requires s.Entry(t0) && t0 <= j < |s.o|
  {
    if j > t0 then MaxR(floor, s.o[t0] - STOP_ATR * s.atr[j - 1]) else floor
  }

  /** What bar `j` does to a one-lot position whose floor is already ratcheted. */
  function OneLotExit(s: Series, t0: int, j: int, floor: real, hsb: real): Option<Exit>
    requires s.Entry(t0) && t0 <= j < |s.o|
  {
    if j > t0 && s.st[j - 1] == 3 then Some(Exit(j, s.o[j], Stage3))
    else Hit(s, t0, j, OneLotLine(s.o[t0], s.atr[j - 1], floor, hsb))
  }

  function BaseRun(s: Series, t0: int, j: int, floor: real, hsb: real): Exit
    requires s.Entry(t0) && t0 <= j <= LastBar(s, t0) + 1
    decreases LastBar(s, t0) + 1 - j
  {
    if j > LastBar(s, t0) then TimeOut(s, t0)
    else
      var floor' := Ratchet(s, t0, j, floor);
      match OneLotExit(s, t0, j, floor', hsb)
      case Some(x) => x
      case None => BaseRun(s, t0, j + 1, floor', MaxR(hsb, s.h[j]))
  }

  function BaselineExit(s: Series, t0: int, a0: real): Exit
    requires s.Entry(t0)
  {
    BaseRun(s, t0, t0, s.o[t0] - STOP_ATR * a0, s.o[t0])
  }

  method RunBaseline(s: Series, t0: int, a0: real) returns (x: Exit)
    requires s.Entry(t0)
    ensures x == BaselineExit(s, t0, a0)
    ensures t0 <= x.bar <= LastBar(s, t0)
  {
    var e := s.o[t0];
    var pctLine := PctLine(e);
    var floor := e - STOP_ATR * a0;
    var hsb := e;
    var last := LastBar(s, t0);
    for j := t0 to last + 1
      invariant BaseRun(s, t0, j, floor, hsb) == BaselineExit(s, t0, a0)
    {
      var a := s.atr[j - 1];
      if j > t0 {
        floor := MaxR(floor, e - STOP_ATR * a);
        if s.st[j - 1] == 3 {
          return Exit(j, s.o[j], Stage3);
        }
      }
      var be := if hsb >= e + BE * a then e else NO_LINE;
      var chand := hsb - TRAIL * a;
      var lvl := MaxR(MaxR(pctLine, floor), MaxR(be, chand));
      assert lvl == OneLotLine(e, a, floor, hsb);
      if s.o[j] <= lvl && j > t0 {
        return Exit(j, s.o[j], Gap);
      }
      if s.l[j] <= lvl {
        return Exit(j, if j > t0 then MinR(lvl, s.o[j]) else lvl, LineHit);
      }
      hsb := MaxR(hsb, s.h[j]);
    }
    return TimeOut(s, t0);
  }

  // ---- cycle 346 -------------------------------------------------------------------------

  datatype SimWhy = SimStage3 | Trail | Hard | Breakeven | AtrStop | OpenEod

  datatype SimTrade = SimTrade(e: real, x: real, why: SimWhy, days: int, j: int, r: real, ret: real, mfe: real,
                               open: bool)

  /** An exit before it is put in units of risk; `hsb` is the highest price seen by then. */
  datatype RawExit = RawExit(j: int, x: real, why: SimWhy, hsb: real)

  function MakeTrade(t: int, e: real, risk: real, j: int, x: real, why: SimWhy, mfe: real): SimTrade
    requires e != 0.0 && risk != 0.0
  {
    SimTrade(e, x, why, j - t - 1, j, (x - e) / risk, (x / e - 1.0) * 100.0, mfe, why == OpenEod)
  }

  /** How far above the entry a price is, in units of risk. */
  function Excursion(price: real, e: real, risk: real): real
    requires risk != 0.0
  {
    (price - e) / risk
  }

  function InitRisk(e: real, a0: real): real {
    e - MaxR(PctLine(e), e - STOP_ATR * a0)
  }

  /** Which line the stop is attributed to. */
  function LineName(e: real, a: real, floor: real, hsb: real): SimWhy {
    var pct := PctLine(e);
    var be := if hsb >= e + BE * a then e else NO_LINE;
    if hsb - TRAIL * a >= MaxR(MaxR(pct, floor), be) then Trail
    else if pct >= MaxR(floor, be) then Hard
    else if be >= floor then Breakeven
    else AtrStop
  }

  function SimRun(s: Series, t: int, j: int, floor: real, hsb: real): RawExit
    requires s.Entry(t + 1) && t + 1 <= j <= |s.o|
    decreases |s.o| - j
  {
    if j == |s.o| then RawExit(j - 1, s.c[j - 1], OpenEod, hsb)
    else
      var floor' := Ratchet(s, t + 1, j, floor);
      match OneLotExit(s, t + 1, j, floor', hsb)
      case Some(x) =>
        RawExit(j, x.price, if x.why == Stage3 then SimStage3 else LineName(s.o[t + 1], s.atr[j - 1], floor', hsb), hsb)
      case None => SimRun(s, t, j + 1, floor', MaxR(hsb, s.h[j]))
  }

  function RawSimulation(s: Series, t: int): RawExit
    requires s.Aligned() && 0 <= t < |s.o| - 1
  {
    SimRun(s, t, t + 1, s.o[t + 1] - STOP_ATR * s.atr[t], s.o[t + 1])
  }

  /** None when the signal is on the last bar or the entry price or ATR is not positive. */
  function Simulation(s: Series, t: int): Option<SimTrade>
    requires s.Aligned() && 0 <= t
  {
    if t + 1 >= |s.o| || s.o[t + 1] <= 0.0 || s.atr[t] <= 0.0 then None
    else
      var e, risk, raw := s.o[t + 1], InitRisk(s.o[t + 1], s.atr[t]), RawSimulation(s, t);
      Some(MakeTrade(t, e, risk, raw.j, raw.x, raw.why, Excursion(raw.hsb, e, risk)))
  }

  /** The running maximum of the excursion is the excursion of the running maximum. */
  method BestExcursion(mfe: real, hsb: real, hsb': real, e: real, risk: real) returns (best: real)
    requires risk > 0.0 && hsb <= hsb' && mfe == Excursion(hsb, e, risk)
    ensures best == Excursion(hsb', e, risk)
  {
    DivMono(hsb - e, hsb' - e, risk);
    best := MaxR(mfe, (hsb' - e) / risk);
  }

  /** One bar of the holding loop: the ratcheted floor, and the exit if the bar brings one. */
  method HoldOneBar(s: Series, t: int, j: int, floor0: real, hsb: real) returns (floor: real, out: Option<RawExit>)
    requires s.Entry(t + 1) && t + 1 <= j < |s.o|
    ensures floor == Ratchet(s, t + 1, j, floor0)
    ensures out.Some? ==> SimRun(s, t, j, floor0, hsb) == out.value && out.value.hsb == hsb
    ensures out.None? ==> SimRun(s, t, j, floor0, hsb) == SimRun(s, t, j + 1, floor, MaxR(hsb, s.h[j]))
  {
    floor := floor0;
    var e, a := s.o[t + 1], s.atr[j - 1];
    if j > t + 1 {
      floor := MaxR(floor, e - STOP_ATR * a);
      if s.st[j - 1] == 3 {
        return floor, Some(RawExit(j, s.o[j], SimStage3, hsb));
      }
    }
    var hit := Hit(s, t + 1, j, OneLotLine(e, a, floor, hsb));
    if hit.Some? {
      return floor, Some(RawExit(j, hit.value.price, LineName(e, a, floor, hsb), hsb));
    }
    return floor, None;
  }

  /** The holding loop: where the position leaves, and its best excursion in units of risk. */
  method HoldUntilExit(s: Series, t: int, risk: real) returns (raw: RawExit, mfe: real)
    requires s.Aligned() && 0 <= t < |s.o| - 1 && risk > 0.0
    ensures raw == RawSimulation(s, t)
    ensures mfe == Excursion(raw.hsb, s.o[t + 1], risk)
  {
    var n, e := |s.o|, s.o[t + 1];
    var floor := e - STOP_ATR * s.atr[t];
    var hsb := e;
    mfe := 0.0;
    for j := t + 1 to n
      invariant SimRun(s, t, j, floor, hsb) == RawSimulation(s, t)
      invariant mfe == Excursion(hsb, e, risk)
    {
      var out;
      floor, out := HoldOneBar(s, t, j, floor, hsb);
      if out.Some? {
        return out.value, mfe;
      }
      mfe := BestExcursion(mfe, hsb, MaxR(hsb, s.h[j]), e, risk);
      hsb := MaxR(hsb, s.h[j]);
    }
    return RawExit(n - 1, s.c[n - 1], OpenEod, hsb), mfe;
  }

  method Simulate(s: Series, t: int) returns (r: Option<SimTrade>)
    requires s.Aligned() && 0 <= t
    ensures r == Simulation(s, t)
    ensures r.None? <==> t + 1 >= |s.o| || s.o[t + 1] <= 0.0 || s.atr[t] <= 0.0
  {
    if t + 1 >= |s.o| {
      return None;
    }
    var e := s.o[t + 1];
    var a0 := s.atr[t];
    if e <= 0.0 || a0 <= 0.0 {
      return None;
    }
    var risk := InitRisk(e, a0);
    var raw, mfe := HoldUntilExit(s, t, risk);
    return Some(MakeTrade(t, e, risk, raw.j, raw.x, raw.why, mfe));
  }

  /** The 60-bar rule truncates the open-ended one and changes nothing else: same bar and price when
      the open-ended exit comes in time, the 60th close otherwise. */
  lemma BaselineTruncatesSimulation(s: Series, t: int)
    requires s.Aligned() && 0 <= t && Simulation(s, t).Some?
    ensures s.Entry(t + 1)
    ensures var sim := Simulation(s, t).value;
            var base := BaselineExit(s, t + 1, s.atr[t]);
            var cap := t + MAX_HOLD;
            if sim.j <= cap then base.bar == sim.j && base.price == sim.x
              && (base.why in {Gap, LineHit, Stage3} <==> !sim.open)
            else cap < |s.o| && base == Exit(cap, s.c[cap], Time)
  {
    TruncateFrom(s, t, t + 1, s.o[t + 1] - STOP_ATR * s.atr[t], s.o[t + 1]);
  }

  lemma {:induction false} TruncateFrom(s: Series, t: int, j: int, floor: real, hsb: real)
    requires s.Entry(t + 1) && t + 1 <= j <= LastBar(s, t + 1) + 1
    ensures var sim := SimRun(s, t, j, floor, hsb);
            var base := BaseRun(s, t + 1, j, floor, hsb);
            var cap := t + MAX_HOLD;
            if sim.j <= cap then base.bar == sim.j && base.price == sim.x
              && (base.why in {Gap, LineHit, Stage3} <==> sim.why != OpenEod)
            else cap < |s.o| && base == Exit(cap, s.c[cap], Time)
    decreases |s.o| - j
  {
    if j > LastBar(s, t + 1) {
      if j < |s.o| { SimExitsLater(s, t, j, floor, hsb); }
    } else {
      TruncateFrom(s, t, j + 1, Ratchet(s, t + 1, j, floor), MaxR(hsb, s.h[j]));
    }
  }

  lemma {:induction false} SimExitsLater(s: Series, t: int, j: int, floor: real, hsb: real)
    requires s.Entry(t + 1) && t + 1 <= j < |s.o|
    ensures SimRun(s, t, j, floor, hsb).j >= j
    decreases |s.o| - j
  {
    if j + 1 < |s.o| {
      SimExitsLater(s, t, j + 1, Ratchet(s, t + 1, j, floor), MaxR(hsb, s.h[j]));
    }
  }

  // ---- one position at a time --------------------------------------------------------------

  const GAP_DN := -4.0
  const GAP_UP := 5.0
  const WARMUP := 80

  /** The next open is neither too far below nor too far above the signal's close. */
  predicate GapOk(s: Series, t: int)
    requires s.Aligned() && 0 <= t
  {
    && t + 1 < |s.o| && s.c[t] > 0.0 && s.o[t + 1] > 0.0
    && GAP_DN < (s.o[t + 1] - s.c[t]) / s.c[t] * 100.0 < GAP_UP
  }

  datatype Taken = Taken(t: int, trade: SimTrade)

  lemma SimulationEndsLater(s: Series, t: int)
    requires s.Aligned() && 0 <= t && Simulation(s, t).Some?
    ensures t < Simulation(s, t).value.j < |s.o|
  {
    SimStaysInside(s, t, t + 1, s.o[t + 1] - STOP_ATR * s.atr[t], s.o[t + 1]);
  }

  lemma {:induction false} SimStaysInside(s: Series, t: int, j: int, floor: real, hsb: real)
    requires s.Entry(t + 1) && t + 1 <= j <= |s.o|
    ensures t < SimRun(s, t, j, floor, hsb).j < |s.o|
    decreases |s.o| - j
  {
    if j < |s.o| { SimStaysInside(s, t, j + 1, Ratchet(s, t + 1, j, floor), MaxR(hsb, s.h[j])); }
  }

  /** From bar `t` on: take the first usable signal, go on after its exit; a signal whose trade cannot be
      simulated ends the scan. */
  function SequentialFrom(s: Series, sig: seq<bool>, t: nat): seq<Taken>
    requires s.Aligned() && |sig| == |s.o|
    decreases |s.o| - t
  {
    if t >= |s.o| - 1 then []
    else if sig[t] && GapOk(s, t) then
      var r := Simulation(s, t);
      if r.None? then [] else
        SimulationEndsLater(s, t);
        [Taken(t, r.value)] + SequentialFrom(s, sig, r.value.j + 1)
    else SequentialFrom(s, sig, t + 1)
  }

  method Sequential(s: Series, sig: seq<bool>) returns (trades: seq<Taken>)
    requires s.Aligned() && |sig| == |s.o|
    ensures trades == SequentialFrom(s, sig, WARMUP)
  {
    trades := [];
    var t := WARMUP;
    while t < |s.o| - 1
      invariant 0 <= t && trades + SequentialFrom(s, sig, t) == SequentialFrom(s, sig, WARMUP)
      decreases |s.o| - t
    {
      if sig[t] && GapOk(s, t) {
        var r := Simulate(s, t);
        if r.None? {
          break;
        }
        SimulationEndsLater(s, t);
        assert trades + ([Taken(t, r.value)] + SequentialFrom(s, sig, r.value.j + 1))
            == (trades + [Taken(t, r.value)]) + SequentialFrom(s, sig, r.value.j + 1);
        trades := trades + [Taken(t, r.value)];
        t := r.value.j + 1;
        continue;
      }
      t := t + 1;
    }
    assert SequentialFrom(s, sig, t) == [];
    assert trades + [] == trades;
  }

  /** Bar `u` lies from a trade's signal to its exit. */
  predicate During(x: Taken, u: int) { x.t <= u <= x.trade.j }

  /** Positions never overlap: each trade's signal comes after the exit of every earlier trade. */
  lemma {:induction false} OnePositionAtATime(s: Series, sig: seq<bool>, t: nat, i: int, k: int)
    requires s.Aligned() && |sig| == |s.o|
    requires 0 <= i < k < |SequentialFrom(s, sig, t)|
    ensures SequentialFrom(s, sig, t)[i].trade.j < SequentialFrom(s, sig, t)[k].t
    decreases |s.o| - t
  {
    if sig[t] && GapOk(s, t) {
      SimulationEndsLater(s, t);
      var next := Simulation(s, t).value.j + 1;
      if i == 0 { SignalsFrom(s, sig, next, k - 1); } else { OnePositionAtATime(s, sig, next, i - 1, k - 1); }
    } else {
      OnePositionAtATime(s, sig, t + 1, i, k);
    }
  }

  lemma {:induction false} SignalsFrom(s: Series, sig: seq<bool>, t: nat, k: int)
    requires s.Aligned() && |sig| == |s.o| && 0 <= k < |SequentialFrom(s, sig, t)|
    ensures t <= SequentialFrom(s, sig, t)[k].t
    decreases |s.o| - t
  {
    if sig[t] && GapOk(s, t) {
      SimulationEndsLater(s, t);
      if k > 0 { SignalsFrom(s, sig, Simulation(s, t).value.j + 1, k - 1); }
    } else {
      SignalsFrom(s, sig, t + 1, k);
    }
  }

  /** While every ATR is positive no usable signal is passed over except during an open trade. */
  lemma {:induction false} SignalsAreUsed(s: Series, sig: seq<bool>, t: nat, u: int)
    requires s.Aligned() && |sig| == |s.o| && (forall i :: 0 <= i < |s.o| ==> s.atr[i] > 0.0)
    requires t <= u < |s.o| - 1 && sig[u] && GapOk(s, u)
    ensures exists k :: 0 <= k < |SequentialFrom(s, sig, t)| && During(SequentialFrom(s, sig, t)[k], u)
    decreases |s.o| - t
  {
    var all := SequentialFrom(s, sig, t);
    if sig[t] && GapOk(s, t) {
      SimulationEndsLater(s, t);
      var r := Simulation(s, t).value;
      var rest := SequentialFrom(s, sig, r.j + 1);
      assert all == [Taken(t, r)] + rest;
      if u <= r.j {
        assert During(all[0], u);
      } else {
        SignalsAreUsed(s, sig, r.j + 1, u);
        var k :| 0 <= k < |rest| && During(rest[k], u);
        assert all[k + 1] == rest[k];
      }
    } else {
      SignalsAreUsed(s, sig, t + 1, u);
    }
  }
}
