/** The free-mode ladder: one lot that may add rungs, with a ratcheting floor and its own exits. */
module FreeSim {
  import opened Basics
  import opened Ladder
  import opened Baseline

  /** `a0` seeds the floor, `n` is the ladder's fixed ATR, `noAdd[j]` forbids adding on bar j. */
  datatype Params = Params(t0: int, a0: real, n: real, step: real, sizes: seq<real>, noAdd: seq<bool>) {
    ghost predicate Fits(s: Series) {
      s.Entry(t0) && Schedule(sizes) && |noAdd| == |s.o| && n > 0.0
    }

    function Gap(): real { step * n }
  }

  /** What the loop updates. The rung count is the number of fills and the last price is theirs. */
  datatype Pos = Pos(fills: seq<Fill>, peak: real, floor: real, hsb: real)

  datatype Result = Result(exit: Exit, fills: seq<Fill>, tranches: int, peakRisk: real, virtualR: real,
                           setStop: Option<real>)

  /** Fills follow the schedule from the entry price, and `peak` is the largest risk they ever carried. */
  ghost predicate Good(s: Series, p: Params, x: Pos) {
    && p.Fits(s)
    && OnLadder(x.fills, p.sizes, p.Gap())
    && x.fills[0].price == s.o[p.t0]
    && Qty(x.fills) > 0.0
    && x.peak == PeakRisk(x.fills, p.n, STOP_ATR)
  }

  function Start(s: Series, p: Params): (x: Pos)
    requires p.Fits(s)
    ensures Good(s, p, x)
  {
    var e := s.o[p.t0];
    var fills := [Fill(p.t0, e, p.sizes[0])];
    assert fills[..0] == [];
    Pos(fills, RiskR(fills, p.n, STOP_ATR), e - STOP_ATR * p.a0, e)
  }

  /** The effective stop line: the one-lot lines taken from the average, and the set's own stop once
      a rung has been added. */
  function Line(s: Series, p: Params, x: Pos, a: real): real
    requires Good(s, p, x)
  {
    var own := OneLotLine(Avg(x.fills), a, x.floor, x.hsb);
    if |x.fills| >= 2 then MaxR(own, SetLine(x.fills, p.n, STOP_ATR)) else own
  }

  function Rung(p: Params, x: Pos): real
    requires x.fills != []
  {
    Last(x.fills) + p.Gap()
  }

  /** The next rung is in reach: not gapped past, and traded. */
  predicate InReach(s: Series, p: Params, x: Pos, j: int)
    requires s.Aligned() && 0 <= j < |s.o| && x.fills != []
  {
    s.o[j] < Rung(p, x) * GAP_SKIP && s.h[j] >= Rung(p, x)
  }

  function Add(s: Series, p: Params, x: Pos, j: int): (x': Pos)
    requires Good(s, p, x) && |x.fills| < |p.sizes| && p.t0 <= j < |s.o|
    ensures Good(s, p, x') && |x'.fills| == |x.fills| + 1
    ensures Last(x'.fills) == MaxR(Rung(p, x), s.o[j])
    ensures x'.floor >= x.floor && x'.hsb == x.hsb
  {
    var fill := Fill(j, MaxR(Rung(p, x), s.o[j]), p.sizes[|x.fills|]);
    var fills := x.fills + [fill];
    LadderExtends(x.fills, p.sizes, p.Gap(), fill);
    LadderQty(fills, p.sizes, p.Gap());
    assert fills[..|fills| - 1] == x.fills;
    Pos(fills, MaxR(x.peak, RiskR(fills, p.n, STOP_ATR)), MaxR(x.floor, Avg(fills) - STOP_ATR * s.atr[j - 1]), x.hsb)
  }

  /** The check before each add: the fill must beat the average and the whole effective line. */
  predicate GuardHolds(s: Series, p: Params, x: Pos, j: int)
    requires Good(s, p, x) && p.t0 <= j < |s.o|
  {
    var fp := MaxR(Rung(p, x), s.o[j]);
    fp > Avg(x.fills) && fp > Line(s, p, x, s.atr[j - 1])
  }

  datatype Added = Added(x: Pos, stop: Option<real>)

  /** All adds of one bar; `stop` is the line if the bar's low trades through it after an add. With
      `guarded` off the check before each add is left out. */
  function Adds(s: Series, p: Params, x: Pos, j: int, guarded: bool): (r: Added)
    requires Good(s, p, x) && p.t0 <= j < |s.o|
    ensures Good(s, p, r.x) && |r.x.fills| >= |x.fills|
    decreases |p.sizes| - |x.fills|
  {
    if |x.fills| == |p.sizes| || !InReach(s, p, x, j) || (guarded && !GuardHolds(s, p, x, j)) then Added(x, None)
    else
      var x' := Add(s, p, x, j);
      var line := Line(s, p, x', s.atr[j - 1]);
      if s.l[j] <= line then Added(x', Some(line)) else Adds(s, p, x', j, guarded)
  }

  /** Adds only raise the floor, and a stop after one lies on or above the set's own line. */
  lemma {:induction false} AddsKeepLines(s: Series, p: Params, x: Pos, j: int, guarded: bool)
    requires Good(s, p, x) && p.t0 <= j < |s.o|
    ensures var r := Adds(s, p, x, j, guarded);
            && r.x.floor >= x.floor && r.x.hsb == x.hsb
            && (r.stop.Some? ==> r.stop.value >= SetLine(r.x.fills, p.n, STOP_ATR))
    decreases |p.sizes| - |x.fills|
  {
    if |x.fills| < |p.sizes| && InReach(s, p, x, j) && (guarded ==> GuardHolds(s, p, x, j)) {
      var x' := Add(s, p, x, j);
      if s.l[j] > Line(s, p, x', s.atr[j - 1]) { AddsKeepLines(s, p, x', j, guarded); }
    }
  }

  /** The floor ratchets to the average's ATR stop, from the second bar on. */
  function Ratcheted(s: Series, p: Params, x: Pos, j: int): (x': Pos)
    requires Good(s, p, x) && p.t0 <= j < |s.o|
    ensures Good(s, p, x') && x'.fills == x.fills && x'.floor >= x.floor
  {
    if j > p.t0 then x.(floor := MaxR(x.floor, Avg(x.fills) - STOP_ATR * s.atr[j - 1])) else x
  }

  function ExitAtOpenOrLine(s: Series, p: Params, x: Pos, j: int): Option<Exit>
    requires Good(s, p, x) && p.t0 <= j < |s.o|
  {
    if j > p.t0 && s.st[j - 1] == 3 then Some(Exit(j, s.o[j], Stage3))
    else Hit(s, p.t0, j, Line(s, p, x, s.atr[j - 1]))
  }

  function AddsAllowed(s: Series, p: Params, x: Pos, j: int, guarded: bool): (r: Added)
    requires Good(s, p, x) && p.t0 <= j < |s.o|
    ensures Good(s, p, r.x) && |r.x.fills| >= |x.fills|
  {
    if j > p.t0 && !p.noAdd[j] then Adds(s, p, x, j, guarded) else Added(x, None)
  }

  function Run(s: Series, p: Params, x: Pos, j: int, guarded: bool): (r: (Pos, Exit))
    requires Good(s, p, x) && p.t0 <= j <= LastBar(s, p.t0) + 1
    ensures Good(s, p, r.0) && |r.0.fills| >= |x.fills|
    decreases LastBar(s, p.t0) + 1 - j
  {
    if j > LastBar(s, p.t0) then (x, TimeOut(s, p.t0))
    else
      var x1 := Ratcheted(s, p, x, j);
      match ExitAtOpenOrLine(s, p, x1, j)
      case Some(exit) => (x1, exit)
      case None =>
        var r := AddsAllowed(s, p, x1, j, guarded);
        if r.stop.Some? then (r.x, Exit(j, r.stop.value, StopAfterAdd))
        else Run(s, p, r.x.(hsb := MaxR(r.x.hsb, s.h[j])), j + 1, guarded)
  }

  function Report(p: Params, x: Pos, exit: Exit): Result
    requires x.fills != [] && p.n > 0.0
  {
    Result(exit, x.fills, |x.fills|, x.peak, VirtualR(x.fills, exit.price, p.n, STOP_ATR),
           if |x.fills| >= 2 then Some(SetLine(x.fills, p.n, STOP_ATR)) else None)
  }

  function Outcome(s: Series, p: Params, guarded: bool): Result
    requires p.Fits(s)
  {
    var r := Run(s, p, Start(s, p), p.t0, guarded);
    Report(p, r.0, r.1)
  }

  // ---- the loop --------------------------------------------------------------------------

  method AddRungs(s: Series, p: Params, x0: Pos, j: int) returns (x: Pos, stop: Option<real>)
    requires Good(s, p, x0) && p.t0 <= j < |s.o|
    ensures Added(x, stop) == Adds(s, p, x0, j, true)
  {
    x := x0;
    while |x.fills| < |p.sizes|
      invariant Good(s, p, x)
      invariant Adds(s, p, x, j, true) == Adds(s, p, x0, j, true)
      decreases |p.sizes| - |x.fills|
    {
      if !InReach(s, p, x, j) {
        break;
      }
      if !GuardHolds(s, p, x, j) {
        break;
      }
      x := Add(s, p, x, j);
      var line := Line(s, p, x, s.atr[j - 1]);
      if s.l[j] <= line {
        return x, Some(line);
      }
    }
    return x, None;
  }

  /** One bar: the exit if it has one, or the position the next bar starts from. */
  method OneBar(s: Series, p: Params, x0: Pos, j: int) returns (x: Pos, exit: Option<Exit>)
    requires Good(s, p, x0) && p.t0 <= j <= LastBar(s, p.t0)
    ensures Good(s, p, x)
    ensures exit.Some? ==> Run(s, p, x0, j, true) == (x, exit.value)
    ensures exit.None? ==> Run(s, p, x0, j, true) == Run(s, p, x, j + 1, true)
  {
    x := Ratcheted(s, p, x0, j);
    if j > p.t0 && s.st[j - 1] == 3 {
      return x, Some(Exit(j, s.o[j], Stage3));
    }
    exit := Hit(s, p.t0, j, Line(s, p, x, s.atr[j - 1]));
    if exit.Some? {
      return;
    }
    if j > p.t0 && !p.noAdd[j] {
      var stop;
      x, stop := AddRungs(s, p, x, j);
      if stop.Some? {
        return x, Some(Exit(j, stop.value, StopAfterAdd));
      }
    }
    x := x.(hsb := MaxR(x.hsb, s.h[j]));
  }

  method RunFree(s: Series, p: Params) returns (r: Result)
    requires p.Fits(s)
    ensures r == Outcome(s, p, true)
  {
    var x := Start(s, p);
    for j := p.t0 to LastBar(s, p.t0) + 1
      invariant Good(s, p, x)
      invariant Run(s, p, x, j, true) == Run(s, p, Start(s, p), p.t0, true)
    {
      var exit;
      x, exit := OneBar(s, p, x, j);
      if exit.Some? {
        return Report(p, x, exit.value);
      }
    }
    return Report(p, x, TimeOut(s, p.t0));
  }

  // ---- risk bounds -----------------------------------------------------------------------

  /** On every price path the observed peak risk is the largest risk the fills ever carried and never
      exceeds the theoretical peak; it reaches it when all rungs are filled without a gap. */
  lemma PeakIsBounded(s: Series, p: Params)
    requires p.Fits(s)
    ensures var r := Outcome(s, p, true);
            && r.fills != []
            && r.peakRisk == PeakRisk(r.fills, p.n, STOP_ATR)
            && r.peakRisk <= TheoPeak(p.step, p.sizes, STOP_ATR)
            && (OnRungs(r.fills, p.Gap()) && r.tranches == |p.sizes|
                ==> r.peakRisk == TheoPeak(p.step, p.sizes, STOP_ATR))
  {
    PeakOf(s, p, Run(s, p, Start(s, p), p.t0, true).0);
  }

  lemma PeakOf(s: Series, p: Params, x: Pos)
    requires Good(s, p, x)
    ensures x.peak <= TheoPeak(p.step, p.sizes, STOP_ATR)
    ensures OnRungs(x.fills, p.Gap()) && |x.fills| == |p.sizes| ==> x.peak == TheoPeak(p.step, p.sizes, STOP_ATR)
  {
    PeakBounded(x.fills, p.sizes, p.step, p.n, STOP_ATR, p.Gap());
  }

  /** A position that leaves at its stop line, or right after an add, loses at most the theoretical
      peak. Only a gap, a stage-3 open or the end of the holding period can lose more. */
  lemma StopLossIsBounded(s: Series, p: Params)
    requires p.Fits(s) && p.a0 <= p.n
    ensures var r := Outcome(s, p, true);
            r.exit.why in {LineHit, StopAfterAdd} ==> r.virtualR >= -TheoPeak(p.step, p.sizes, STOP_ATR)
  {
    var x0 := Start(s, p);
    ExitAboveSetLine(s, p, x0, p.t0);
    var (x, exit) := Run(s, p, x0, p.t0, true);
    if exit.why in {LineHit, StopAfterAdd} { LossOf(s, p, x, exit); }
  }

  lemma LossOf(s: Series, p: Params, x: Pos, exit: Exit)
    requires Good(s, p, x) && exit.price >= SetLine(x.fills, p.n, STOP_ATR)
    ensures Report(p, x, exit).virtualR >= -TheoPeak(p.step, p.sizes, STOP_ATR)
  {
    LossWithinTheory(x.fills, p.sizes, p.step, p.n, STOP_ATR, exit.price);
  }

  lemma {:induction false} ExitAboveSetLine(s: Series, p: Params, x: Pos, j: int)
    requires Good(s, p, x) && p.t0 <= j <= LastBar(s, p.t0) + 1
    requires p.a0 <= p.n && x.floor >= s.o[p.t0] - STOP_ATR * p.a0
    ensures var (y, exit) := Run(s, p, x, j, true);
            exit.why in {LineHit, StopAfterAdd} ==> exit.price >= SetLine(y.fills, p.n, STOP_ATR)
    decreases LastBar(s, p.t0) + 1 - j
  {
    if j <= LastBar(s, p.t0) {
      var x1 := Ratcheted(s, p, x, j);
      LineAboveSetLine(s, p, x1, s.atr[j - 1]);
      if ExitAtOpenOrLine(s, p, x1, j).None? {
        AddsKeepLines(s, p, x1, j, true);
        var r := AddsAllowed(s, p, x1, j, true);
        if r.stop.None? {
          ExitAboveSetLine(s, p, r.x.(hsb := MaxR(r.x.hsb, s.h[j])), j + 1);
        }
      }
    }
  }

  lemma LineAboveSetLine(s: Series, p: Params, x: Pos, a: real)
    requires Good(s, p, x) && p.a0 <= p.n && x.floor >= s.o[p.t0] - STOP_ATR * p.a0
    ensures Line(s, p, x, a) >= SetLine(x.fills, p.n, STOP_ATR)
  {
  }

  // ---- the guard that is always true ------------------------------------------------------

  /** The check before each add never stops one: with it or without it, every run is the same. */
  lemma GuardNeverStopsAnAdd(s: Series, p: Params)
    requires p.Fits(s) && p.step > 0.0 && s.o[p.t0] > 0.0
    requires forall j :: 0 <= j < |s.o| ==> s.atr[j] >= 0.0
    ensures Outcome(s, p, true) == Outcome(s, p, false)
  {
    GuardIdleFrom(s, p, Start(s, p), p.t0);
  }

  lemma {:induction false} GuardIdleFrom(s: Series, p: Params, x: Pos, j: int)
    requires Good(s, p, x) && p.t0 <= j <= LastBar(s, p.t0) + 1
    requires p.step > 0.0 && s.o[p.t0] > 0.0 && forall i :: 0 <= i < |s.o| ==> s.atr[i] >= 0.0
    ensures Run(s, p, x, j, true) == Run(s, p, x, j, false)
    decreases LastBar(s, p.t0) + 1 - j
  {
    if j <= LastBar(s, p.t0) {
      var x1 := Ratcheted(s, p, x, j);
      if ExitAtOpenOrLine(s, p, x1, j).None? {
        GuardIdleToday(s, p, x1, j);
        var r := AddsAllowed(s, p, x1, j, true);
        if r.stop.None? {
          RunContinues(s, p, x, j, true);
          RunContinues(s, p, x, j, false);
          GuardIdleFrom(s, p, r.x.(hsb := MaxR(r.x.hsb, s.h[j])), j + 1);
        }
      }
    }
  }

  lemma RunContinues(s: Series, p: Params, x: Pos, j: int, guarded: bool)
    requires Good(s, p, x) && p.t0 <= j <= LastBar(s, p.t0)
    requires ExitAtOpenOrLine(s, p, Ratcheted(s, p, x, j), j).None?
    requires AddsAllowed(s, p, Ratcheted(s, p, x, j), j, guarded).stop.None?
    ensures var r := AddsAllowed(s, p, Ratcheted(s, p, x, j), j, guarded);
            Run(s, p, x, j, guarded) == Run(s, p, r.x.(hsb := MaxR(r.x.hsb, s.h[j])), j + 1, guarded)
  {
  }

  /** On a bar whose open clears the line, the guard stops none of the day's adds. */
  lemma GuardIdleToday(s: Series, p: Params, x: Pos, j: int)
    requires Good(s, p, x) && p.t0 <= j <= LastBar(s, p.t0)
    requires p.step > 0.0 && s.o[p.t0] > 0.0 && s.atr[j - 1] >= 0.0
    requires ExitAtOpenOrLine(s, p, x, j).None?
    ensures AddsAllowed(s, p, x, j, true) == AddsAllowed(s, p, x, j, false)
  {
    if j > p.t0 { GuardIdleOnBar(s, p, x, j); }
  }

  /** While the floor stays under the next fill and the trailing line under the open, each add
      passes the guard and keeps both so. */
  lemma {:induction false} GuardIdleOnBar(s: Series, p: Params, x: Pos, j: int)
    requires Good(s, p, x) && p.t0 <= j < |s.o|
    requires p.step > 0.0 && s.o[p.t0] > 0.0 && s.atr[j - 1] >= 0.0
    requires x.hsb - TRAIL * s.atr[j - 1] < s.o[j] && x.floor < MaxR(Rung(p, x), s.o[j])
    ensures Adds(s, p, x, j, true) == Adds(s, p, x, j, false)
    decreases |p.sizes| - |x.fills|
  {
    if |x.fills| < |p.sizes| && InReach(s, p, x, j) {
      GuardHoldsNow(s, p, x, j);
      var x' := Add(s, p, x, j);
      if s.l[j] > Line(s, p, x', s.atr[j - 1]) {
        MulMono(p.n, 0.0, p.step);
        LadderAvg(x'.fills, p.sizes, p.Gap());
        PositiveGap(p);
        GuardIdleOnBar(s, p, x', j);
      }
    }
  }

  lemma PositiveGap(p: Params)
    requires p.step > 0.0 && p.n > 0.0
    ensures p.Gap() > 0.0
  {
  }

  lemma GuardHoldsNow(s: Series, p: Params, x: Pos, j: int)
    requires Good(s, p, x) && p.t0 <= j < |s.o|
    requires p.step > 0.0 && s.o[p.t0] > 0.0
    requires x.hsb - TRAIL * s.atr[j - 1] < s.o[j] && x.floor < MaxR(Rung(p, x), s.o[j])
    ensures GuardHolds(s, p, x, j)
  {
    PositiveGap(p);
    LadderAvg(x.fills, p.sizes, p.Gap());
  }

  // ---- refinement of the one-lot rule -----------------------------------------------------

  /** A free run that never adds leaves exactly where, when and why the one-lot baseline does. */
  lemma SingleTrancheIsBaseline(s: Series, p: Params)
    requires p.Fits(s) && Outcome(s, p, true).tranches == 1
    ensures Outcome(s, p, true).exit == BaselineExit(s, p.t0, p.a0)
  {
    SingleTrancheFrom(s, p, Start(s, p), p.t0);
  }

  lemma {:induction false} SingleTrancheFrom(s: Series, p: Params, x: Pos, j: int)
    requires Good(s, p, x) && p.t0 <= j <= LastBar(s, p.t0) + 1
    requires |Run(s, p, x, j, true).0.fills| == 1
    ensures Run(s, p, x, j, true).1 == BaseRun(s, p.t0, j, x.floor, x.hsb)
    decreases LastBar(s, p.t0) + 1 - j
  {
    if j <= LastBar(s, p.t0) {
      var x1 := Ratcheted(s, p, x, j);
      SingleTrancheStep(s, p, x, j);
      if ExitAtOpenOrLine(s, p, x1, j).None? {
        var r := AddsAllowed(s, p, x1, j, true);
        SingleTrancheFrom(s, p, r.x.(hsb := MaxR(x.hsb, s.h[j])), j + 1);
        NoAddNoChange(s, p, x1, j);
      }
    }
  }

  lemma SingleTrancheStep(s: Series, p: Params, x: Pos, j: int)
    requires Good(s, p, x) && |x.fills| == 1 && p.t0 <= j < |s.o|
    ensures var x1 := Ratcheted(s, p, x, j);
            && x1.floor == Ratchet(s, p.t0, j, x.floor)
            && x1.hsb == x.hsb
            && ExitAtOpenOrLine(s, p, x1, j) == OneLotExit(s, p.t0, j, x1.floor, x.hsb)
  {
    SingleFillAvg(x.fills);
  }

  lemma NoAddNoChange(s: Series, p: Params, x: Pos, j: int)
    requires Good(s, p, x) && p.t0 <= j < |s.o|
    requires |AddsAllowed(s, p, x, j, true).x.fills| == |x.fills|
    ensures AddsAllowed(s, p, x, j, true) == Added(x, None)
  {
  }
}
