/** The anchored ladder replays: `RunOverlay` and its successor `RunOverlayV2`.

    Both add rungs to a position whose anchor exit is given in advance, and stop the whole set at a
    ladder line. The successor adds a live two-ATR line and lets its line only tighten. */
module Overlay {
  import opened Basics
  import opened Ladder

  datatype Bar = Bar(o: real, h: real, lo: real, cl: real)

  datatype Params = Params(
    e: real, n: real, step: real, sizes: seq<real>, stopAtr: real, hardPct: real, beMult: real,
    beAtr: Option<seq<real>>, noAdd: seq<bool>, anchorIdx: Option<int>, anchorPrice: real,
    anchorAddAllowed: bool, gapMult: real) {

    ghost predicate Fits(bars: seq<Bar>) {
      && bars != [] && |noAdd| == |bars|
      && (beAtr.Some? ==> |beAtr.value| == |bars|)
      && Schedule(sizes) && n > 0.0 && stopAtr > 0.0
    }

    function Gap(): real { step * n }

    predicate IsAnchor(d: int) { anchorIdx == Some(d) }
  }

  datatype Kind = SetStop | AvgBackstop | Existing2nLive | AvgBreakeven | GapOpen | StopAfterAdd | Anchor | StillOpen

  const LINE_KINDS := {SetStop, AvgBackstop, Existing2nLive, AvgBreakeven}

  const STOP_KINDS := LINE_KINDS + {GapOpen, StopAfterAdd}

  datatype Level = Level(price: real, kind: Kind)

  datatype Exit = Exit(idx: int, price: real, kind: Kind)

  /** Loop state. `floor` is the tightest line so far (second form only) and `lines` the prices of
      every ladder line the run has looked at. */
  datatype Pos = Pos(fills: seq<Fill>, hsb: real, floor: Option<Level>, lines: seq<real>)

  datatype Result = Result(tranches: int, fills: seq<Fill>, exit: Exit, virtualR: real, killed: bool, peakRisk: real,
                           setStop: Option<real>, avg: real, lines: seq<real>)

  ghost predicate Good(p: Params, bars: seq<Bar>, x: Pos) {
    p.Fits(bars) && 0 < |x.fills| <= |p.sizes| && Qty(x.fills) > 0.0
  }

  function Start(p: Params, bars: seq<Bar>): (x: Pos)
    requires p.Fits(bars)
    ensures Good(p, bars, x)
  {
    var fills := [Fill(0, p.e, p.sizes[0])];
    assert Qty(fills) == Qty(fills[..0]) + p.sizes[0];
    Pos(fills, bars[0].h, None, [])
  }

  /** The higher line, the earlier one on a tie. */
  function Tighter(a: Level, b: Level): Level { if b.price > a.price then b else a }

  /** The line computed from the day's numbers alone. */
  function RawLine(p: Params, bars: seq<Bar>, x: Pos, d: int, v2: bool): Level
    requires Good(p, bars, x) && 1 <= d < |bars|
  {
    var av := Avg(x.fills);
    var atr := if p.beAtr.Some? then p.beAtr.value[d - 1] else p.n;
    var base := Tighter(Level(SetLine(x.fills, p.n, p.stopAtr), SetStop),
                        Level(av * (1.0 + p.hardPct / 100.0), AvgBackstop));
    var live := if v2 && p.beAtr.Some? then Tighter(base, Level(av - p.stopAtr * atr, Existing2nLive)) else base;
    if p.beMult > 0.0 && x.hsb >= av + p.beMult * atr then Tighter(live, Level(av, AvgBreakeven)) else live
  }

  /** The line in force: the first form uses the day's line, the second the tightest one so far. */
  function LadderLine(p: Params, bars: seq<Bar>, x: Pos, d: int, v2: bool): Level
    requires Good(p, bars, x) && 1 <= d < |bars|
  {
    var raw := RawLine(p, bars, x, d, v2);
    if v2 && x.floor.Some? && raw.price <= x.floor.value.price then x.floor.value else raw
  }

  /** Looking at the line records it, and in the second form makes it the new floor. */
  function Looked(x: Pos, line: Level, v2: bool): Pos {
    x.(lines := x.lines + [line.price], floor := if v2 then Some(line) else None)
  }

  /** At the anchor bar the better of the anchor's price and the stop's is taken. */
  function AtAnchor(p: Params, d: int, price: real, kind: Kind): Exit {
    if p.IsAnchor(d) && p.anchorPrice > price then Exit(d, p.anchorPrice, Anchor) else Exit(d, price, kind)
  }

  function LineExit(p: Params, bar: Bar, d: int, line: Level): Option<Exit> {
    if bar.o <= line.price then Some(AtAnchor(p, d, bar.o, GapOpen))
    else if bar.lo <= line.price then Some(AtAnchor(p, d, line.price, line.kind))
    else None
  }

  function Rung(p: Params, x: Pos): real
    requires x.fills != []
  {
    Last(x.fills) + p.Gap()
  }

  /** There is a size left and the bar reaches its rung without gapping past it. */
  predicate Reachable(p: Params, bars: seq<Bar>, x: Pos, d: int)
    requires Good(p, bars, x) && 1 <= d < |bars|
  {
    |x.fills| < |p.sizes| && bars[d].o < Rung(p, x) * p.gapMult && bars[d].h >= Rung(p, x)
  }

  function Add(p: Params, bars: seq<Bar>, x: Pos, d: int): (y: Pos)
    requires Good(p, bars, x) && |x.fills| < |p.sizes| && 1 <= d < |bars|
    ensures Good(p, bars, y) && |y.fills| == |x.fills| + 1 && x.fills <= y.fills
  {
    var fill := Fill(d, MaxR(Rung(p, x), bars[d].o), p.sizes[|x.fills|]);
    assert (x.fills + [fill])[..|x.fills|] == x.fills;
    x.(fills := x.fills + [fill])
  }

  datatype Outcome = Outcome(x: Pos, exit: Option<Exit>)

  /** One add, and the exit if the bar's low trades through the new line. */
  function AddOne(p: Params, bars: seq<Bar>, x: Pos, d: int, v2: bool): (r: Outcome)
    requires Good(p, bars, x) && 1 <= d < |bars| && Reachable(p, bars, x, d)
    ensures Good(p, bars, r.x) && x.fills <= r.x.fills && |r.x.fills| == |x.fills| + 1
  {
    var y := Add(p, bars, x, d);
    var line := LadderLine(p, bars, y, d, v2);
    Outcome(Looked(y, line, v2),
            if bars[d].lo <= line.price then Some(AtAnchor(p, d, line.price, StopAfterAdd)) else None)
  }

  /** All adds of one bar, up to the first that stops the set. */
  function Adds(p: Params, bars: seq<Bar>, x: Pos, d: int, v2: bool): (r: Outcome)
    requires Good(p, bars, x) && 1 <= d < |bars|
    ensures Good(p, bars, r.x)
    decreases |p.sizes| - |x.fills|
  {
    if !Reachable(p, bars, x, d) then Outcome(x, None)
    else
      var one := AddOne(p, bars, x, d, v2);
      if one.exit.Some? then one else Adds(p, bars, one.x, d, v2)
  }

  /** The stop check that opens a bar, once the set holds two rungs or more. */
  function StopCheck(p: Params, bars: seq<Bar>, x: Pos, d: int, v2: bool): (r: Outcome)
    requires Good(p, bars, x) && 1 <= d < |bars|
    ensures Good(p, bars, r.x) && r.x.fills == x.fills
  {
    if |x.fills| < 2 then Outcome(x, None)
    else
      var line := LadderLine(p, bars, x, d, v2);
      Outcome(Looked(x, line, v2), LineExit(p, bars[d], d, line))
  }

  function BarStep(p: Params, bars: seq<Bar>, x: Pos, d: int, v2: bool): (r: Outcome)
    requires Good(p, bars, x) && 1 <= d < |bars|
    ensures Good(p, bars, r.x)
  {
    var s := StopCheck(p, bars, x, d, v2);
    if s.exit.Some? then s else AfterCheck(p, bars, s.x, d, v2)
  }

  /** The rest of a bar whose stop check found no exit: its adds, then the anchor. */
  function AfterCheck(p: Params, bars: seq<Bar>, x: Pos, d: int, v2: bool): (r: Outcome)
    requires Good(p, bars, x) && 1 <= d < |bars|
    ensures Good(p, bars, r.x)
  {
    var r := if p.noAdd[d] || (p.IsAnchor(d) && !p.anchorAddAllowed) then Outcome(x, None) else Adds(p, bars, x, d, v2);
    if r.exit.None? && p.IsAnchor(d) then Outcome(r.x, Some(Exit(d, p.anchorPrice, Anchor))) else r
  }

  function Run(p: Params, bars: seq<Bar>, x: Pos, d: int, v2: bool): (r: (Pos, Exit))
    requires Good(p, bars, x) && 1 <= d <= |bars|
    ensures Good(p, bars, r.0)
    decreases |bars| - d
  {
    if d == |bars| then (x, Exit(d - 1, bars[d - 1].cl, StillOpen))
    else
      var r := BarStep(p, bars, x, d, v2);
      if r.exit.Some? then (r.x, r.exit.value)
      else Run(p, bars, r.x.(hsb := MaxR(r.x.hsb, bars[d].h)), d + 1, v2)
  }

  function Whole(p: Params, bars: seq<Bar>, v2: bool): (r: (Pos, Exit))
    requires p.Fits(bars)
    ensures Good(p, bars, r.0)
  {
    if p.IsAnchor(0) then (Start(p, bars), Exit(0, p.anchorPrice, Anchor))
    else Run(p, bars, Start(p, bars), 1, v2)
  }

  function Report(p: Params, bars: seq<Bar>, x: Pos, exit: Exit): Result
    requires Good(p, bars, x)
  {
    var k := |x.fills|;
    Result(k, x.fills, exit, VirtualR(x.fills, exit.price, p.n, p.stopAtr),
           k >= 2 && exit.kind in STOP_KINDS && (p.anchorIdx.None? || exit.idx < p.anchorIdx.value),
           PeakRisk(x.fills, p.n, p.stopAtr),
           if k >= 2 then Some(SetLine(x.fills, p.n, p.stopAtr)) else None, Avg(x.fills), x.lines)
  }

  function Replay(p: Params, bars: seq<Bar>, v2: bool): Result
    requires p.Fits(bars)
  {
    Report(p, bars, Whole(p, bars, v2).0, Whole(p, bars, v2).1)
  }

  // ---- the loops -------------------------------------------------------------------------

  method AddRungs(p: Params, bars: seq<Bar>, x0: Pos, d: int, v2: bool) returns (x: Pos, exit: Option<Exit>)
    requires Good(p, bars, x0) && 1 <= d < |bars|
    ensures Outcome(x, exit) == Adds(p, bars, x0, d, v2)
  {
    x := x0;
    while Reachable(p, bars, x, d)
      invariant Good(p, bars, x)
      invariant Adds(p, bars, x, d, v2) == Adds(p, bars, x0, d, v2)
      decreases |p.sizes| - |x.fills|
    {
      var one := AddOne(p, bars, x, d, v2);
      x := one.x;
      if one.exit.Some? {
        return x, one.exit;
      }
    }
    return x, None;
  }

  method OneBar(p: Params, bars: seq<Bar>, x0: Pos, d: int, v2: bool) returns (x: Pos, exit: Option<Exit>)
    requires Good(p, bars, x0) && 1 <= d < |bars|
    ensures Outcome(x, exit) == BarStep(p, bars, x0, d, v2)
  {
    var s := StopCheck(p, bars, x0, d, v2);
    x, exit := s.x, s.exit;
    if exit.None? && !p.noAdd[d] && !(p.IsAnchor(d) && !p.anchorAddAllowed) {
      x, exit := AddRungs(p, bars, x, d, v2);
    }
    if exit.None? && p.IsAnchor(d) {
      exit := Some(Exit(d, p.anchorPrice, Anchor));
    }
  }

  method RunBars(p: Params, bars: seq<Bar>, v2: bool) returns (x: Pos, exit: Exit)
    requires p.Fits(bars)
    ensures (x, exit) == Whole(p, bars, v2)
  {
    x := Start(p, bars);
    if p.IsAnchor(0) {
      return x, Exit(0, p.anchorPrice, Anchor);
    }
    var d := 1;
    while d < |bars|
      invariant 1 <= d <= |bars| && Good(p, bars, x)
      invariant Run(p, bars, x, d, v2) == Whole(p, bars, v2)
    {
      var ex;
      x, ex := OneBar(p, bars, x, d, v2);
      if ex.Some? {
        return x, ex.value;
      }
      x := x.(hsb := MaxR(x.hsb, bars[d].h));
      d := d + 1;
    }
    return x, Exit(|bars| - 1, bars[|bars| - 1].cl, StillOpen);
  }

  method RunOverlay(p: Params, bars: seq<Bar>) returns (r: Result)
    requires p.Fits(bars)
    ensures r == Replay(p, bars, false)
  {
    var x, exit := RunBars(p, bars, false);
    r := Report(p, bars, x, exit);
  }

  method RunOverlayV2(p: Params, bars: seq<Bar>) returns (r: Result)
    requires p.Fits(bars)
    ensures r == Replay(p, bars, true)
  {
    var x, exit := RunBars(p, bars, true);
    r := Report(p, bars, x, exit);
  }

  // ---- risk bounds -----------------------------------------------------------------------

  lemma {:induction false} AddsStayOnLadder(p: Params, bars: seq<Bar>, x: Pos, d: int, v2: bool)
    requires Good(p, bars, x) && OnLadder(x.fills, p.sizes, p.Gap()) && 1 <= d < |bars|
    ensures OnLadder(Adds(p, bars, x, d, v2).x.fills, p.sizes, p.Gap())
    decreases |p.sizes| - |x.fills|
  {
    if Reachable(p, bars, x, d) {
      var one := AddOne(p, bars, x, d, v2);
      LadderExtends(x.fills, p.sizes, p.Gap(), one.x.fills[|x.fills|]);
      if one.exit.None? { AddsStayOnLadder(p, bars, one.x, d, v2); }
    }
  }

  /** The position the next bar starts from. */
  function Carried(bars: seq<Bar>, x: Pos, d: int): Pos
    requires 0 <= d < |bars|
  {
    x.(hsb := MaxR(x.hsb, bars[d].h))
  }

  /** One turn of the loop. */
  lemma RunTurn(p: Params, bars: seq<Bar>, x: Pos, d: int, v2: bool, r: Outcome)
    requires Good(p, bars, x) && 1 <= d < |bars| && r == BarStep(p, bars, x, d, v2)
    ensures r.exit.Some? ==> Run(p, bars, x, d, v2) == (r.x, r.exit.value)
    ensures r.exit.None? ==> Run(p, bars, x, d, v2) == Run(p, bars, Carried(bars, r.x, d), d + 1, v2)
  {
  }

  lemma BarStaysOnLadder(p: Params, bars: seq<Bar>, x: Pos, d: int, v2: bool)
    requires Good(p, bars, x) && OnLadder(x.fills, p.sizes, p.Gap()) && 1 <= d < |bars|
    ensures OnLadder(BarStep(p, bars, x, d, v2).x.fills, p.sizes, p.Gap())
  {
    var s := StopCheck(p, bars, x, d, v2);
    AddsStayOnLadder(p, bars, s.x, d, v2);
  }

  lemma LadderTurn(p: Params, bars: seq<Bar>, x: Pos, d: int, v2: bool, out: (Pos, Exit)) returns (next: Option<Pos>)
    requires Good(p, bars, x) && OnLadder(x.fills, p.sizes, p.Gap()) && 1 <= d < |bars| && out == Run(p, bars, x, d, v2)
    ensures next.None? ==> OnLadder(out.0.fills, p.sizes, p.Gap())
    ensures next.Some? ==>
              && Good(p, bars, next.value) && OnLadder(next.value.fills, p.sizes, p.Gap())
              && out == Run(p, bars, next.value, d + 1, v2)
  {
    var r := BarStep(p, bars, x, d, v2);
    BarStaysOnLadder(p, bars, x, d, v2);
    RunTurn(p, bars, x, d, v2, r);
    next := if r.exit.None? then Some(Carried(bars, r.x, d)) else None;
  }

  lemma {:induction false} RunStaysOnLadder(p: Params, bars: seq<Bar>, x: Pos, d: int, v2: bool, out: (Pos, Exit))
    requires Good(p, bars, x) && OnLadder(x.fills, p.sizes, p.Gap()) && 1 <= d <= |bars|
             && out == Run(p, bars, x, d, v2)
    ensures OnLadder(out.0.fills, p.sizes, p.Gap())
    decreases |bars| - d
  {
    if d < |bars| {
      var next := LadderTurn(p, bars, x, d, v2, out);
      if next.Some? { RunStaysOnLadder(p, bars, next.value, d + 1, v2, out); }
    }
  }

  lemma WholeOnLadder(p: Params, bars: seq<Bar>, v2: bool)
    requires p.Fits(bars)
    ensures OnLadder(Whole(p, bars, v2).0.fills, p.sizes, p.Gap())
  {
    if !p.IsAnchor(0) { RunStaysOnLadder(p, bars, Start(p, bars), 1, v2, Whole(p, bars, v2)); }
  }

  /** On every price path, in both forms, the observed peak risk stays within the theoretical peak,
      even when fills gap above their rung; it equals it when all rungs fill without a gap. */
  lemma PeakIsBounded(p: Params, bars: seq<Bar>, v2: bool)
    requires p.Fits(bars)
    ensures var r := Replay(p, bars, v2);
            && r.peakRisk <= TheoPeak(p.step, p.sizes, p.stopAtr)
            && (OnRungs(r.fills, p.Gap()) && r.tranches == |p.sizes|
                ==> r.peakRisk == TheoPeak(p.step, p.sizes, p.stopAtr))
  {
    WholeOnLadder(p, bars, v2);
    PeakBounded(Whole(p, bars, v2).0.fills, p.sizes, p.step, p.n, p.stopAtr, p.Gap());
  }

  /** An exit at a computed line, or right after an add, loses at most the theoretical peak. */
  lemma StopLossIsBounded(p: Params, bars: seq<Bar>, v2: bool)
    requires p.Fits(bars)
    ensures var r := Replay(p, bars, v2);
            r.exit.kind in LINE_KINDS + {StopAfterAdd} ==> r.virtualR >= -TheoPeak(p.step, p.sizes, p.stopAtr)
  {
    var (x, exit) := Whole(p, bars, v2);
    if !p.IsAnchor(0) { ExitAboveSetLine(p, bars, Start(p, bars), 1, v2, x, exit); }
    WholeOnLadder(p, bars, v2);
    if exit.kind in LINE_KINDS + {StopAfterAdd} { LossOf(p, bars, x, exit); }
  }

  lemma LossOf(p: Params, bars: seq<Bar>, x: Pos, exit: Exit)
    requires Good(p, bars, x) && OnLadder(x.fills, p.sizes, p.Gap()) && exit.price >= SetLine(x.fills, p.n, p.stopAtr)
    ensures Report(p, bars, x, exit).virtualR >= -TheoPeak(p.step, p.sizes, p.stopAtr)
  {
    LossWithinTheory(x.fills, p.sizes, p.step, p.n, p.stopAtr, exit.price);
  }

  lemma ExitTurn(p: Params, bars: seq<Bar>, x: Pos, d: int, v2: bool, y: Pos, exit: Exit) returns (next: Option<Pos>)
    requires Good(p, bars, x) && 1 <= d < |bars| && (y, exit) == Run(p, bars, x, d, v2)
    ensures next.None? && exit.kind in LINE_KINDS + {StopAfterAdd} ==> exit.price >= SetLine(y.fills, p.n, p.stopAtr)
    ensures next.Some? ==> Good(p, bars, next.value) && (y, exit) == Run(p, bars, next.value, d + 1, v2)
  {
    var r := BarStep(p, bars, x, d, v2);
    BarExitAboveSetLine(p, bars, x, d, v2);
    RunTurn(p, bars, x, d, v2, r);
    next := if r.exit.None? then Some(Carried(bars, r.x, d)) else None;
  }

  lemma {:induction false} ExitAboveSetLine(p: Params, bars: seq<Bar>, x: Pos, d: int, v2: bool, y: Pos, exit: Exit)
    requires Good(p, bars, x) && 1 <= d <= |bars| && (y, exit) == Run(p, bars, x, d, v2)
    ensures exit.kind in LINE_KINDS + {StopAfterAdd} ==> exit.price >= SetLine(y.fills, p.n, p.stopAtr)
    decreases |bars| - d
  {
    if d < |bars| {
      var next := ExitTurn(p, bars, x, d, v2, y, exit);
      if next.Some? { ExitAboveSetLine(p, bars, next.value, d + 1, v2, y, exit); }
    }
  }

  lemma BarExitAboveSetLine(p: Params, bars: seq<Bar>, x: Pos, d: int, v2: bool)
    requires Good(p, bars, x) && 1 <= d < |bars|
    ensures ExitAbove(p, bars, BarStep(p, bars, x, d, v2))
  {
    LineAboveSetLine(p, bars, x, d, v2);
    var s := StopCheck(p, bars, x, d, v2);
    if s.exit.None? { AddStopAboveSetLine(p, bars, s.x, d, v2); }
  }

  ghost predicate ExitAbove(p: Params, bars: seq<Bar>, r: Outcome)
    requires Good(p, bars, r.x)
  {
    r.exit.Some? && r.exit.value.kind in LINE_KINDS + {StopAfterAdd} ==>
      r.exit.value.price >= SetLine(r.x.fills, p.n, p.stopAtr)
  }

  lemma LineAboveSetLine(p: Params, bars: seq<Bar>, x: Pos, d: int, v2: bool)
    requires Good(p, bars, x) && 1 <= d < |bars|
    ensures LadderLine(p, bars, x, d, v2).price >= SetLine(x.fills, p.n, p.stopAtr)
  {
  }

  lemma {:induction false} AddStopAboveSetLine(p: Params, bars: seq<Bar>, x: Pos, d: int, v2: bool)
    requires Good(p, bars, x) && 1 <= d < |bars|
    ensures ExitAbove(p, bars, Adds(p, bars, x, d, v2))
    decreases |p.sizes| - |x.fills|
  {
    if Reachable(p, bars, x, d) {
      var one := AddOne(p, bars, x, d, v2);
      LineAboveSetLine(p, bars, Add(p, bars, x, d), d, v2);
      if one.exit.None? { AddStopAboveSetLine(p, bars, one.x, d, v2); }
    }
  }

  // ---- the second form against the first --------------------------------------------------

  /** The two runs stand at the same position; only the second form's floor and line record differ. */
  ghost predicate SamePosition(x1: Pos, x2: Pos) {
    x1.fills == x2.fills && x1.hsb == x2.hsb
  }

  lemma SecondLineDominates(p: Params, bars: seq<Bar>, x1: Pos, x2: Pos, d: int)
    requires Good(p, bars, x1) && Good(p, bars, x2) && SamePosition(x1, x2) && 1 <= d < |bars|
    ensures LadderLine(p, bars, x1, d, false).price <= LadderLine(p, bars, x2, d, true).price
  {
    SecondRawDominates(p, bars, x1, x2, d);
  }

  lemma SecondRawDominates(p: Params, bars: seq<Bar>, x1: Pos, x2: Pos, d: int)
    requires Good(p, bars, x1) && Good(p, bars, x2) && SamePosition(x1, x2) && 1 <= d < |bars|
    ensures RawLine(p, bars, x1, d, false).price <= RawLine(p, bars, x2, d, true).price
  {
  }

  /** The second form never leaves later and never holds more: its exit bar is no later, its fills are
      a prefix of the first form's, and so is its peak risk no larger. */
  lemma SecondFormIsTighter(p: Params, bars: seq<Bar>)
    requires p.Fits(bars)
    ensures var (r1, r2) := (Replay(p, bars, false), Replay(p, bars, true));
            && r2.exit.idx <= r1.exit.idx
            && r2.fills <= r1.fills && r2.tranches <= r1.tranches
            && r2.peakRisk <= r1.peakRisk
  {
    var x := Start(p, bars);
    if !p.IsAnchor(0) { TighterFrom(p, bars, x, x, 1); }
    PeakOfPrefix(Whole(p, bars, true).0.fills, Whole(p, bars, false).0.fills, p.n, p.stopAtr);
  }

  lemma {:induction false} PeakOfPrefix(f: seq<Fill>, g: seq<Fill>, n: real, stopAtr: real)
    requires f != [] && f <= g && stopAtr * n != 0.0
    ensures PeakRisk(f, n, stopAtr) <= PeakRisk(g, n, stopAtr)
    decreases |g|
  {
    if |f| == |g| { assert f == g; } else { PeakOfPrefix(f, g[..|g| - 1], n, stopAtr); }
  }

  lemma {:induction false} TighterFrom(p: Params, bars: seq<Bar>, x1: Pos, x2: Pos, d: int)
    requires Good(p, bars, x1) && Good(p, bars, x2) && SamePosition(x1, x2) && 1 <= d <= |bars|
    ensures var ((y1, e1), (y2, e2)) := (Run(p, bars, x1, d, false), Run(p, bars, x2, d, true));
            e2.idx <= e1.idx && y2.fills <= y1.fills
    decreases |bars| - d
  {
    if d < |bars| {
      var (r1, r2) := (BarStep(p, bars, x1, d, false), BarStep(p, bars, x2, d, true));
      TighterBar(p, bars, x1, x2, d);
      RunTurn(p, bars, x1, d, false, r1);
      RunTurn(p, bars, x2, d, true, r2);
      if r2.exit.None? {
        TighterFrom(p, bars, Carried(bars, r1.x, d), Carried(bars, r2.x, d), d + 1);
      } else if r1.exit.None? {
        RunGrows(p, bars, Carried(bars, r1.x, d), d + 1);
      }
    }
  }

  lemma {:induction false} RunGrows(p: Params, bars: seq<Bar>, x: Pos, d: int)
    requires Good(p, bars, x) && 1 < d <= |bars|
    ensures var (y, e) := Run(p, bars, x, d, false);
            e.idx >= d - 1 && x.fills <= y.fills
    decreases |bars| - d
  {
    if d < |bars| {
      var r := BarStep(p, bars, x, d, false);
      BarGrows(p, bars, x, d);
      RunTurn(p, bars, x, d, false, r);
      if r.exit.None? { RunGrows(p, bars, Carried(bars, r.x, d), d + 1); }
    }
  }

  lemma BarGrows(p: Params, bars: seq<Bar>, x: Pos, d: int)
    requires Good(p, bars, x) && 1 <= d < |bars|
    ensures var r := BarStep(p, bars, x, d, false);
            x.fills <= r.x.fills && (r.exit.Some? ==> r.exit.value.idx == d)
  {
    var s := StopCheck(p, bars, x, d, false);
    if s.exit.None? { AfterGrows(p, bars, s.x, d); }
  }

  lemma {:induction false} AddsGrow(p: Params, bars: seq<Bar>, x: Pos, d: int)
    requires Good(p, bars, x) && 1 <= d < |bars|
    ensures var r := Adds(p, bars, x, d, false);
            x.fills <= r.x.fills && (r.exit.Some? ==> r.exit.value.idx == d)
    decreases |p.sizes| - |x.fills|
  {
    if Reachable(p, bars, x, d) {
      var one := AddOne(p, bars, x, d, false);
      if one.exit.None? { AddsGrow(p, bars, one.x, d); }
    }
  }

  /** One bar: the second form leaves whenever the first does, with no more rungs; while it stays, so
      does the first, at the same position. */
  lemma TighterBar(p: Params, bars: seq<Bar>, x1: Pos, x2: Pos, d: int)
    requires Good(p, bars, x1) && Good(p, bars, x2) && SamePosition(x1, x2) && 1 <= d < |bars|
    ensures Matches(BarStep(p, bars, x1, d, false), BarStep(p, bars, x2, d, true), d)
  {
    var (s1, s2) := (StopCheck(p, bars, x1, d, false), StopCheck(p, bars, x2, d, true));
    TighterCheck(p, bars, x1, x2, d);
    if s2.exit.None? { TighterAfter(p, bars, s1.x, s2.x, d); } else if s1.exit.None? { AfterGrows(p, bars, s1.x, d); }
  }

  /** The stop check: the second form stops whenever the first does. */
  lemma TighterCheck(p: Params, bars: seq<Bar>, x1: Pos, x2: Pos, d: int)
    requires Good(p, bars, x1) && Good(p, bars, x2) && SamePosition(x1, x2) && 1 <= d < |bars|
    ensures var (s1, s2) := (StopCheck(p, bars, x1, d, false), StopCheck(p, bars, x2, d, true));
            SamePosition(s1.x, s2.x) && Matches(s1, s2, d)
  {
    SecondLineDominates(p, bars, x1, x2, d);
  }

  lemma TighterAfter(p: Params, bars: seq<Bar>, x1: Pos, x2: Pos, d: int)
    requires Good(p, bars, x1) && Good(p, bars, x2) && SamePosition(x1, x2) && 1 <= d < |bars|
    ensures Matches(AfterCheck(p, bars, x1, d, false), AfterCheck(p, bars, x2, d, true), d)
  {
    TighterAdds(p, bars, x1, x2, d);
  }

  lemma AfterGrows(p: Params, bars: seq<Bar>, x: Pos, d: int)
    requires Good(p, bars, x) && 1 <= d < |bars|
    ensures var r := AfterCheck(p, bars, x, d, false);
            x.fills <= r.x.fills && (r.exit.Some? ==> r.exit.value.idx == d)
  {
    AddsGrow(p, bars, x, d);
  }

  ghost predicate Matches(r1: Outcome, r2: Outcome, d: int) {
    && (r1.exit.Some? ==> r2.exit.Some? && r1.exit.value.idx == d)
    && (r2.exit.Some? ==> r2.exit.value.idx == d)
    && (if r2.exit.None? then SamePosition(r1.x, r2.x) else r2.x.fills <= r1.x.fills)
  }

  /** One add on both sides: same fill, and the second form stops whenever the first does. */
  lemma TighterAdd(p: Params, bars: seq<Bar>, x1: Pos, x2: Pos, d: int)
    requires Good(p, bars, x1) && Good(p, bars, x2) && SamePosition(x1, x2) && 1 <= d < |bars|
    requires Reachable(p, bars, x1, d) && Reachable(p, bars, x2, d)
    ensures var (one1, one2) := (AddOne(p, bars, x1, d, false), AddOne(p, bars, x2, d, true));
            SamePosition(one1.x, one2.x) && Matches(one1, one2, d)
  {
    SecondLineDominates(p, bars, Add(p, bars, x1, d), Add(p, bars, x2, d), d);
  }

  /** The second form stops at this add: the first stops here too or goes on adding. */
  lemma TighterStop(p: Params, bars: seq<Bar>, x1: Pos, x2: Pos, d: int)
    requires Good(p, bars, x1) && Good(p, bars, x2) && 1 <= d < |bars|
    requires Reachable(p, bars, x1, d) && Reachable(p, bars, x2, d)
    requires var (one1, one2) := (AddOne(p, bars, x1, d, false), AddOne(p, bars, x2, d, true));
             SamePosition(one1.x, one2.x) && Matches(one1, one2, d) && one2.exit.Some?
    ensures Matches(Adds(p, bars, x1, d, false), Adds(p, bars, x2, d, true), d)
  {
    var one1 := AddOne(p, bars, x1, d, false);
    if one1.exit.None? { AddsGrow(p, bars, one1.x, d); }
  }

  lemma {:induction false} TighterAdds(p: Params, bars: seq<Bar>, x1: Pos, x2: Pos, d: int)
    requires Good(p, bars, x1) && Good(p, bars, x2) && SamePosition(x1, x2) && 1 <= d < |bars|
    ensures Matches(Adds(p, bars, x1, d, false), Adds(p, bars, x2, d, true), d)
    decreases |p.sizes| - |x1.fills|
  {
    if !Reachable(p, bars, x1, d) {
      assert !Reachable(p, bars, x2, d);
    } else {
      TighterAdd(p, bars, x1, x2, d);
      var (one1, one2) := (AddOne(p, bars, x1, d, false), AddOne(p, bars, x2, d, true));
      if one2.exit.Some? { TighterStop(p, bars, x1, x2, d); } else { TighterAdds(p, bars, one1.x, one2.x, d); }
    }
  }

  // ---- the second form's line only tightens -----------------------------------------------

  ghost predicate NonDecreasing(s: seq<real>) {
    forall i, j :: 0 <= i < j < |s| ==> s[i] <= s[j]
  }

  /** Every line looked at so far is at most the floor, and they never went down. */
  ghost predicate Tightening(x: Pos) {
    && NonDecreasing(x.lines)
    && (x.floor.None? ==> x.lines == [])
    && (x.floor.Some? ==> forall i :: 0 <= i < |x.lines| ==> x.lines[i] <= x.floor.value.price)
  }

  /** Over the whole run the second form's ladder line never loosens. */
  lemma SecondLineNeverLoosens(p: Params, bars: seq<Bar>)
    requires p.Fits(bars)
    ensures NonDecreasing(Replay(p, bars, true).lines)
  {
    if !p.IsAnchor(0) { TighteningFrom(p, bars, Start(p, bars), 1, Whole(p, bars, true)); }
  }

  lemma TighteningTurn(p: Params, bars: seq<Bar>, x: Pos, d: int, out: (Pos, Exit)) returns (next: Option<Pos>)
    requires Good(p, bars, x) && Tightening(x) && 1 <= d < |bars| && out == Run(p, bars, x, d, true)
    ensures next.None? ==> Tightening(out.0)
    ensures next.Some? ==>
              && Good(p, bars, next.value) && Tightening(next.value)
              && out == Run(p, bars, next.value, d + 1, true)
  {
    var r := BarStep(p, bars, x, d, true);
    TighteningBar(p, bars, x, d);
    RunTurn(p, bars, x, d, true, r);
    next := if r.exit.None? then Some(Carried(bars, r.x, d)) else None;
  }

  lemma {:induction false} TighteningFrom(p: Params, bars: seq<Bar>, x: Pos, d: int, out: (Pos, Exit))
    requires Good(p, bars, x) && Tightening(x) && 1 <= d <= |bars| && out == Run(p, bars, x, d, true)
    ensures Tightening(out.0)
    decreases |bars| - d
  {
    if d < |bars| {
      var next := TighteningTurn(p, bars, x, d, out);
      if next.Some? { TighteningFrom(p, bars, next.value, d + 1, out); }
    }
  }

  lemma TighteningBar(p: Params, bars: seq<Bar>, x: Pos, d: int)
    requires Good(p, bars, x) && Tightening(x) && 1 <= d < |bars|
    ensures Tightening(BarStep(p, bars, x, d, true).x)
  {
    var s := StopCheck(p, bars, x, d, true);
    assert Tightening(s.x);
    if s.exit.None? { TighteningAdds(p, bars, s.x, d); }
  }

  lemma {:induction false} TighteningAdds(p: Params, bars: seq<Bar>, x: Pos, d: int)
    requires Good(p, bars, x) && Tightening(x) && 1 <= d < |bars|
    ensures Tightening(Adds(p, bars, x, d, true).x)
    decreases |p.sizes| - |x.fills|
  {
    if Reachable(p, bars, x, d) {
      var one := AddOne(p, bars, x, d, true);
      assert Tightening(one.x);
      if one.exit.None? { TighteningAdds(p, bars, one.x, d); }
    }
  }
}
