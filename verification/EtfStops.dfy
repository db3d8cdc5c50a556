/** The two ETF exit rules: the kojiro stop (hard, break-even, trailing, stage 3) and the Donchian
    stop (the same plus a ten-bar channel and the breakout line). */
module EtfStops {
  import opened Basics

  datatype Data = Data(o: seq<real>, h: seq<real>, l: seq<real>, c: seq<real>, stage: seq<int>,
                       atr20: seq<real>, n14: seq<real>, hiPrev20: seq<real>) {
    /** `j` is a signal bar with an entry bar after it. */
    ghost predicate Signal(j: int) {
      && 0 <= j && j + 1 < |o|
      && |o| == |h| == |l| == |c| == |stage| == |atr20| == |n14| == |hiPrev20|
    }

    /** Lows do not exceed closes. */
    ghost predicate LowsUnderCloses()
      requires |l| == |c|
    {
      forall k :: 0 <= k < |l| ==> l[k] <= c[k]
    }
  }

  datatype Reason = Hard | Breakeven | Trail | Stage3 | StopGap | End
                  | StopHit | Chan10 | BelowLine | Chan10Gap | BelowLineGap

  datatype Exit = Exit(idx: int, price: real, reason: Reason)

  /** `None` stands for minus infinity. */
  function Higher(a: real, b: Option<real>): real {
    if b.Some? then MaxR(a, b.value) else a
  }

  predicate Below(x: real, line: Option<real>) { line.Some? && x < line.value }

  /** Highest price seen since entry, none before the first bar. */
  function Seen(hsb: Option<real>, h: real): (r: Option<real>)
    ensures r.Some? && r.value >= h && (hsb.Some? ==> r.value >= hsb.value)
  {
    Some(Higher(h, hsb))
  }

  ghost predicate NonDecreasing(s: seq<real>) {
    forall a, b :: 0 <= a < b < |s| ==> s[a] <= s[b]
  }

  /** Stops so far never went down and `stop` is the latest. */
  ghost predicate Ratchets(stops: seq<real>, stop: real) {
    NonDecreasing(stops) && stops != [] && stops[|stops| - 1] == stop
  }

  lemma RatchetOn(stops: seq<real>, stop: real, next: real)
    requires Ratchets(stops, stop) && stop <= next
    ensures Ratchets(stops + [next], next)
  {
  }

  // ---- kojiro ----------------------------------------------------------------------------

  /** Lines of a kojiro position: the break-even line, once set, stays; the trail follows the high. */
  datatype Lines = Lines(hard: real, breakeven: Option<real>, trail: Option<real>) {
    function Stop(): real { Higher(Higher(hard, breakeven), trail) }

    /** Which line is the stop; a later line wins a tie. */
    function Name(): Reason {
      if trail.Some? && trail.value >= Higher(hard, breakeven) then Trail
      else if breakeven.Some? && breakeven.value >= hard then Breakeven
      else Hard
    }
  }

  function KojiroHard(d: Data, j: int): real
    requires d.Signal(j)
  {
    MaxR(d.o[j + 1] - 2.0 * d.atr20[j], d.o[j + 1] * 0.92)
  }

  function KojiroNext(d: Data, j: int, lines: Lines, hsb: real): Lines
    requires d.Signal(j)
  {
    var e, a := d.o[j + 1], d.atr20[j];
    Lines(lines.hard, if hsb >= e + 1.5 * a then Some(e) else lines.breakeven, Some(hsb - 2.5 * a))
  }

  function KojiroRun(d: Data, j: int, k: int, lines: Lines, hsb: Option<real>, pending: bool,
                     stops: seq<real>): (Exit, seq<real>)
    requires d.Signal(j) && j + 1 <= k <= |d.o|
    decreases |d.o| - k
  {
    var n, stop := |d.o|, lines.Stop();
    if k == n then (Exit(n - 1, d.c[n - 1], End), stops)
    else if pending then (Exit(k, d.o[k], Stage3), stops)
    else if d.o[k] <= stop then (Exit(k, d.o[k], StopGap), stops)
    else if d.l[k] <= stop then (Exit(k, stop, lines.Name()), stops)
    else
      var hsb' := Seen(hsb, d.h[k]);
      var lines' := KojiroNext(d, j, lines, hsb'.value);
      KojiroRun(d, j, k + 1, lines', hsb', d.stage[k] == 3, stops + [lines'.Stop()])
  }

  /** The exit, and every stop the position stood under. */
  function Kojiro(d: Data, j: int): (Exit, seq<real>)
    requires d.Signal(j)
  {
    var hard := KojiroHard(d, j);
    KojiroRun(d, j, j + 1, Lines(hard, None, None), None, false, [hard])
  }

  method SimKojiro(d: Data, j: int) returns (x: Exit)
    requires d.Signal(j)
    ensures x == Kojiro(d, j).0
  {
    var e, a, n := d.o[j + 1], d.atr20[j], |d.o|;
    var lines := Lines(MaxR(e - 2.0 * a, e * 0.92), None, None);
    var stop, hsb: Option<real> := lines.hard, None;
    var stage3Pending := false;
    ghost var stops := [stop];
    for k := j + 1 to n
      invariant stop == lines.Stop()
      invariant KojiroRun(d, j, k, lines, hsb, stage3Pending, stops) == Kojiro(d, j)
    {
      if stage3Pending {
        return Exit(k, d.o[k], Stage3);
      }
      if d.o[k] <= stop {
        return Exit(k, d.o[k], StopGap);
      }
      if d.l[k] <= stop {
        return Exit(k, stop, lines.Name());
      }
      hsb := Seen(hsb, d.h[k]);
      if hsb.value >= e + 1.5 * a {
        lines := lines.(breakeven := Some(e));
      }
      lines := lines.(trail := Some(hsb.value - 2.5 * a));
      stop := lines.Stop();
      stops := stops + [stop];
      if d.stage[k] == 3 {
        stage3Pending := true;
      }
    }
    return Exit(n - 1, d.c[n - 1], End);
  }

  /** The kojiro stop never loosens. A loss of more than one R is possible only at an open: one that
      gaps through the stop, or the open after a stage-3 close. */
  lemma KojiroIsSafe(d: Data, j: int)
    requires d.Signal(j) && d.LowsUnderCloses() && d.atr20[j] > 0.0
    ensures NonDecreasing(Kojiro(d, j).1)
    ensures var x := Kojiro(d, j).0;
            && j < x.idx < |d.o|
            && (x.reason in {StopGap, Stage3} ==> x.price == d.o[x.idx])
            && (x.reason !in {StopGap, Stage3} ==> x.price - d.o[j + 1] >= -(2.0 * d.atr20[j]))
  {
    var hard := KojiroHard(d, j);
    KojiroSafeFrom(d, j, j + 1, Lines(hard, None, None), None, false, [hard]);
  }

  /** What the loop keeps: the trail sits 2.5 ATR under the high, every line at or over the hard one. */
  ghost predicate KojiroInv(d: Data, j: int, lines: Lines, hsb: Option<real>, stops: seq<real>)
    requires d.Signal(j)
  {
    && lines.hard == KojiroHard(d, j)
    && Ratchets(stops, lines.Stop())
    && (hsb.Some? <==> lines.trail.Some?)
    && (hsb.Some? ==> lines.trail.value == hsb.value - 2.5 * d.atr20[j])
    && (lines.breakeven.Some? ==> lines.breakeven.value == d.o[j + 1])
  }

  lemma {:induction false} KojiroSafeFrom(d: Data, j: int, k: int, lines: Lines, hsb: Option<real>, pending: bool,
                                          stops: seq<real>)
    requires d.Signal(j) && d.LowsUnderCloses() && d.atr20[j] > 0.0 && j + 1 <= k <= |d.o|
    requires KojiroInv(d, j, lines, hsb, stops)
    requires k == |d.o| ==> d.c[k - 1] >= KojiroHard(d, j)
    ensures var (x, all) := KojiroRun(d, j, k, lines, hsb, pending, stops);
            && NonDecreasing(all)
            && j < x.idx < |d.o|
            && (x.reason in {StopGap, Stage3} ==> x.price == d.o[x.idx])
            && (x.reason !in {StopGap, Stage3} ==> x.price - d.o[j + 1] >= -(2.0 * d.atr20[j]))
    decreases |d.o| - k
  {
    if k < |d.o| && !pending && d.o[k] > lines.Stop() && d.l[k] > lines.Stop() {
      var hsb' := Seen(hsb, d.h[k]);
      var lines' := KojiroNext(d, j, lines, hsb'.value);
      RatchetOn(stops, lines.Stop(), lines'.Stop());
      KojiroSafeFrom(d, j, k + 1, lines', hsb', d.stage[k] == 3, stops + [lines'.Stop()]);
    }
  }

  // ---- Donchian --------------------------------------------------------------------------

  function LowOf(s: seq<real>): real
    requires s != []
  {
    if |s| == 1 then s[0] else MinR(LowOf(s[..|s| - 1]), s[|s| - 1])
  }

  lemma {:induction false} LowOfIsLowest(s: seq<real>)
    requires s != []
    ensures LowOf(s) in s && forall i :: 0 <= i < |s| ==> LowOf(s) <= s[i]
  {
    if |s| > 1 {
      LowOfIsLowest(s[..|s| - 1]);
      assert s == s[..|s| - 1] + [s[|s| - 1]];
    }
  }

  /** Lowest low of the ten bars before `k`, from the bar after entry on. */
  function Channel(d: Data, j: int, k: int): Option<real>
    requires d.Signal(j) && j + 1 <= k < |d.o|
  {
    if k >= j + 2 then Some(LowOf(d.l[MaxI(0, k - 10)..k])) else None
  }

  /** The breakout line, watched intraday from two bars after entry when `intraday` is on. */
  function Intraday(d: Data, j: int, k: int, intraday: bool): Option<real>
    requires d.Signal(j)
  {
    if intraday && k >= j + 3 then Some(d.hiPrev20[j]) else None
  }

  function Rank(r: Reason): int {
    match r
    case StopHit => 2
    case Chan10 => 1
    case _ => 0
  }

  /** The higher trigger; on equal prices the name that sorts last. */
  function Top(a: Option<(real, Reason)>, b: (real, Reason)): (real, Reason) {
    if a.None? || b.0 > a.value.0 || (b.0 == a.value.0 && Rank(b.1) > Rank(a.value.1)) then b else a.value
  }

  /** The line traded through during the bar, if any: the highest one. */
  function Trigger(low: real, stop: real, ch: Option<real>, ln: Option<real>): Option<(real, Reason)> {
    var t0: Option<(real, Reason)> := if low <= stop then Some((stop, StopHit)) else None;
    var t1 := if Below(low, ch) then Some(Top(t0, (ch.value, Chan10))) else t0;
    if Below(low, ln) then Some(Top(t1, (ln.value, BelowLine))) else t1
  }

  function OpenReason(open: real, stop: real, ch: Option<real>): Reason {
    if open <= stop then StopGap else if Below(open, ch) then Chan10Gap else BelowLineGap
  }

  function DonchianHard(d: Data, j: int): real
    requires d.Signal(j)
  {
    MaxR(d.o[j + 1] - 2.0 * d.n14[j], d.o[j + 1] * 0.91)
  }

  function DonchianStop(d: Data, j: int, hsb: real): real
    requires d.Signal(j)
  {
    var e, n := d.o[j + 1], d.n14[j];
    Higher(MaxR(DonchianHard(d, j), hsb - 1.8 * n), if hsb >= e + 1.5 * n then Some(e) else None)
  }

  /** What bar `k` does to a position standing under `stop`. */
  function DonchianBar(d: Data, j: int, k: int, stop: real, intraday: bool): Option<Exit>
    requires d.Signal(j) && j + 1 <= k < |d.o|
  {
    var ch, ln := Channel(d, j, k), Intraday(d, j, k, intraday);
    if d.o[k] <= stop || Below(d.o[k], ch) || Below(d.o[k], ln) then Some(Exit(k, d.o[k], OpenReason(d.o[k], stop, ch)))
    else
      match Trigger(d.l[k], stop, ch, ln)
      case Some(t) => Some(Exit(k, t.0, t.1))
      case None =>
        if !intraday && k >= j + 3 && d.c[k] < d.hiPrev20[j] then Some(Exit(k, d.c[k], BelowLine)) else None
  }

  function DonchianRun(d: Data, j: int, k: int, stop: real, hsb: Option<real>, intraday: bool,
                       stops: seq<real>): (Exit, seq<real>)
    requires d.Signal(j) && j + 1 <= k <= |d.o|
    decreases |d.o| - k
  {
    var n := |d.o|;
    if k == n then (Exit(n - 1, d.c[n - 1], End), stops)
    else
      match DonchianBar(d, j, k, stop, intraday)
      case Some(x) => (x, stops)
      case None =>
        var hsb' := Seen(hsb, d.h[k]);
        var stop' := DonchianStop(d, j, hsb'.value);
        DonchianRun(d, j, k + 1, stop', hsb', intraday, stops + [stop'])
  }

  function Donchian(d: Data, j: int, intraday: bool): (Exit, seq<real>)
    requires d.Signal(j)
  {
    var hard := DonchianHard(d, j);
    DonchianRun(d, j, j + 1, hard, None, intraday, [hard])
  }

  method LowestLow(s: seq<real>) returns (r: real)
    requires s != []
    ensures r == LowOf(s)
    ensures r in s && forall i :: 0 <= i < |s| ==> r <= s[i]
  {
    r := s[0];
    for i := 1 to |s|
      invariant r == LowOf(s[..i])
    {
      assert s[..i + 1][..i] == s[..i];
      r := MinR(r, s[i]);
    }
    assert s[..|s|] == s;
    LowOfIsLowest(s);
  }

  /** What one bar does to the position: an exit, or none. */
  method DonchianOneBar(d: Data, j: int, k: int, stop: real, intraday: bool) returns (x: Option<Exit>)
    requires d.Signal(j) && j + 1 <= k < |d.o|
    ensures x == DonchianBar(d, j, k, stop, intraday)
  {
    var line := d.hiPrev20[j];
    var ch: Option<real> := None;
    if k >= j + 2 {
      var low := LowestLow(d.l[MaxI(0, k - 10)..k]);
      ch := Some(low);
    }
    var ln := if intraday && k >= j + 3 then Some(line) else None;
    if d.o[k] <= stop || Below(d.o[k], ch) || Below(d.o[k], ln) {
      return Some(Exit(k, d.o[k], OpenReason(d.o[k], stop, ch)));
    }
    var trig := Trigger(d.l[k], stop, ch, ln);
    if trig.Some? {
      return Some(Exit(k, trig.value.0, trig.value.1));
    }
    if !intraday && k >= j + 3 && d.c[k] < line {
      return Some(Exit(k, d.c[k], BelowLine));
    }
    return None;
  }

  method SimDonchian(d: Data, j: int, intraday: bool) returns (x: Exit)
    requires d.Signal(j)
    ensures x == Donchian(d, j, intraday).0
  {
    var e, a, n := d.o[j + 1], d.n14[j], |d.o|;
    var hard := MaxR(e - 2.0 * a, e * 0.91);
    var stop, hsb: Option<real> := hard, None;
    ghost var stops := [stop];
    for k := j + 1 to n
      invariant DonchianRun(d, j, k, stop, hsb, intraday, stops) == Donchian(d, j, intraday)
    {
      var exit := DonchianOneBar(d, j, k, stop, intraday);
      if exit.Some? {
        return exit.value;
      }
      hsb := Seen(hsb, d.h[k]);
      stop := DonchianStop(d, j, hsb.value);
      stops := stops + [stop];
    }
    return Exit(n - 1, d.c[n - 1], End);
  }

  /** The Donchian stop never loosens either, and only an open through it can lose more than one R:
      channel and breakout-line exits, gaps included, cannot. */
  lemma DonchianIsSafe(d: Data, j: int, intraday: bool)
    requires d.Signal(j) && d.LowsUnderCloses() && d.n14[j] > 0.0
    ensures NonDecreasing(Donchian(d, j, intraday).1)
    ensures var x := Donchian(d, j, intraday).0;
            && j < x.idx < |d.o|
            && (x.reason == StopGap ==> x.price == d.o[x.idx])
            && (x.reason != StopGap ==> x.price - d.o[j + 1] >= -(2.0 * d.n14[j]))
  {
    var hard := DonchianHard(d, j);
    DonchianSafeFrom(d, j, j + 1, hard, None, intraday, [hard]);
  }

  lemma DonchianBarIsSafe(d: Data, j: int, k: int, stop: real, intraday: bool)
    requires d.Signal(j) && d.LowsUnderCloses() && j + 1 <= k < |d.o| && stop >= DonchianHard(d, j)
    ensures var x := DonchianBar(d, j, k, stop, intraday);
            if x.None? then d.l[k] > stop
            else x.value.idx == k && (if x.value.reason == StopGap then x.value.price == d.o[k]
                                      else x.value.price >= stop)
  {
  }

  lemma {:induction false} DonchianSafeFrom(d: Data, j: int, k: int, stop: real, hsb: Option<real>, intraday: bool,
                                            stops: seq<real>)
    requires d.Signal(j) && d.LowsUnderCloses() && d.n14[j] > 0.0 && j + 1 <= k <= |d.o|
    requires Ratchets(stops, stop)
    requires stop == if hsb.Some? then DonchianStop(d, j, hsb.value) else DonchianHard(d, j)
    requires k == |d.o| ==> d.c[k - 1] >= DonchianHard(d, j)
    ensures var (x, all) := DonchianRun(d, j, k, stop, hsb, intraday, stops);
            && NonDecreasing(all)
            && j < x.idx < |d.o|
            && (x.reason == StopGap ==> x.price == d.o[x.idx])
            && (x.reason != StopGap ==> x.price - d.o[j + 1] >= -(2.0 * d.n14[j]))
    decreases |d.o| - k
  {
    if k < |d.o| {
      DonchianBarIsSafe(d, j, k, stop, intraday);
      if DonchianBar(d, j, k, stop, intraday).None? {
        var hsb' := Seen(hsb, d.h[k]);
        var stop' := DonchianStop(d, j, hsb'.value);
        RatchetOn(stops, stop, stop');
        DonchianSafeFrom(d, j, k + 1, stop', hsb', intraday, stops + [stop']);
      }
    }
  }
}
