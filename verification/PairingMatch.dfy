/** Matching completions to the lines that name no order: nearest, and once only. */
module PairingMatch {
  import opened Basics
  import opened Journal
  import opened Pairing
  import opened PairingPurge

  // ---- nearest ---------------------------------------------------------------------------

  ghost predicate Nearest(dones: seq<Done>, i: nat, side: Side, ticker: string, ts: Time, qty: Option<int>) {
    && i < |dones| && Eligible(dones[i], side, ticker, qty)
    && forall j :: 0 <= j < |dones| && Eligible(dones[j], side, ticker, qty) ==>
         Gap(dones[i].ts, ts) <= Gap(dones[j].ts, ts) && (j > i ==> Gap(dones[i].ts, ts) < Gap(dones[j].ts, ts))
  }

  /** A completion is found exactly when one is eligible; it is a nearest one, the last of several. */
  lemma {:induction false} BestDoneIsNearest(dones: seq<Done>, side: Side, ticker: string, ts: Time, qty: Option<int>)
    ensures var best := BestDone(dones, side, ticker, ts, qty);
            && (best.Some? ==> Nearest(dones, best.value, side, ticker, ts, qty))
            && (best.None? ==> forall j :: 0 <= j < |dones| ==> !Eligible(dones[j], side, ticker, qty))
  {
    if dones != [] {
      var n := |dones| - 1;
      BestDoneIsNearest(dones[..n], side, ticker, ts, qty);
      assert forall j :: 0 <= j < n ==> dones[..n][j] == dones[j];
    }
  }

  /** What a claim must match: side, ticker and, for a reorder, quantity. */
  function ClaimSide(ev: Event): Side { if ev.BuyFallback? then Buy else Sell }

  function ClaimQty(ev: Event): Option<int> { if ev.Reorder? then Some(ev.qty) else None }

  /** A claiming line takes a nearest eligible completion, marks it and brings one anchor with its
      number; without an eligible one it changes nothing. */
  lemma ClaimTakesNearest(m: Memory, ev: Event)
    requires Claims(ev)
    ensures var m' := Hear(m, ev);
            || (m' == m
                && forall j :: 0 <= j < |m.dones| ==> !Eligible(m.dones[j], ClaimSide(ev), ev.ticker, ClaimQty(ev)))
            || (exists i: nat ::
                  Nearest(m.dones, i, ClaimSide(ev), ev.ticker, ev.ts, ClaimQty(ev)) && Claimed(m, m', i, ev))
  {
    BestDoneIsNearest(m.dones, ClaimSide(ev), ev.ticker, ev.ts, ClaimQty(ev));
    var best := BestDone(m.dones, ClaimSide(ev), ev.ticker, ev.ts, ClaimQty(ev));
    if best.Some? { assert Claimed(m, Hear(m, ev), best.value, ev); }
  }

  ghost predicate Claimed(m: Memory, m': Memory, i: nat, ev: Event)
    requires Claims(ev)
  {
    && i < |m.dones| && m'.dones == m.dones[i := m.dones[i].(used := true)]
    && |m'.incoming| == |m.incoming| + 1 && m'.incoming[..|m.incoming|] == m.incoming
    && var a := m'.incoming[|m.incoming|];
       a.no == m.dones[i].no && a.ts == ev.ts && a.ticker == ev.ticker && a.Side() == ClaimSide(ev) && !OwnNumber(a)
  }

  // ---- once only -------------------------------------------------------------------------

  /** The anchors a line brings. */
  function Brought(m: Memory, ev: Event): seq<Anchor> { Added(m.incoming, Feed(m, ev).incoming) }

  function Added(before: seq<Anchor>, after: seq<Anchor>): seq<Anchor> {
    if |before| < |after| then after[|before|..] else []
  }

  /** All anchors brought over a run, in order. */
  function Anchors(m: Memory, inputs: seq<Input>): seq<Anchor> {
    if inputs == [] then []
    else
      var n := |inputs| - 1;
      Anchors(m, inputs[..n]) + (if inputs[n].Line? then Brought(Run(m, inputs[..n]), inputs[n].ev) else [])
  }

  function Nos(anchors: seq<Anchor>): set<string> { set a | a in anchors :: a.no }

  /** The order number a naming line names, or a completion's. */
  function Named0(input: Input): set<string> {
    if input.Line? && NamesOrder(input.ev) then {input.ev.orderNo} else {}
  }

  function Done0(input: Input): set<string> {
    if input.Line? && input.ev.OrderDone? then {input.ev.orderNo} else {}
  }

  /** Numbers completed or named so far. */
  function Seen(inputs: seq<Input>): set<string> {
    if inputs == [] then {}
    else Seen(inputs[..|inputs| - 1]) + Named0(inputs[|inputs| - 1]) + Done0(inputs[|inputs| - 1])
  }

  /** Each order completes once, and no line names it before its completion. */
  ghost predicate Orderly(inputs: seq<Input>) {
    inputs == [] || (var n := |inputs| - 1; Orderly(inputs[..n]) && Done0(inputs[n]) !! Seen(inputs[..n]))
  }

  /** Unused completions are spoken for by no anchor, and all are distinct and seen. */
  ghost predicate Unspoken(dones: seq<Done>, spoken: set<string>, seen: set<string>) {
    && (forall i :: 0 <= i < |dones| ==> dones[i].no in seen)
    && (forall i :: 0 <= i < |dones| && dones[i].no in spoken ==> dones[i].used)
    && (forall i, j :: 0 <= i < j < |dones| ==> dones[i].no != dones[j].no)
  }

  /** Sweeping only drops completions. */
  lemma {:induction false} PendingWithin(dones: seq<Done>, cutoff: Time)
    ensures forall d :: d in Pending(dones, cutoff) ==> d in dones
  {
    if dones != [] {
      PendingWithin(dones[..|dones| - 1], cutoff);
      assert dones == dones[..|dones| - 1] + [dones[|dones| - 1]];
    }
  }

  lemma {:induction false} PendingUnspoken(dones: seq<Done>, cutoff: Time, spoken: set<string>, seen: set<string>)
    requires Unspoken(dones, spoken, seen)
    ensures Unspoken(Pending(dones, cutoff), spoken, seen)
  {
    if dones != [] {
      var n := |dones| - 1;
      PendingUnspoken(dones[..n], cutoff, spoken, seen);
      PendingWithin(dones[..n], cutoff);
      var kept := Pending(dones[..n], cutoff);
      forall i | 0 <= i < |kept| ensures kept[i].no != dones[n].no {
        assert kept[i] in dones[..n];
        var k :| 0 <= k < n && dones[k] == kept[i];
      }
    }
  }

  lemma PurgeDones(m: Memory, ts: Time)
    ensures var m' := Purge(m, ts);
            m'.incoming == m.incoming && (m'.dones == m.dones || exists c :: m'.dones == Pending(m.dones, c))
  {
    if Live(m) {
      assert Swept(m, Risen(m.watermark, ts) - KEEP).dones == Pending(m.dones, Risen(m.watermark, ts) - KEEP);
    }
  }

  lemma PurgeUnspoken(m: Memory, ts: Time, spoken: set<string>, seen: set<string>)
    requires Unspoken(m.dones, spoken, seen)
    ensures Unspoken(Purge(m, ts).dones, spoken, seen) && Purge(m, ts).incoming == m.incoming
  {
    PurgeDones(m, ts);
    if Purge(m, ts).dones != m.dones {
      var c :| Purge(m, ts).dones == Pending(m.dones, c);
      PendingUnspoken(m.dones, c, spoken, seen);
    }
  }

  /** What hearing a line does to completions and anchors. */
  ghost predicate Effect(m: Memory, m': Memory, ev: Event) {
    if NamesOrder(ev) then
      && m'.dones == Marked(m.dones, ev.orderNo)
      && |m'.incoming| == |m.incoming| + 1 && m'.incoming[..|m.incoming|] == m.incoming
      && m'.incoming[|m.incoming|].no == ev.orderNo && OwnNumber(m'.incoming[|m.incoming|])
    else if Claims(ev) then
      m' == m || exists i: nat :: i < |m.dones| && !m.dones[i].used && Claimed(m, m', i, ev)
    else if ev.OrderDone? then
      m'.incoming == m.incoming && m'.dones == m.dones
        + [Done(ev.orderNo, ev.doneSide, ev.ticker, ev.qty, ev.ts, false)]
    else
      m'.incoming == m.incoming && m'.dones == m.dones
  }

  lemma HearEffect(m: Memory, ev: Event)
    ensures Effect(m, Hear(m, ev), ev)
  {
    if Claims(ev) { ClaimTakesNearest(m, ev); }
  }

  lemma EffectUnspoken(m: Memory, m': Memory, ev: Event, spoken: set<string>, seen: set<string>)
    requires Effect(m, m', ev) && Unspoken(m.dones, spoken, seen) && spoken <= seen
    requires Done0(Line(ev)) !! seen
    ensures var more := Added(m.incoming, m'.incoming);
            var seen' := seen + Named0(Line(ev)) + Done0(Line(ev));
            && Unspoken(m'.dones, spoken + Nos(more), seen') && spoken + Nos(more) <= seen'
            && (more == [] || (|more| == 1 && (OwnNumber(more[0]) || more[0].no !in spoken)))
  {
    var more := Added(m.incoming, m'.incoming);
    if more != [] {
      assert more == [m'.incoming[|m.incoming|]];
      assert Nos(more) == {more[0].no};
    }
  }

  /** No claimed anchor bears a number some earlier anchor bears. */
  ghost predicate ClaimsNew(anchors: seq<Anchor>) {
    forall k :: 0 <= k < |anchors| && !OwnNumber(anchors[k]) ==> anchors[k].no !in Nos(anchors[..k])
  }

  lemma ClaimsNewAppend(anchors: seq<Anchor>, more: seq<Anchor>)
    requires ClaimsNew(anchors)
    requires more == [] || (|more| == 1 && (OwnNumber(more[0]) || more[0].no !in Nos(anchors)))
    ensures ClaimsNew(anchors + more) && Nos(anchors + more) == Nos(anchors) + Nos(more)
  {
    forall k | 0 <= k < |anchors| ensures (anchors + more)[..k] == anchors[..k] {
    }
    assert (anchors + more)[..|anchors|] == anchors;
  }

  lemma {:induction false} RunUnspoken(source: Source, inputs: seq<Input>)
    requires Orderly(inputs)
    ensures var anchors := Anchors(Empty(source), inputs);
            && ClaimsNew(anchors)
            && Unspoken(Run(Empty(source), inputs).dones, Nos(anchors), Seen(inputs)) && Nos(anchors) <= Seen(inputs)
  {
    if inputs != [] {
      var n := |inputs| - 1;
      RunUnspoken(source, inputs[..n]);
      var m, anchors := Run(Empty(source), inputs[..n]), Anchors(Empty(source), inputs[..n]);
      if inputs[n].Line? {
        StepUnspoken(m, inputs[n].ev, anchors, Seen(inputs[..n]));
      } else {
        assert anchors + [] == anchors;
      }
    }
  }

  lemma StepUnspoken(m: Memory, ev: Event, anchors: seq<Anchor>, seen: set<string>)
    requires ClaimsNew(anchors) && Unspoken(m.dones, Nos(anchors), seen) && Nos(anchors) <= seen
    requires Done0(Line(ev)) !! seen
    ensures var all := anchors + Brought(m, ev);
            var seen' := seen + Named0(Line(ev)) + Done0(Line(ev));
            ClaimsNew(all) && Unspoken(Feed(m, ev).dones, Nos(all), seen') && Nos(all) <= seen'
  {
    PurgeUnspoken(m, ev.ts, Nos(anchors), seen);
    var m1 := Purge(m, ev.ts);
    HearEffect(m1, ev);
    EffectUnspoken(m1, Feed(m, ev), ev, Nos(anchors), seen);
    ClaimsNewAppend(anchors, Brought(m, ev));
  }

  /** Over any run in which each order completes once and is named only after its completion, every
      completion is claimed by at most one fallback or reorder, and never one an earlier line named. */
  lemma CompletionsAreClaimedOnce(source: Source, inputs: seq<Input>, j: nat, k: nat)
    requires Orderly(inputs)
    requires var anchors := Anchors(Empty(source), inputs); j < k < |anchors| && !OwnNumber(anchors[k])
    ensures var anchors := Anchors(Empty(source), inputs); anchors[j].no != anchors[k].no
  {
    RunUnspoken(source, inputs);
    var anchors := Anchors(Empty(source), inputs);
    assert anchors[j] in anchors[..k];
  }

  // ---- exactly when completions are claimed once ------------------------------------------------

  /** No two completion lines have the same number. */
  ghost predicate CompleteOnce(inputs: seq<Input>) {
    forall i, j :: 0 <= i < j < |inputs| ==> Done0(inputs[i]) !! Done0(inputs[j])
  }

  /** No completion is logged after a line that names its order. */
  ghost predicate NeverNamedEarly(inputs: seq<Input>) {
    forall i, j :: 0 <= i < j < |inputs| ==> Named0(inputs[i]) !! Done0(inputs[j])
  }

  lemma {:induction false} SeenSoFar(inputs: seq<Input>, no: string)
    ensures no in Seen(inputs) <==> exists i :: 0 <= i < |inputs| && no in Named0(inputs[i]) + Done0(inputs[i])
  {
    if inputs != [] {
      var n := |inputs| - 1;
      SeenSoFar(inputs[..n], no);
      assert inputs == inputs[..n] + [inputs[n]];
      if no in Seen(inputs[..n]) {
        var i :| 0 <= i < n && no in Named0(inputs[..n][i]) + Done0(inputs[..n][i]);
        assert no in Named0(inputs[i]) + Done0(inputs[i]);
      }
      if no in Named0(inputs[n]) + Done0(inputs[n]) {
        assert exists i :: 0 <= i < |inputs| && no in Named0(inputs[i]) + Done0(inputs[i]);
      }
      if i :| 0 <= i < |inputs| && no in Named0(inputs[i]) + Done0(inputs[i]) {
        if i < n { assert no in Named0(inputs[..n][i]) + Done0(inputs[..n][i]); }
      }
    }
  }

  lemma {:induction false} OrderlyWhen(inputs: seq<Input>)
    requires CompleteOnce(inputs) && NeverNamedEarly(inputs)
    ensures Orderly(inputs)
  {
    if inputs != [] {
      var n := |inputs| - 1;
      forall i | 0 <= i < n ensures inputs[..n][i] == inputs[i] {
      }
      OrderlyWhen(inputs[..n]);
      forall no | no in Done0(inputs[n]) ensures no !in Seen(inputs[..n]) {
        SeenSoFar(inputs[..n], no);
      }
    }
  }

  /** Lines that claim a completion. */
  ghost predicate AllClaim(inputs: seq<Input>) {
    forall i :: 0 <= i < |inputs| ==> inputs[i].Line? && Claims(inputs[i].ev)
  }

  /** However the log goes on from any point with claiming lines, no claim bears a number some earlier
      anchor bears. */
  ghost predicate AlwaysClaimsNew(source: Source, inputs: seq<Input>) {
    forall n: nat, more: seq<Input> :: n <= |inputs| ==> ClaimsNewAfter(source, inputs[..n], more)
  }

  ghost predicate ClaimsNewAfter(source: Source, inputs: seq<Input>, more: seq<Input>) {
    AllClaim(more) && Ordered(inputs + more) ==> ClaimsNew(Anchors(Empty(source), inputs + more))
  }

  lemma {:induction false} OrderlyMore(inputs: seq<Input>, more: seq<Input>)
    requires Orderly(inputs) && AllClaim(more)
    ensures Orderly(inputs + more)
  {
    if more == [] {
      assert inputs + more == inputs;
    } else {
      var n := |more| - 1;
      assert (inputs + more)[..|inputs + more| - 1] == inputs + more[..n];
      OrderlyMore(inputs, more[..n]);
    }
  }

  lemma {:induction false} OrderlyPrefix(inputs: seq<Input>, n: nat)
    requires Orderly(inputs) && n <= |inputs|
    ensures Orderly(inputs[..n])
  {
    if n < |inputs| {
      OrderlyPrefix(inputs[..|inputs| - 1], n);
      assert inputs[..|inputs| - 1][..n] == inputs[..n];
    } else {
      assert inputs[..n] == inputs;
    }
  }

  lemma OrderlyClaimsNew(source: Source, inputs: seq<Input>)
    requires Orderly(inputs)
    ensures AlwaysClaimsNew(source, inputs)
  {
    forall n: nat, more: seq<Input> | n <= |inputs| ensures ClaimsNewAfter(source, inputs[..n], more) {
      OrderlyPrefix(inputs, n);
      if AllClaim(more) {
        OrderlyMore(inputs[..n], more);
        RunUnspoken(source, inputs[..n] + more);
      }
    }
  }

  /** What a line brings when it names its order. */
  lemma NamingIsBrought(m: Memory, ev: Event)
    requires NamesOrder(ev)
    ensures |Brought(m, ev)| == 1 && Brought(m, ev)[0].no == ev.orderNo
  {
    PurgeDones(m, ev.ts);
    HearEffect(Purge(m, ev.ts), ev);
  }

  lemma NosConcat(a: seq<Anchor>, b: seq<Anchor>)
    ensures Nos(a) <= Nos(a + b) && Nos(b) <= Nos(a + b)
  {
    forall x | x in a || x in b ensures x in a + b {
    }
  }

  lemma AnchorsGrow(m0: Memory, inputs: seq<Input>, input: Input)
    ensures Nos(Anchors(m0, inputs)) <= Nos(Anchors(m0, inputs + [input]))
  {
    assert (inputs + [input])[..|inputs|] == inputs;
    NosConcat(Anchors(m0, inputs), if input.Line? then Brought(Run(m0, inputs), input.ev) else []);
  }

  lemma NewIsAnchored(m0: Memory, inputs: seq<Input>, ev: Event)
    requires NamesOrder(ev)
    ensures ev.orderNo in Nos(Anchors(m0, inputs + [Line(ev)]))
  {
    var more := Brought(Run(m0, inputs), ev);
    AnchorsSnoc(m0, inputs, ev);
    NamingIsBrought(Run(m0, inputs), ev);
    assert more[0] in more;
    NosConcat(Anchors(m0, inputs), more);
  }

  lemma {:induction false} NamedIsAnchored(m0: Memory, inputs: seq<Input>, i: nat, no: string)
    requires i < |inputs| && no in Named0(inputs[i])
    ensures no in Nos(Anchors(m0, inputs))
  {
    var n := |inputs| - 1;
    var pre, last := inputs[..n], inputs[n];
    assert pre + [last] == inputs;
    if i < n {
      NamedIsAnchored(m0, pre, i, no);
      AnchorsGrow(m0, pre, last);
    } else {
      NewIsAnchored(m0, pre, last.ev);
    }
  }

  /** The line that claims a completion at its own time: a fallback or a reorder like it. */
  function ClaimOf(ev: Event): Event
    requires ev.OrderDone?
  {
    if ev.doneSide == Buy then BuyFallback(ev.ts, ev.ticker, 0.0) else Reorder(ev.ts, ev.ticker, ev.qty)
  }

  function DoneOf(ev: Event): Done
    requires ev.OrderDone?
  {
    Done(ev.orderNo, ev.doneSide, ev.ticker, ev.qty, ev.ts, false)
  }

  /** The newest completion is unused and last. */
  ghost predicate LastIs(dones: seq<Done>, d: Done) { dones != [] && dones[|dones| - 1] == d }

  lemma PurgeKeepsLast(m: Memory, d: Done, ts: Time)
    requires LastIs(m.dones, d) && !d.used && d.ts == ts && (Live(m) ==> m.watermark == Some(ts))
    ensures LastIs(Purge(m, ts).dones, d) && Purge(m, ts).incoming == m.incoming
  {
    PurgeDones(m, ts);
    if Live(m) {
      assert Risen(m.watermark, ts) == ts;
      assert Swept(m, ts - KEEP).dones == Pending(m.dones, ts - KEEP);
    }
  }

  lemma ClaimTakesLast(m: Memory, ev: Event)
    requires ev.OrderDone? && LastIs(m.dones, DoneOf(ev))
    ensures var m' := Hear(m, ClaimOf(ev));
            && |m'.incoming| == |m.incoming| + 1 && m'.incoming[..|m.incoming|] == m.incoming
            && m'.incoming[|m.incoming|].no == ev.orderNo && !OwnNumber(m'.incoming[|m.incoming|])
  {
    var n := |m.dones| - 1;
    var claim := ClaimOf(ev);
    assert BestDone(m.dones, ClaimSide(claim), claim.ticker, claim.ts, ClaimQty(claim)) == Some(n);
  }

  lemma ClaimIsBrought(m: Memory, ev: Event)
    requires ev.OrderDone? && LastIs(m.dones, DoneOf(ev)) && (Live(m) ==> m.watermark == Some(ev.ts))
    ensures var more := Brought(m, ClaimOf(ev)); |more| == 1 && more[0].no == ev.orderNo && !OwnNumber(more[0])
  {
    PurgeKeepsLast(m, DoneOf(ev), ev.ts);
    ClaimTakesLast(Purge(m, ev.ts), ev);
  }

  /** A live pairer's watermark is the time of the last line. */
  lemma WatermarkIsLast(source: Source, inputs: seq<Input>)
    requires Ordered(inputs)
    ensures var m := Run(Empty(source), inputs); Live(m) ==> m.watermark == LastTime(inputs)
  {
    if source == LogHarvest { RunAlike(LogRestore, inputs); } else { RunAlike(source, inputs); }
  }

  lemma DoneIsHeard(m: Memory, ev: Event)
    requires ev.OrderDone?
    ensures LastIs(Feed(m, ev).dones, DoneOf(ev))
  {
    HearEffect(Purge(m, ev.ts), ev);
  }

  lemma NotNew(anchors: seq<Anchor>, a: Anchor)
    requires !OwnNumber(a) && a.no in Nos(anchors)
    ensures !ClaimsNew(anchors + [a])
  {
    var all := anchors + [a];
    assert all[..|anchors|] == anchors && all[|anchors|] == a;
  }

  /** The next line like a completion just logged claims it. */
  lemma {:induction false} LastIsClaimed(source: Source, inputs: seq<Input>, ev: Event)
    requires inputs != [] && inputs[|inputs| - 1] == Line(ev) && ev.OrderDone? && Ordered(inputs)
    ensures var more := Brought(Run(Empty(source), inputs), ClaimOf(ev));
            |more| == 1 && more[0].no == ev.orderNo && !OwnNumber(more[0])
  {
    DoneIsHeard(Run(Empty(source), inputs[..|inputs| - 1]), ev);
    WatermarkIsLast(source, inputs);
    ClaimIsBrought(Run(Empty(source), inputs), ev);
  }

  lemma OrderedMore(inputs: seq<Input>, ev: Event)
    requires Ordered(inputs) && LastTime(inputs) == Some(ev.ts)
    ensures Ordered(inputs + [Line(ev)])
  {
    assert (inputs + [Line(ev)])[..|inputs|] == inputs;
  }

  lemma {:induction false} BroughtAgain(source: Source, inputs: seq<Input>, ev: Event, i: nat)
    requires inputs != [] && inputs[|inputs| - 1] == Line(ev) && ev.OrderDone? && Ordered(inputs)
    requires i < |inputs| && ev.orderNo in Named0(inputs[i])
    ensures !ClaimsNew(Anchors(Empty(source), inputs) + Brought(Run(Empty(source), inputs), ClaimOf(ev)))
  {
    LastIsClaimed(source, inputs, ev);
    NamedIsAnchored(Empty(source), inputs, i, ev.orderNo);
    var more := Brought(Run(Empty(source), inputs), ClaimOf(ev));
    assert more == [more[0]];
    NotNew(Anchors(Empty(source), inputs), more[0]);
  }

  /** A completion logged after a line that names it is claimed again by the next line like it. */
  lemma {:induction false} LastIsClaimedAgain(source: Source, inputs: seq<Input>, ev: Event, i: nat)
    requires inputs != [] && inputs[|inputs| - 1] == Line(ev) && ev.OrderDone? && Ordered(inputs)
    requires i < |inputs| && ev.orderNo in Named0(inputs[i])
    ensures !ClaimsNewAfter(source, inputs, [Line(ClaimOf(ev))])
  {
    BroughtAgain(source, inputs, ev, i);
    AnchorsSnoc(Empty(source), inputs, ClaimOf(ev));
    OrderedMore(inputs, ClaimOf(ev));
  }

  lemma {:induction false} EarlyIsClaimedAgain(source: Source, inputs: seq<Input>, i: nat, j: nat)
    requires Ordered(inputs) && i < j < |inputs| && !(Named0(inputs[i]) !! Done0(inputs[j]))
    ensures !AlwaysClaimsNew(source, inputs)
  {
    var pre, ev := inputs[..j + 1], inputs[j].ev;
    OrderedPrefix(inputs, j + 1);
    assert pre[j] == inputs[j] && pre[i] == inputs[i];
    LastIsClaimedAgain(source, pre, ev, i);
    assert !ClaimsNewAfter(source, inputs[..j + 1], [Line(ClaimOf(ev))]);
  }

  lemma {:induction false} OrderedPrefix(inputs: seq<Input>, n: nat)
    requires Ordered(inputs) && n <= |inputs|
    ensures Ordered(inputs[..n])
  {
    if n < |inputs| {
      OrderedPrefix(inputs[..|inputs| - 1], n);
      assert inputs[..|inputs| - 1][..n] == inputs[..n];
    } else {
      assert inputs[..n] == inputs;
    }
  }

  /** When line times never go back and each order completes once: no claim ever bears a number borne
      before, however the log goes on from any point with claiming lines, exactly when no completion is
      logged after a line that names it. */
  lemma ClaimedOnceIffNeverNamedEarly(source: Source, inputs: seq<Input>)
    requires Ordered(inputs) && CompleteOnce(inputs)
    ensures AlwaysClaimsNew(source, inputs) <==> NeverNamedEarly(inputs)
  {
    if NeverNamedEarly(inputs) {
      OrderlyWhen(inputs);
      OrderlyClaimsNew(source, inputs);
    } else {
      var i, j :| 0 <= i < j < |inputs| && !(Named0(inputs[i]) !! Done0(inputs[j]));
      EarlyIsClaimedAgain(source, inputs, i, j);
    }
  }

  // ---- what holds of every run ------------------------------------------------------------------

  /** How many of the anchors are claims of the number. */
  function ClaimCount(anchors: seq<Anchor>, no: string): nat {
    if anchors == [] then 0
    else
      var a := anchors[|anchors| - 1];
      ClaimCount(anchors[..|anchors| - 1], no) + (if !OwnNumber(a) && a.no == no then 1 else 0)
  }

  /** How many completion lines the number has. */
  function Completions(inputs: seq<Input>, no: string): nat {
    if inputs == [] then 0
    else Completions(inputs[..|inputs| - 1], no) + (if no in Done0(inputs[|inputs| - 1]) then 1 else 0)
  }

  function Unused(dones: seq<Done>, no: string): nat {
    if dones == [] then 0
    else
      var d := dones[|dones| - 1];
      Unused(dones[..|dones| - 1], no) + (if d.no == no && !d.used then 1 else 0)
  }

  lemma UnusedSnoc(dones: seq<Done>, d: Done, no: string)
    ensures Unused(dones + [d], no) == Unused(dones, no) + (if d.no == no && !d.used then 1 else 0)
  {
    assert (dones + [d])[..|dones|] == dones;
  }

  lemma {:induction false} PendingUnused(dones: seq<Done>, cutoff: Time, no: string)
    ensures Unused(Pending(dones, cutoff), no) <= Unused(dones, no)
  {
    if dones != [] {
      var n := |dones| - 1;
      PendingUnused(dones[..n], cutoff, no);
      UnusedSnoc(Pending(dones[..n], cutoff), dones[n], no);
      assert Pending(dones[..n], cutoff) + [] == Pending(dones[..n], cutoff);
    }
  }

  lemma {:induction false} MarkedUnused(dones: seq<Done>, named: string, no: string)
    ensures Unused(Marked(dones, named), no) == if named == no then 0 else Unused(dones, no)
  {
    if dones != [] {
      var n := |dones| - 1;
      MarkedUnused(dones[..n], named, no);
      assert Marked(dones, named)[..n] == Marked(dones[..n], named);
    }
  }

  lemma {:induction false} TakenUnused(dones: seq<Done>, i: nat, no: string)
    requires i < |dones| && !dones[i].used
    ensures Unused(dones[i := dones[i].(used := true)], no) == Unused(dones, no) - (if dones[i].no == no then 1 else 0)
  {
    var n := |dones| - 1;
    var taken := dones[i := dones[i].(used := true)];
    if i < n {
      TakenUnused(dones[..n], i, no);
      assert taken[..n] == dones[..n][i := dones[i].(used := true)];
    } else {
      assert taken[..n] == dones[..n];
    }
  }

  lemma ClaimCountSnoc(anchors: seq<Anchor>, a: Anchor, no: string)
    ensures ClaimCount(anchors + [a], no) == ClaimCount(anchors, no) + (if !OwnNumber(a) && a.no == no then 1 else 0)
  {
    assert (anchors + [a])[..|anchors|] == anchors;
  }

  lemma EffectCounts(m: Memory, m': Memory, ev: Event, no: string)
    requires Effect(m, m', ev)
    ensures ClaimCount(Added(m.incoming, m'.incoming), no) + Unused(m'.dones, no)
            <= Unused(m.dones, no) + (if no in Done0(Line(ev)) then 1 else 0)
    ensures NamesOrder(ev) && ev.orderNo == no ==> Unused(m'.dones, no) == 0
  {
    var more := Added(m.incoming, m'.incoming);
    assert more == [] || more == [] + [m'.incoming[|m.incoming|]];
    if NamesOrder(ev) {
      MarkedUnused(m.dones, ev.orderNo, no);
      ClaimCountSnoc([], m'.incoming[|m.incoming|], no);
    } else if Claims(ev) && m' != m {
      var i: nat :| i < |m.dones| && !m.dones[i].used && Claimed(m, m', i, ev);
      TakenUnused(m.dones, i, no);
      ClaimCountSnoc([], m'.incoming[|m.incoming|], no);
    } else if ev.OrderDone? {
      UnusedSnoc(m.dones, m'.dones[|m.dones|], no);
    }
  }

  lemma FeedCounts(m: Memory, ev: Event, no: string)
    ensures ClaimCount(Brought(m, ev), no) + Unused(Feed(m, ev).dones, no)
            <= Unused(m.dones, no) + (if no in Done0(Line(ev)) then 1 else 0)
    ensures NamesOrder(ev) && ev.orderNo == no ==> Unused(Feed(m, ev).dones, no) == 0
  {
    var m1 := Purge(m, ev.ts);
    PurgeDones(m, ev.ts);
    if m1.dones != m.dones {
      var c :| m1.dones == Pending(m.dones, c);
      PendingUnused(m.dones, c, no);
    }
    HearEffect(m1, ev);
    EffectCounts(m1, Feed(m, ev), ev, no);
  }

  lemma {:induction false} ClaimCountConcat(a: seq<Anchor>, b: seq<Anchor>, no: string)
    ensures ClaimCount(a + b, no) == ClaimCount(a, no) + ClaimCount(b, no)
  {
    if b == [] {
      assert a + b == a;
    } else {
      assert (a + b)[..|a + b| - 1] == a + b[..|b| - 1];
      ClaimCountConcat(a, b[..|b| - 1], no);
    }
  }

  lemma {:induction false} RunCounts(m: Memory, inputs: seq<Input>, no: string)
    ensures ClaimCount(Anchors(m, inputs), no) + Unused(Run(m, inputs).dones, no)
            <= Unused(m.dones, no) + Completions(inputs, no)
  {
    if inputs != [] {
      var n := |inputs| - 1;
      RunCounts(m, inputs[..n], no);
      NextCounts(Run(m, inputs[..n]), inputs[n], Anchors(m, inputs[..n]), no);
    }
  }

  lemma NextCounts(m: Memory, input: Input, anchors: seq<Anchor>, no: string)
    ensures var more := if input.Line? then Brought(m, input.ev) else [];
            ClaimCount(anchors + more, no) + Unused(Next(m, input).dones, no)
            <= ClaimCount(anchors, no) + Unused(m.dones, no) + (if no in Done0(input) then 1 else 0)
  {
    if input.Line? {
      FeedCounts(m, input.ev, no);
      ClaimCountConcat(anchors, Brought(m, input.ev), no);
    } else {
      assert anchors + [] == anchors;
    }
  }

  /** Whatever the log says, in whatever order: each completion line is claimed at most once. */
  lemma ClaimsWithinCompletions(source: Source, inputs: seq<Input>, no: string)
    ensures ClaimCount(Anchors(Empty(source), inputs), no) <= Completions(inputs, no)
  {
    RunCounts(Empty(source), inputs, no);
  }

  /** Whatever the log says: once a line has named an order, only completion lines after it can still be
      claimed under its number. */
  lemma NamedIsSpokenFor(m: Memory, ev: Event, inputs: seq<Input>)
    requires NamesOrder(ev)
    ensures ClaimCount(Anchors(Feed(m, ev), inputs), ev.orderNo) <= Completions(inputs, ev.orderNo)
  {
    FeedCounts(m, ev, ev.orderNo);
    RunCounts(Feed(m, ev), inputs, ev.orderNo);
  }

  // ---- the order matters -------------------------------------------------------------------

  const EARLY := BuyAccept(0, "7", "kojiro", "069500", 100.0)
  const LATE := OrderDone(1, "7", Buy, "069500", 3)
  const REJECTED := BuyFallback(2, "069500", 101.0)

  function EarlyAnchor(): Anchor { BuyAnchor("7", "069500", Some("kojiro"), 0, Accept, Some(100.0)) }

  function AfterEarly(): Memory {
    Empty(LogHarvest).(watermark := Some(0), day := Some(0), anchorNos := {"7"},
      lastBuy := map[("kojiro", "069500") := Bought(100.0, 0)], incoming := [EarlyAnchor()])
  }

  function AfterLate(): Memory {
    AfterEarly().(watermark := Some(1), dones := [Done("7", Buy, "069500", 3, 1, false)])
  }

  lemma EarlyStep()
    ensures Feed(Empty(LogHarvest), EARLY) == AfterEarly()
  {
    var m := Purge(Empty(LogHarvest), 0);
    assert m == Empty(LogHarvest).(watermark := Some(0), day := Some(0));
  }

  lemma LateStep()
    ensures Feed(AfterEarly(), LATE) == AfterLate()
  {
    var m := Purge(AfterEarly(), 1);
    assert m == AfterEarly().(watermark := Some(1));
  }

  lemma RejectedStep()
    ensures Feed(AfterLate(), REJECTED).incoming == [EarlyAnchor(),
                                                     BuyAnchor("7", "069500", None, 2, Fallback, Some(101.0))]
  {
    var m := Purge(AfterLate(), 2);
    assert m == AfterLate().(watermark := Some(2));
    assert m.dones[..0] == [];
    assert BestDone(m.dones, Buy, "069500", 2, None) == Some(0);
  }

  lemma AnchorsSnoc(m: Memory, inputs: seq<Input>, ev: Event)
    ensures Anchors(m, inputs + [Line(ev)]) == Anchors(m, inputs) + Brought(Run(m, inputs), ev)
    ensures Run(m, inputs + [Line(ev)]) == Feed(Run(m, inputs), ev)
  {
    assert (inputs + [Line(ev)])[..|inputs|] == inputs;
  }

  lemma OrderlyOfThree(a: Event, b: Event, c: Event)
    ensures Orderly([Line(a), Line(b), Line(c)]) ==> Done0(Line(b)) !! Named0(Line(a))
  {
    var inputs := [Line(a), Line(b), Line(c)];
    assert inputs[..2] == [Line(a), Line(b)] && [Line(a), Line(b)][..1] == [Line(a)] && [Line(a)][..0] == [];
    assert Seen([Line(a)]) == {} + Named0(Line(a)) + Done0(Line(a));
    if Orderly(inputs) {
      assert Orderly([Line(a), Line(b)]);
      assert Done0(Line(b)) !! Seen([Line(a)]);
    }
  }

  /** A line that names its order before the completion is logged leaves the completion free: a later
      fallback of the same ticker claims the same order again. */
  lemma EarlyNameIsClaimedAgain()
    ensures var inputs := [Line(EARLY), Line(LATE), Line(REJECTED)];
            var anchors := Anchors(Empty(LogHarvest), inputs);
            !Orderly(inputs) && |anchors| == 2 && !OwnNumber(anchors[1]) && anchors[0].no == anchors[1].no
  {
    var m := Empty(LogHarvest);
    OrderlyOfThree(EARLY, LATE, REJECTED);
    assert "7" in Done0(Line(LATE)) && "7" in Named0(Line(EARLY));
    EarlyAnchors();
    assert [Line(EARLY), Line(LATE), Line(REJECTED)] == [] + [Line(EARLY)] + [Line(LATE)] + [Line(REJECTED)];
  }

  lemma EarlyAnchors()
    ensures Anchors(Empty(LogHarvest), [] + [Line(EARLY)] + [Line(LATE)] + [Line(REJECTED)])
            == [EarlyAnchor(), BuyAnchor("7", "069500", None, 2, Fallback, Some(101.0))]
  {
    var m := Empty(LogHarvest);
    EarlyStep();
    LateStep();
    RejectedStep();
    AnchorsSnoc(m, [], EARLY);
    AnchorsSnoc(m, [] + [Line(EARLY)], LATE);
    AnchorsSnoc(m, [] + [Line(EARLY)] + [Line(LATE)], REJECTED);
  }
}
