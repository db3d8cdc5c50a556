/** The pairer as an object that changes its lists in place, proved against the functions of Pairing. */
module PairerObject {
  import opened Basics
  import opened Journal
  import opened Pairing

  class Pairer {
    const source: Source
    var incoming: seq<Anchor>
    var ready: seq<Anchor>
    var ring: map<K, seq<RingEntry>>
    var paramsHist: seq<Snap<map<string, map<string, real>>>>
    var itemsHist: seq<Snap<map<K, Item>>>
    var buySignals: seq<Entry<Option<real>>>
    var reasons: seq<Entry<ExitInfo>>
    var defers: seq<Entry<Deferral>>
    var statuses: seq<Entry<Option<string>>>
    var notices: map<string, seq<Notice>>
    var dones: seq<Done>
    var lastBuy: map<K, Bought>
    var anchorNos: set<string>
    var noticeNos: set<string>
    var lastSell: map<string, Sold>
    var watermark: Option<Time>
    var day: Option<int>

    function State(): Memory
      reads this
    {
      Memory(source, incoming, ready, ring, paramsHist, itemsHist, buySignals, reasons, defers, statuses, notices,
             dones, lastBuy, anchorNos, noticeNos, lastSell, watermark, day)
    }

    constructor (source: Source)
      ensures State() == Empty(source)
    {
      this.source := source;
      incoming, ready, ring, paramsHist, itemsHist := [], [], map[], [], [];
      buySignals, reasons, defers, statuses, notices, dones := [], [], [], [], map[], [];
      lastBuy, anchorNos, noticeNos, lastSell, watermark, day := map[], {}, {}, map[], None, None;
    }

    method Sweep(cutoff: Time)
      modifies this`reasons, this`buySignals, this`statuses, this`dones, this`notices
      ensures reasons == Since(old(reasons), cutoff) && buySignals == Since(old(buySignals), cutoff)
      ensures statuses == Since(old(statuses), cutoff) && dones == Pending(old(dones), cutoff)
      ensures notices == FreshNotices(old(notices), cutoff)
    {
      reasons := Since(reasons, cutoff);
      buySignals := Since(buySignals, cutoff);
      statuses := Since(statuses, cutoff);
      dones := Pending(dones, cutoff);
      notices := FreshNotices(notices, cutoff);
    }

    method RollDay(ts: Time) returns (changed: bool)
      modifies this`day, this`defers, this`anchorNos, this`noticeNos
      ensures State() == NewDay(old(State()), ts) && changed == (old(day) != Some(Date(ts)))
    {
      changed := day != Some(Date(ts));
      if changed {
        day := Some(Date(ts));
        defers := OnDay(defers, Date(ts));
        anchorNos, noticeNos := {}, {};
      }
    }

    method SweepIf(changed: bool, cutoff: Time)
      modifies this`reasons, this`buySignals, this`statuses, this`dones, this`notices
      ensures State() == if changed || Crowded(old(State())) then Swept(old(State()), cutoff) else old(State())
    {
      if changed || |reasons| > CROWDED || |buySignals| > CROWDED || |statuses| > CROWDED || |dones| > CROWDED
        || |notices| > CROWDED {
        Sweep(cutoff);
      }
    }

    method PurgeAt(ts: Time)
      modifies this
      ensures State() == Purge(old(State()), ts)
    {
      if source != LogHarvest {
        return;
      }
      if watermark.None? || ts > watermark.value {
        watermark := Some(ts);
      }
      assert State() == old(State()).(watermark := Some(Risen(old(watermark), ts)));
      var changed := RollDay(ts);
      SweepIf(changed, watermark.value - KEEP);
    }

    /** Finds the eligible completion nearest in time and marks it used. */
    method PopMatchingDone(side: Side, ticker: string, ts: Time, qty: Option<int>) returns (no: Option<string>)
      modifies this`dones
      ensures var best := BestDone(old(dones), side, ticker, ts, qty);
              if best.None? then no == None && dones == old(dones)
              else var i := best.value;
                   no == Some(old(dones)[i].no) && dones == old(dones)[i := old(dones)[i].(used := true)]
    {
      var best: Option<nat> := None;
      for i := 0 to |dones|
        invariant dones == old(dones) && best == BestDone(dones[..i], side, ticker, ts, qty)
      {
        assert dones[..i + 1][..i] == dones[..i];
        if dones[i].used || dones[i].side != side || dones[i].ticker != ticker {
          continue;
        }
        if qty.Some? && dones[i].qty != qty.value {
          continue;
        }
        if best.None? || Gap(dones[i].ts, ts) <= Gap(dones[best.value].ts, ts) {
          best := Some(i);
        }
      }
      assert dones[..|dones|] == dones;
      no := None;
      if best.Some? {
        no := Some(dones[best.value].no);
        dones := dones[best.value := dones[best.value].(used := true)];
      }
    }

    method MarkDone(no: string)
      modifies this`dones
      ensures dones == Marked(old(dones), no)
    {
      for i := 0 to |dones|
        invariant |dones| == |old(dones)|
        invariant forall j :: 0 <= j < |dones| ==>
                    dones[j] == if j < i && old(dones)[j].no == no then old(dones)[j].(used := true) else old(dones)[j]
      {
        if dones[i].no == no {
          dones := dones[i := dones[i].(used := true)];
        }
      }
    }

    method TakeBuyAccept(ts: Time, no: string, strategy: string, ticker: string, price: real)
      modifies this`anchorNos, this`dones, this`lastBuy, this`incoming
      ensures State() == HearBuyAccept(old(State()), ts, no, strategy, ticker, price)
    {
      Name(no);
      lastBuy := lastBuy[(strategy, ticker) := Bought(price, ts)];
      incoming := incoming + [BuyAnchor(no, ticker, Some(strategy), ts, Accept, Some(price))];
    }

    method TakeBuyFallback(ts: Time, ticker: string, price: real)
      modifies this`anchorNos, this`dones, this`incoming
      ensures State() == HearBuyFallback(old(State()), ts, ticker, price)
    {
      var no := PopMatchingDone(Buy, ticker, ts, None);
      if no.None? {
        return;
      }
      anchorNos := anchorNos + {no.value};
      incoming := incoming + [BuyAnchor(no.value, ticker, None, ts, Fallback, Some(price))];
    }

    /** The order names itself, so its completion is spoken for. */
    method Name(no: string)
      modifies this`anchorNos, this`dones
      ensures State() == Named(old(State()), no)
    {
      anchorNos := anchorNos + {no};
      MarkDone(no);
    }

    method TakeOwnSell(ts: Time, no: string, strategy: string, ticker: string, raw: Option<string>, path: Path,
                       orderPrice: Option<real>)
      modifies this`anchorNos, this`dones, this`lastSell, this`incoming
      ensures State() == HearOwnSell(old(State()), ts, no, strategy, ticker, raw, path, orderPrice)
    {
      Name(no);
      ghost var named := State();
      var a := OwnSell(State(), no, ticker, strategy, raw, ts, path, orderPrice);
      if path != Manual {
        lastSell := lastSell[ticker := Sold(no, strategy, a.detail.code, a.detail.sub)];
      }
      incoming := incoming + [a];
      assert State() == BringSell(named, strategy, a);
    }

    method TakeReorder(ts: Time, ticker: string, qty: int)
      modifies this`anchorNos, this`dones, this`incoming
      ensures State() == HearReorder(old(State()), ts, ticker, qty)
    {
      ghost var before := State();
      var no := PopMatchingDone(Sell, ticker, ts, Some(qty));
      if no.None? {
        return;
      }
      anchorNos := anchorNos + {no.value};
      var a := ReorderAnchor(State(), ts, no.value, ticker);
      SameReorder(before, State(), ts, no.value, ticker);
      incoming := incoming + [a];
    }

    method Take(ev: Event)
      modifies this
      ensures State() == Hear(old(State()), ev)
    {
      match ev
      case BuySignal(_, _, _, _) => TakeNews(ev);
      case ExitReason(_, _, _, _) => TakeNews(ev);
      case NdcDefer(_, _, _, _, _, _) => TakeNews(ev);
      case StatusExit(_, _, _, _) => TakeNews(ev);
      case OrderNotice(ts, no, _, rctf, division) =>
        TakeNotice(no, Notice(ts, rctf, division));
      case OrderDone(ts, no, side, ticker, qty) => dones := dones + [Done(no, side, ticker, qty, ts, false)];
      case _ => TakeOrder(ev);
    }

    /** Signals, exit reasons, deferrals and status exits wait in their lists. */
    method TakeNews(ev: Event)
      requires ev.BuySignal? || ev.ExitReason? || ev.NdcDefer? || ev.StatusExit?
      modifies this`buySignals, this`reasons, this`defers, this`statuses
      ensures State() == Hear(old(State()), ev)
    {
      match ev
      case BuySignal(ts, strategy, ticker, price) => buySignals := buySignals + [Entry(ts, strategy, ticker, price)];
      case ExitReason(ts, strategy, ticker, info) => reasons := reasons + [Entry(ts, strategy, ticker, info)];
      case NdcDefer(ts, strategy, ticker, sub, gap, threshold) =>
        defers := defers + [Entry(ts, strategy, ticker, Deferral(sub, gap, threshold))];
      case StatusExit(ts, strategy, ticker, reason) => statuses := statuses + [Entry(ts, strategy, ticker, reason)];
    }

    method TakeNotice(no: string, notice: Notice)
      modifies this`notices, this`noticeNos
      ensures State() == HearNotice(old(State()), no, notice)
    {
      notices := notices[no := (if no in notices then notices[no] else []) + [notice]];
      if notice.rctf == "0" {
        noticeNos := noticeNos + {no};
      }
    }

    /** The lines that stand for an order. */
    method TakeOrder(ev: Event)
      requires ev.BuyAccept? || ev.SellAccept? || ev.ManualSell? || ev.SellFallback? || ev.BuyFallback? || ev.Reorder?
      modifies this`anchorNos, this`dones, this`lastBuy, this`lastSell, this`incoming
      ensures State() == Hear(old(State()), ev)
    {
      match ev
      case BuyAccept(ts, no, strategy, ticker, price) => TakeBuyAccept(ts, no, strategy, ticker, price);
      case BuyFallback(ts, ticker, price) => TakeBuyFallback(ts, ticker, price);
      case Reorder(ts, ticker, qty) => TakeReorder(ts, ticker, qty);
      case SellAccept(_, _, _, _, _) => TakeSell(ev);
      case ManualSell(_, _, _, _) => TakeSell(ev);
      case SellFallback(_, _, _, _, _) => TakeSell(ev);
    }

    method TakeSell(ev: Event)
      requires ev.SellAccept? || ev.ManualSell? || ev.SellFallback?
      modifies this`anchorNos, this`dones, this`lastSell, this`incoming
      ensures State() == Hear(old(State()), ev)
    {
      match ev
      case SellAccept(ts, no, strategy, ticker, signal) =>
        TakeOwnSell(ts, no, strategy, ticker, Some(signal), Accept, None);
      case ManualSell(ts, no, strategy, ticker) =>
        TakeOwnSell(ts, no, strategy, ticker, Some("MANUAL"), Manual, None);
      case SellFallback(ts, no, strategy, ticker, price) =>
        TakeOwnSell(ts, no, strategy, ticker, None, Fallback, Some(price));
    }

    method FeedEvents(evs: seq<Event>)
      modifies this
      ensures State() == FeedAll(old(State()), evs)
    {
      for i := 0 to |evs|
        invariant State() == FeedAll(old(State()), evs[..i])
      {
        assert evs[..i + 1][..i] == evs[..i];
        PurgeAt(evs[i].ts);
        Take(evs[i]);
      }
      assert evs[..|evs|] == evs;
    }

    // ---- snapshots -----------------------------------------------------------------------

    /** One signal joins its ring unless it is too old or already there. */
    method JoinSignal(strategy: string, sig: Signal, params: map<string, real>, at: Time)
      modifies this`ring
      ensures JoinedOne(old(ring), ring, (strategy, sig.ticker), sig, params, at)
    {
      var key := (strategy, sig.ticker);
      if SignalTime(at, sig) < at - KEEP {
        return;
      }
      ring := ring[key := RingOf(ring, key)];
      if exists e :: e in ring[key] && e.signal.time == sig.time {
        return;
      }
      ring := ring[key := ring[key] + [RingEntry(SignalTime(at, sig), sig, params)]];
    }

    /** One strategy's signals join their rings, in order. */
    method JoinSignals(strategy: string, sigs: seq<Signal>, params: map<string, real>, at: Time)
      modifies this`ring
      ensures JoinedRings(old(ring), ring, strategy, sigs, params, at)
    {
      for i := 0 to |sigs|
        invariant JoinedRings(old(ring), ring, strategy, sigs[..i], params, at)
      {
        ghost var mid := ring;
        JoinSignal(strategy, sigs[i], params, at);
        JoinNext(old(ring), mid, ring, strategy, sigs[..i], sigs[i], params, at);
        assert sigs[..i + 1] == sigs[..i] + [sigs[i]];
      }
      assert sigs[..|sigs|] == sigs;
    }

    method UpdateRing(g0: G0, at: Time)
      modifies this`ring
      ensures ring == NewRing(old(ring), g0.strategies, at)
    {
      var todo := g0.strategies.Keys;
      while todo != {}
        invariant todo <= g0.strategies.Keys && RingsAfter(old(ring), ring, g0.strategies, todo, at)
        decreases |todo|
      {
        var s :| s in todo;
        ghost var mid := ring;
        JoinSignals(s, g0.strategies[s].signals, g0.strategies[s].params, at);
        StrategyDone(old(ring), mid, ring, g0.strategies, todo, s, at);
        todo := todo - {s};
      }
      SameRings(old(ring), ring, g0.strategies, at);
      ring := Kept(ring, at - KEEP);
    }

    method TakeSnapshot(g0: Option<G0>, g1: Option<G1>, at: Time)
      modifies this
      ensures State() == FeedSnapshot(old(State()), g0, g1, at)
    {
      if g0.Some? {
        UpdateRing(g0.value, at);
        paramsHist := Pushed(paramsHist, Snap(at, ParamsOf(g0.value.strategies)));
      }
      if g1.Some? {
        itemsHist := Pushed(itemsHist, Snap(at, ItemsByKey(g1.value)));
      }
    }

    // ---- leaving -------------------------------------------------------------------------

    /** Rows and exit events of the anchors let go. */
    method Emit(pending: seq<Anchor>, trades: map<string, string>) returns (orders: seq<Row>, stops: seq<StopEvent>)
      ensures orders == RowsOf(State(), pending, trades) && stops == StopsOf(pending)
    {
      orders, stops := [], [];
      for i := 0 to |pending|
        invariant orders == RowsOf(State(), pending[..i], trades) && stops == StopsOf(pending[..i])
      {
        assert pending[..i + 1][..i] == pending[..i];
        orders := orders + [Finalize(State(), pending[i], trades)];
        if pending[i].SellAnchor? && pending[i].stop.Some? {
          stops := stops + [pending[i].stop.value];
        }
      }
      assert pending[..|pending|] == pending;
    }

    method Drain(final: bool, trades: map<string, string>) returns (orders: seq<Row>, stops: seq<StopEvent>)
      modifies this`incoming, this`ready
      ensures State() == Drained(old(State()), final)
      ensures orders == RowsOf(old(State()), Leaving(old(State()), final), trades)
      ensures stops == StopsOf(Leaving(old(State()), final))
    {
      var pending := ready;
      if final {
        pending := ready + incoming;
        ready := [];
      } else {
        ready := incoming;
      }
      incoming := [];
      orders, stops := Emit(pending, trades);
      SameRows(old(State()), State(), pending, trades);
    }

    function ExternalNoticeOrders(): set<string>
      reads this
      ensures forall no :: no in ExternalNoticeOrders() <==> no in noticeNos && no !in anchorNos
    {
      ExternalNotices(State())
    }
  }

  lemma SameReorder(a: Memory, b: Memory, ts: Time, no: string, ticker: string)
    requires a.lastSell == b.lastSell && a.itemsHist == b.itemsHist
    ensures ReorderAnchor(a, ts, no, ticker) == ReorderAnchor(b, ts, no, ticker)
  {
  }

  lemma SameRow(a: Memory, b: Memory, anchor: Anchor, trades: map<string, string>)
    requires a.ring == b.ring && a.buySignals == b.buySignals && a.notices == b.notices && a.source == b.source
    ensures Finalize(a, anchor, trades) == Finalize(b, anchor, trades)
  {
  }

  lemma SameRows(a: Memory, b: Memory, pending: seq<Anchor>, trades: map<string, string>)
    requires a.ring == b.ring && a.buySignals == b.buySignals && a.notices == b.notices && a.source == b.source
    ensures RowsOf(a, pending, trades) == RowsOf(b, pending, trades)
  {
    forall i | 0 <= i < |pending| ensures RowsOf(a, pending, trades)[i] == RowsOf(b, pending, trades)[i] {
      SameRow(a, b, pending[i], trades);
    }
  }

  type Rings = map<K, seq<RingEntry>>

  /** The ring under `key` took the signal, and no other ring changed. */
  ghost predicate JoinedOne(before: Rings, after: Rings, key: K, sig: Signal, params: map<string, real>, at: Time) {
    && RingOf(after, key) == Joined(RingOf(before, key), sig, params, at)
    && (forall k: K :: k != key ==> RingOf(after, k) == RingOf(before, k))
    && after.Keys <= before.Keys + {key}
  }

  function SignalKeys(strategy: string, sigs: seq<Signal>): set<K> { set sig | sig in sigs :: (strategy, sig.ticker) }

  ghost predicate JoinedRings(before: Rings, after: Rings, strategy: string, sigs: seq<Signal>,
                              params: map<string, real>, at: Time)
  {
    && (forall t: string ::
          RingOf(after, (strategy, t)) == JoinedAll(RingOf(before, (strategy, t)), t, sigs, params, at))
    && (forall k: K :: k.0 != strategy ==> RingOf(after, k) == RingOf(before, k))
    && after.Keys <= before.Keys + SignalKeys(strategy, sigs)
  }

  lemma JoinedAllSnoc(es: seq<RingEntry>, t: string, sigs: seq<Signal>, sig: Signal, params: map<string, real>,
                      at: Time)
    ensures JoinedAll(es, t, sigs + [sig], params, at)
            == if sig.ticker == t then Joined(JoinedAll(es, t, sigs, params, at), sig, params, at)
              else JoinedAll(es, t, sigs, params, at)
  {
    assert (sigs + [sig])[..|sigs|] == sigs;
  }

  lemma SignalKeysSnoc(strategy: string, sigs: seq<Signal>, sig: Signal)
    ensures SignalKeys(strategy, sigs) + {(strategy, sig.ticker)} <= SignalKeys(strategy, sigs + [sig])
  {
    assert sig in sigs + [sig];
    forall k | k in SignalKeys(strategy, sigs) ensures k in SignalKeys(strategy, sigs + [sig]) {
      var x :| x in sigs && k == (strategy, x.ticker);
      assert x in sigs + [sig];
    }
  }

  lemma JoinNext(before: Rings, mid: Rings, after: Rings, strategy: string, sigs: seq<Signal>, sig: Signal,
                 params: map<string, real>, at: Time)
    requires JoinedRings(before, mid, strategy, sigs, params, at)
             && JoinedOne(mid, after, (strategy, sig.ticker), sig, params, at)
    ensures JoinedRings(before, after, strategy, sigs + [sig], params, at)
  {
    SignalKeysSnoc(strategy, sigs, sig);
    forall t: string
      ensures RingOf(after, (strategy, t)) == JoinedAll(RingOf(before, (strategy, t)), t, sigs + [sig], params, at)
    {
      JoinedAllSnoc(RingOf(before, (strategy, t)), t, sigs, sig, params, at);
    }
  }

  /** The rings once all strategies but `todo` have joined. */
  ghost predicate RingsAfter(before: Rings, ring: Rings, strategies: map<string, StrategyState>, todo: set<string>,
                             at: Time)
  {
    && (forall k: K :: k.0 in strategies && k.0 !in todo ==> RingOf(ring, k) == RingAfter(before, strategies, at, k))
    && (forall k: K :: k.0 !in strategies || k.0 in todo ==> RingOf(ring, k) == RingOf(before, k))
    && ring.Keys <= before.Keys + StrategyKeys(strategies)
  }

  lemma StrategyDone(before: Rings, mid: Rings, after: Rings, strategies: map<string, StrategyState>,
                     todo: set<string>, s: string, at: Time)
    requires s in todo && s in strategies && RingsAfter(before, mid, strategies, todo, at)
    requires JoinedRings(mid, after, s, strategies[s].signals, strategies[s].params, at)
    ensures RingsAfter(before, after, strategies, todo - {s}, at)
  {
    forall k: K | k.0 == s ensures RingOf(after, k) == RingAfter(before, strategies, at, k) {
      assert k == (s, k.1) && RingOf(mid, k) == RingOf(before, k);
    }
    forall k | k in SignalKeys(s, strategies[s].signals) ensures k in StrategyKeys(strategies) {
      var x :| x in strategies[s].signals && k == (s, x.ticker);
    }
  }

  lemma KeptSame(a: Rings, b: Rings, cutoff: Time)
    requires forall k: K :: RingOf(a, k) == RingOf(b, k)
    ensures Kept(a, cutoff) == Kept(b, cutoff)
  {
    assert Recent([], cutoff) == [];
    forall k: K ensures k in Kept(a, cutoff) <==> k in Kept(b, cutoff) {
      assert RingOf(a, k) == RingOf(b, k);
    }
    forall k: K | k in Kept(a, cutoff) ensures Kept(a, cutoff)[k] == Kept(b, cutoff)[k] {
      assert RingOf(a, k) == RingOf(b, k);
    }
  }

  lemma SameRings(before: Rings, full: Rings, strategies: map<string, StrategyState>, at: Time)
    requires RingsAfter(before, full, strategies, {}, at)
    ensures Kept(full, at - KEEP) == NewRing(before, strategies, at)
  {
    var wanted := map key | key in before.Keys + StrategyKeys(strategies) :: RingAfter(before, strategies, at, key);
    forall k: K ensures RingOf(full, k) == RingOf(wanted, k) {
      assert RingOf(full, k) == RingAfter(before, strategies, at, k);
    }
    KeptSame(full, wanted, at - KEEP);
  }
}
