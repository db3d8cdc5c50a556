/** Forgetting is invisible: a live pairer answers as one that never forgets. */
module PairingPurge {
  import opened Basics
  import opened Journal
  import opened Pairing

  // ---- lookups over a shortened list -------------------------------------------------------

  lemma SinceSnoc<T>(es: seq<Entry<T>>, e: Entry<T>, c: Time)
    ensures Since(es + [e], c) == Since(es, c) + (if e.ts >= c then [e] else [])
  {
    assert (es + [e])[..|es|] == es;
  }

  lemma LatestSnoc<T>(es: seq<Entry<T>>, e: Entry<T>, strategy: string, ticker: string, from: Time, to: Time)
    ensures var best := Latest(es, strategy, ticker, from, to);
            Latest(es + [e], strategy, ticker, from, to) ==
              if Wanted(e, strategy, ticker, from, to) && (best.None? || e.ts > best.value.ts) then Some(e) else best
  {
    assert (es + [e])[..|es|] == es;
  }

  lemma {:induction false} SinceSince<T>(es: seq<Entry<T>>, c: Time, c': Time)
    requires c <= c'
    ensures Since(Since(es, c), c') == Since(es, c')
  {
    if es != [] {
      var pre := Since(es[..|es| - 1], c);
      SinceSince(es[..|es| - 1], c, c');
      SinceSnoc(pre, es[|es| - 1], c');
      assert pre + [] == pre;
    }
  }

  lemma {:induction false} LatestSince<T>(es: seq<Entry<T>>, c: Time, strategy: string, ticker: string, from: Time,
                                          to: Time)
    requires c <= from
    ensures Latest(Since(es, c), strategy, ticker, from, to) == Latest(es, strategy, ticker, from, to)
  {
    if es != [] {
      var pre := Since(es[..|es| - 1], c);
      LatestSince(es[..|es| - 1], c, strategy, ticker, from, to);
      LatestSnoc(pre, es[|es| - 1], strategy, ticker, from, to);
      assert pre + [] == pre;
    }
  }

  /** What `Latest` finds: an entry of the window that none of the window is later than. */
  lemma {:induction false} LatestIsLatest<T>(es: seq<Entry<T>>, strategy: string, ticker: string, from: Time, to: Time)
    ensures var r := Latest(es, strategy, ticker, from, to);
            && (r.Some? ==> r.value in es && Wanted(r.value, strategy, ticker, from, to))
            && (forall e :: e in es && Wanted(e, strategy, ticker, from, to) ==> r.Some? && e.ts <= r.value.ts)
  {
    if es != [] {
      LatestIsLatest(es[..|es| - 1], strategy, ticker, from, to);
      assert es == es[..|es| - 1] + [es[|es| - 1]];
    }
  }

  /** The lists agree on everything from `c` on. */
  ghost predicate Agree<T>(a: seq<Entry<T>>, b: seq<Entry<T>>, c: Time) { Since(a, c) == Since(b, c) }

  lemma AgreeLater<T>(a: seq<Entry<T>>, b: seq<Entry<T>>, c: Time, c': Time)
    requires Agree(a, b, c) && c <= c'
    ensures Agree(a, b, c') && Agree(Since(a, c'), b, c')
  {
    SinceSince(a, c, c');
    SinceSince(b, c, c');
    SinceSince(a, c', c');
  }

  lemma AgreeAppend<T>(a: seq<Entry<T>>, b: seq<Entry<T>>, c: Time, e: Entry<T>)
    requires Agree(a, b, c)
    ensures Agree(a + [e], b + [e], c)
  {
    SinceSnoc(a, e, c);
    SinceSnoc(b, e, c);
  }

  lemma AgreeAnswers<T>(a: seq<Entry<T>>, b: seq<Entry<T>>, c: Time, strategy: string, ticker: string, from: Time,
                        to: Time)
    requires Agree(a, b, c) && c <= from
    ensures Latest(a, strategy, ticker, from, to) == Latest(b, strategy, ticker, from, to)
  {
    LatestSince(a, c, strategy, ticker, from, to);
    LatestSince(b, c, strategy, ticker, from, to);
  }

  ghost predicate AllBy<T>(es: seq<Entry<T>>, w: Time) { forall i :: 0 <= i < |es| ==> es[i].ts <= w }

  lemma DateOrder(a: Time, b: Time)
    requires a <= b
    ensures DayStart(a) <= DayStart(b) <= b
    ensures Date(a) == Date(b) <==> a >= DayStart(b)
  {
  }

  /** Keeping one day's entries keeps all from its start on, when none lies beyond it. */
  lemma {:induction false} DayIsSince<T>(es: seq<Entry<T>>, w: Time)
    requires AllBy(es, w)
    ensures OnDay(es, Date(w)) == Since(es, DayStart(w)) && AllBy(OnDay(es, Date(w)), w)
  {
    if es != [] {
      DayIsSince(es[..|es| - 1], w);
      DateOrder(es[|es| - 1].ts, w);
    }
  }

  // ---- runs ------------------------------------------------------------------------------

  datatype Input = Snapshot(g0: Option<G0>, g1: Option<G1>, at: Time) | Line(ev: Event) | Drain(final: bool)

  function Next(m: Memory, input: Input): Memory {
    match input
    case Snapshot(g0, g1, at) => FeedSnapshot(m, g0, g1, at)
    case Line(ev) => Feed(m, ev)
    case Drain(final) => Drained(m, final)
  }

  function Run(m: Memory, inputs: seq<Input>): Memory {
    if inputs == [] then m else Next(Run(m, inputs[..|inputs| - 1]), inputs[|inputs| - 1])
  }

  /** Time of the last line. */
  function LastTime(inputs: seq<Input>): Option<Time> {
    if inputs == [] then None
    else if inputs[|inputs| - 1].Line? then Some(inputs[|inputs| - 1].ev.ts)
    else LastTime(inputs[..|inputs| - 1])
  }

  /** Line times never go back. */
  ghost predicate Ordered(inputs: seq<Input>) {
    inputs == []
    || (var n := |inputs| - 1;
        Ordered(inputs[..n]) && (inputs[n].Line? && LastTime(inputs[..n]).Some?
                                 ==> LastTime(inputs[..n]).value <= inputs[n].ev.ts))
  }

  // ---- the two pairers compared ------------------------------------------------------------

  predicate OwnNumber(a: Anchor) { a.path == Accept || a.path == Manual || (a.SellAnchor? && a.path == Fallback) }

  /** The anchors whose line names its own order. */
  function Own(anchors: seq<Anchor>): seq<Anchor> {
    if anchors == [] then []
    else Own(anchors[..|anchors| - 1]) + (if OwnNumber(anchors[|anchors| - 1]) then [anchors[|anchors| - 1]] else [])
  }

  /** Everything that does not depend on the lists that are swept. */
  ghost predicate SameCore(p: Memory, q: Memory) {
    && Own(p.incoming) == Own(q.incoming) && Own(p.ready) == Own(q.ready)
    && p.ring == q.ring && p.paramsHist == q.paramsHist && p.itemsHist == q.itemsHist
    && p.lastBuy == q.lastBuy && p.lastSell == q.lastSell
  }

  /** The swept lists agree on what is recent at `w`. */
  ghost predicate SameRecent(p: Memory, q: Memory, w: Time) {
    && Agree(p.reasons, q.reasons, w - KEEP) && Agree(p.statuses, q.statuses, w - KEEP)
    && Agree(p.buySignals, q.buySignals, w - KEEP) && Agree(p.defers, q.defers, DayStart(w))
    && AllBy(p.defers, w) && AllBy(q.defers, w)
  }

  /** `p` forgets, `q` does not; `last` is the time of the last line. */
  ghost predicate Alike(p: Memory, q: Memory, last: Option<Time>) {
    && Live(p) && !Live(q) && SameCore(p, q) && p.watermark == last
    && (last.None? ==>
          && p.reasons == q.reasons == [] && p.statuses == q.statuses == []
          && p.buySignals == q.buySignals == [] && p.defers == q.defers == [])
    && (last.Some? ==> SameRecent(p, q, last.value) && p.day == Some(Date(last.value)))
  }

  lemma RecentLater(p: Memory, q: Memory, w: Time, w': Time)
    requires SameRecent(p, q, w) && w <= w'
    ensures SameRecent(p, q, w')
  {
    AgreeLater(p.reasons, q.reasons, w - KEEP, w' - KEEP);
    AgreeLater(p.statuses, q.statuses, w - KEEP, w' - KEEP);
    AgreeLater(p.buySignals, q.buySignals, w - KEEP, w' - KEEP);
    DefersLater(p.defers, q.defers, w, w');
  }

  lemma DefersLater(a: seq<Entry<Deferral>>, b: seq<Entry<Deferral>>, w: Time, w': Time)
    requires Agree(a, b, DayStart(w)) && w <= w'
    ensures Agree(a, b, DayStart(w'))
  {
    DateOrder(w, w');
    AgreeLater(a, b, DayStart(w), DayStart(w'));
  }

  // ---- forgetting keeps them alike ---------------------------------------------------------

  /** Purging at `ts` may shorten the four lists and touches none of the core. */
  ghost predicate Forgot(m: Memory, m': Memory, ts: Time) {
    && (m'.reasons == m.reasons || m'.reasons == Since(m.reasons, ts - KEEP))
    && (m'.statuses == m.statuses || m'.statuses == Since(m.statuses, ts - KEEP))
    && (m'.buySignals == m.buySignals || m'.buySignals == Since(m.buySignals, ts - KEEP))
    && (m'.defers == m.defers || m'.defers == OnDay(m.defers, Date(ts)))
  }

  ghost predicate CoreKept(m: Memory, m': Memory) {
    && m'.source == m.source && m'.incoming == m.incoming && m'.ready == m.ready
    && m'.ring == m.ring && m'.paramsHist == m.paramsHist && m'.itemsHist == m.itemsHist
    && m'.lastBuy == m.lastBuy && m'.lastSell == m.lastSell
  }

  lemma PurgeForgets(m: Memory, ts: Time)
    requires Live(m) && (m.watermark.Some? ==> m.watermark.value <= ts)
    ensures Forgot(m, Purge(m, ts), ts)
    ensures Purge(m, ts).watermark == Some(ts) && Purge(m, ts).day == Some(Date(ts))
  {
    assert Risen(m.watermark, ts) == ts;
  }

  lemma PurgeKeepsCore(m: Memory, ts: Time)
    ensures CoreKept(m, Purge(m, ts))
  {
  }

  lemma ForgottenAgrees(p: Memory, p': Memory, q: Memory, ts: Time)
    requires Forgot(p, p', ts) && SameRecent(p, q, ts)
    ensures SameRecent(p', q, ts)
  {
    AgreeLater(p.reasons, q.reasons, ts - KEEP, ts - KEEP);
    AgreeLater(p.statuses, q.statuses, ts - KEEP, ts - KEEP);
    AgreeLater(p.buySignals, q.buySignals, ts - KEEP, ts - KEEP);
    AgreeLater(p.defers, q.defers, DayStart(ts), DayStart(ts));
    DayIsSince(p.defers, ts);
  }

  lemma PurgeKeepsAlike(p: Memory, q: Memory, last: Option<Time>, ts: Time)
    requires Alike(p, q, last) && (last.Some? ==> last.value <= ts)
    ensures Alike(Purge(p, ts), q, Some(ts))
  {
    PurgeForgets(p, ts);
    PurgeKeepsCore(p, ts);
    StepAlike(p, Purge(p, ts), q, last, ts);
  }

  lemma StepAlike(p: Memory, p': Memory, q: Memory, last: Option<Time>, ts: Time)
    requires Alike(p, q, last) && (last.Some? ==> last.value <= ts)
    requires Forgot(p, p', ts) && CoreKept(p, p') && p'.watermark == Some(ts) && p'.day == Some(Date(ts))
    ensures Alike(p', q, Some(ts))
  {
    if last.Some? { RecentLater(p, q, last.value, ts); }
    ForgottenAgrees(p, p', q, ts);
  }

  // ---- hearing a line keeps them alike -----------------------------------------------------

  /** What a line adds to each of the four lists. */
  function MoreReasons(ev: Event): seq<Entry<ExitInfo>> {
    if ev.ExitReason? then [Entry(ev.ts, ev.strategy, ev.ticker, ev.info)] else []
  }

  function MoreStatuses(ev: Event): seq<Entry<Option<string>>> {
    if ev.StatusExit? then [Entry(ev.ts, ev.strategy, ev.ticker, ev.reason)] else []
  }

  function MoreSignals(ev: Event): seq<Entry<Option<real>>> {
    if ev.BuySignal? then [Entry(ev.ts, ev.strategy, ev.ticker, ev.signalPrice)] else []
  }

  function MoreDefers(ev: Event): seq<Entry<Deferral>> {
    if ev.NdcDefer? then [Entry(ev.ts, ev.strategy, ev.ticker, Deferral(ev.reasonSub, ev.gap, ev.threshold))] else []
  }

  ghost predicate Listened(m: Memory, m': Memory, ev: Event) {
    && m'.reasons == m.reasons + MoreReasons(ev) && m'.statuses == m.statuses + MoreStatuses(ev)
    && m'.buySignals == m.buySignals + MoreSignals(ev) && m'.defers == m.defers + MoreDefers(ev)
    && m'.watermark == m.watermark && m'.day == m.day && m'.source == m.source
    && m'.ready == m.ready && m'.ring == m.ring && m'.paramsHist == m.paramsHist && m'.itemsHist == m.itemsHist
  }

  predicate NamesOrder(ev: Event) { ev.BuyAccept? || ev.SellAccept? || ev.ManualSell? || ev.SellFallback? }

  predicate Claims(ev: Event) { ev.BuyFallback? || ev.Reorder? }

  lemma NamingListens(m: Memory, ev: Event)
    requires NamesOrder(ev)
    ensures Listened(m, Hear(m, ev), ev)
  {
    assert m.reasons + [] == m.reasons && m.statuses + [] == m.statuses && m.buySignals + [] == m.buySignals
           && m.defers + [] == m.defers;
  }

  lemma ClaimingListens(m: Memory, ev: Event)
    requires Claims(ev)
    ensures Listened(m, Hear(m, ev), ev)
  {
    assert m.reasons + [] == m.reasons && m.statuses + [] == m.statuses && m.buySignals + [] == m.buySignals
           && m.defers + [] == m.defers;
  }

  lemma OtherListens(m: Memory, ev: Event)
    requires !NamesOrder(ev) && !Claims(ev)
    ensures Listened(m, Hear(m, ev), ev)
    ensures var m' := Hear(m, ev);
            m'.incoming == m.incoming && m'.lastBuy == m.lastBuy && m'.lastSell == m.lastSell
  {
    assert m.reasons + [] == m.reasons && m.statuses + [] == m.statuses && m.buySignals + [] == m.buySignals
           && m.defers + [] == m.defers;
  }

  lemma HearListens(m: Memory, ev: Event)
    ensures Listened(m, Hear(m, ev), ev)
  {
    if NamesOrder(ev) {
      NamingListens(m, ev);
    } else if Claims(ev) {
      ClaimingListens(m, ev);
    } else {
      OtherListens(m, ev);
    }
  }

  lemma ListenedAgrees(p: Memory, p': Memory, q: Memory, q': Memory, ev: Event)
    requires Listened(p, p', ev) && Listened(q, q', ev) && SameRecent(p, q, ev.ts)
    ensures SameRecent(p', q', ev.ts)
  {
    AgreeMore(p.reasons, q.reasons, ev.ts - KEEP, MoreReasons(ev));
    AgreeMore(p.statuses, q.statuses, ev.ts - KEEP, MoreStatuses(ev));
    AgreeMore(p.buySignals, q.buySignals, ev.ts - KEEP, MoreSignals(ev));
    AgreeMore(p.defers, q.defers, DayStart(ev.ts), MoreDefers(ev));
    AllByMore(p.defers, ev);
    AllByMore(q.defers, ev);
  }

  lemma AllByMore(es: seq<Entry<Deferral>>, ev: Event)
    requires AllBy(es, ev.ts)
    ensures AllBy(es + MoreDefers(ev), ev.ts)
  {
  }

  lemma AgreeMore<T>(a: seq<Entry<T>>, b: seq<Entry<T>>, c: Time, more: seq<Entry<T>>)
    requires Agree(a, b, c) && |more| <= 1
    ensures Agree(a + more, b + more, c)
  {
    if more == [] {
      assert a + more == a && b + more == b;
    } else {
      AgreeAppend(a, b, c, more[0]);
      assert more == [more[0]];
    }
  }

  lemma SameDetail(p: Memory, q: Memory, strategy: string, ticker: string, raw: Option<string>, ts: Time, no: string)
    requires SameRecent(p, q, ts) && p.paramsHist == q.paramsHist && p.itemsHist == q.itemsHist
             && p.lastBuy == q.lastBuy
    ensures Detail(p, strategy, ticker, raw, ts, no) == Detail(q, strategy, ticker, raw, ts, no)
  {
    SameAnswers(p, q, strategy, ticker, ts);
  }

  lemma SameAnswers(p: Memory, q: Memory, strategy: string, ticker: string, ts: Time)
    requires SameRecent(p, q, ts)
    ensures LastReason(p, strategy, ticker, ts) == LastReason(q, strategy, ticker, ts)
    ensures LastStatus(p, strategy, ticker, ts) == LastStatus(q, strategy, ticker, ts)
    ensures LastDefer(p, strategy, ticker, ts) == LastDefer(q, strategy, ticker, ts)
  {
    AgreeAnswers(p.reasons, q.reasons, ts - KEEP, strategy, ticker, ts - REASON_WINDOW, ts);
    AgreeAnswers(p.statuses, q.statuses, ts - KEEP, strategy, ticker, ts - REASON_WINDOW, ts);
    AgreeAnswers(p.defers, q.defers, DayStart(ts), strategy, ticker, DayStart(ts), ts);
  }

  lemma OwnAppend(anchors: seq<Anchor>, a: Anchor)
    ensures Own(anchors + [a]) == Own(anchors) + (if OwnNumber(a) then [a] else [])
  {
    assert (anchors + [a])[..|anchors|] == anchors;
  }

  /** The core part of hearing a sell that names its order. */
  lemma OwnSellSameCore(p: Memory, q: Memory, ts: Time, no: string, strategy: string, ticker: string,
                        raw: Option<string>, path: Path, orderPrice: Option<real>)
    requires SameRecent(p, q, ts) && SameCore(p, q)
    ensures SameCore(HearOwnSell(p, ts, no, strategy, ticker, raw, path, orderPrice),
                     HearOwnSell(q, ts, no, strategy, ticker, raw, path, orderPrice))
  {
    var (p1, q1) := (Named(p, no), Named(q, no));
    SameDetail(p1, q1, strategy, ticker, raw, ts, no);
    var a := OwnSell(p1, no, ticker, strategy, raw, ts, path, orderPrice);
    SellSameCore(p1, q1, strategy, a);
  }

  lemma SellSameCore(p: Memory, q: Memory, strategy: string, a: Anchor)
    requires SameCore(p, q) && a.SellAnchor?
    ensures SameCore(BringSell(p, strategy, a), BringSell(q, strategy, a))
  {
    OwnAppend(p.incoming, a);
    OwnAppend(q.incoming, a);
  }

  lemma BuyAcceptSameCore(p: Memory, q: Memory, ts: Time, no: string, strategy: string, ticker: string, price: real)
    requires SameCore(p, q)
    ensures SameCore(HearBuyAccept(p, ts, no, strategy, ticker, price),
                     HearBuyAccept(q, ts, no, strategy, ticker, price))
  {
    OwnAppend(p.incoming, BuyAnchor(no, ticker, Some(strategy), ts, Accept, Some(price)));
    OwnAppend(q.incoming, BuyAnchor(no, ticker, Some(strategy), ts, Accept, Some(price)));
  }

  lemma FallbackKeepsCore(m: Memory, ts: Time, ticker: string, price: real)
    ensures var m' := HearBuyFallback(m, ts, ticker, price);
            Own(m'.incoming) == Own(m.incoming) && m'.lastBuy == m.lastBuy && m'.lastSell == m.lastSell
  {
    var best := BestDone(m.dones, Buy, ticker, ts, None);
    if best.Some? { OwnAppend(m.incoming, BuyAnchor(m.dones[best.value].no, ticker, None, ts, Fallback, Some(price))); }
  }

  lemma ReorderKeepsCore(m: Memory, ts: Time, ticker: string, qty: int)
    ensures var m' := HearReorder(m, ts, ticker, qty);
            Own(m'.incoming) == Own(m.incoming) && m'.lastBuy == m.lastBuy && m'.lastSell == m.lastSell
  {
    var best := BestDone(m.dones, Sell, ticker, ts, Some(qty));
    if best.Some? { OwnAppend(m.incoming, ReorderAnchor(m, ts, m.dones[best.value].no, ticker)); }
  }

  /** A claimed completion brings no anchor that names its own order. */
  lemma ClaimKeepsCore(m: Memory, ev: Event)
    requires Claims(ev)
    ensures var m' := Hear(m, ev);
            Own(m'.incoming) == Own(m.incoming) && m'.lastBuy == m.lastBuy && m'.lastSell == m.lastSell
  {
    if ev.BuyFallback? {
      FallbackKeepsCore(m, ev.ts, ev.ticker, ev.price);
    } else {
      ReorderKeepsCore(m, ev.ts, ev.ticker, ev.qty);
    }
  }

  lemma NamedSameCore(p: Memory, q: Memory, ev: Event)
    requires NamesOrder(ev) && SameRecent(p, q, ev.ts) && SameCore(p, q)
    ensures SameCore(Hear(p, ev), Hear(q, ev))
  {
    match ev
    case BuyAccept(ts, no, strategy, ticker, price) => BuyAcceptSameCore(p, q, ts, no, strategy, ticker, price);
    case SellAccept(ts, no, strategy, ticker, signal) =>
      OwnSellSameCore(p, q, ts, no, strategy, ticker, Some(signal), Accept, None);
    case ManualSell(ts, no, strategy, ticker) =>
      OwnSellSameCore(p, q, ts, no, strategy, ticker, Some("MANUAL"), Manual, None);
    case SellFallback(ts, no, strategy, ticker, price) =>
      OwnSellSameCore(p, q, ts, no, strategy, ticker, None, Fallback, Some(price));
    case _ => assert false;
  }

  lemma HearSameCore(p: Memory, q: Memory, ev: Event)
    requires SameRecent(p, q, ev.ts) && SameCore(p, q)
    ensures SameCore(Hear(p, ev), Hear(q, ev))
  {
    if NamesOrder(ev) {
      NamedSameCore(p, q, ev);
    } else {
      HearListens(p, ev);
      HearListens(q, ev);
      if Claims(ev) {
        ClaimKeepsCore(p, ev);
        ClaimKeepsCore(q, ev);
      } else {
        OtherListens(p, ev);
        OtherListens(q, ev);
      }
    }
  }

  lemma HearAlike(p: Memory, q: Memory, ev: Event)
    requires Alike(p, q, Some(ev.ts))
    ensures Alike(Hear(p, ev), Hear(q, ev), Some(ev.ts))
  {
    HearListens(p, ev);
    HearListens(q, ev);
    HearSameCore(p, q, ev);
    ListenedAlike(p, Hear(p, ev), q, Hear(q, ev), ev);
  }

  lemma ListenedAlike(p: Memory, p': Memory, q: Memory, q': Memory, ev: Event)
    requires Alike(p, q, Some(ev.ts)) && Listened(p, p', ev) && Listened(q, q', ev) && SameCore(p', q')
    ensures Alike(p', q', Some(ev.ts))
  {
    ListenedAgrees(p, p', q, q', ev);
  }

  lemma {:induction false} OwnConcat(a: seq<Anchor>, b: seq<Anchor>)
    ensures Own(a + b) == Own(a) + Own(b)
  {
    if b == [] {
      assert a + b == a;
    } else {
      assert (a + b)[..|a + b| - 1] == a + b[..|b| - 1];
      OwnConcat(a, b[..|b| - 1]);
    }
  }

  lemma NextAlike(p: Memory, q: Memory, input: Input, last: Option<Time>)
    requires Alike(p, q, last) && (input.Line? && last.Some? ==> last.value <= input.ev.ts)
    ensures Alike(Next(p, input), Next(q, input), if input.Line? then Some(input.ev.ts) else last)
  {
    match input
    case Snapshot(g0, g1, at) => SnapshotAlike(p, q, g0, g1, at, last);
    case Line(ev) =>
      PurgeKeepsAlike(p, q, last, ev.ts);
      HearAlike(Purge(p, ev.ts), q, ev);
    case Drain(final) =>
      DrainAlike(p, q, final, last);
  }

  lemma SnapshotAlike(p: Memory, q: Memory, g0: Option<G0>, g1: Option<G1>, at: Time, last: Option<Time>)
    requires Alike(p, q, last)
    ensures Alike(FeedSnapshot(p, g0, g1, at), FeedSnapshot(q, g0, g1, at), last)
  {
  }

  lemma DrainAlike(p: Memory, q: Memory, final: bool, last: Option<Time>)
    requires Alike(p, q, last)
    ensures Alike(Drained(p, final), Drained(q, final), last)
  {
  }

  lemma {:induction false} RunAlike(source: Source, inputs: seq<Input>)
    requires source != LogHarvest && Ordered(inputs)
    ensures Alike(Run(Empty(LogHarvest), inputs), Run(Empty(source), inputs), LastTime(inputs))
  {
    if inputs != [] {
      var n := |inputs| - 1;
      RunAlike(source, inputs[..n]);
      var (p, q) := (Run(Empty(LogHarvest), inputs[..n]), Run(Empty(source), inputs[..n]));
      NextAlike(p, q, inputs[n], LastTime(inputs[..n]));
    }
  }

  /** Whatever lines, snapshots and drains came before, every drain of a live pairer lets go the same
      own-number orders, in the same order and with the same resolved reason, lines, prices and exit
      event, as one that never forgets. */
  lemma PurgeIsInvisible(source: Source, inputs: seq<Input>, final: bool)
    requires source != LogHarvest && Ordered(inputs)
    ensures var (p, q) := (Run(Empty(LogHarvest), inputs), Run(Empty(source), inputs));
            Own(Leaving(p, final)) == Own(Leaving(q, final))
  {
    RunAlike(source, inputs);
    var (p, q) := (Run(Empty(LogHarvest), inputs), Run(Empty(source), inputs));
    OwnConcat(p.ready, p.incoming);
    OwnConcat(q.ready, q.incoming);
  }

  /** The answers behind those anchors, at the time of the line being heard. */
  lemma AnswersAgree(source: Source, inputs: seq<Input>, strategy: string, ticker: string)
    requires source != LogHarvest && Ordered(inputs) && LastTime(inputs).Some?
    ensures var (p, q, ts) := (Run(Empty(LogHarvest), inputs), Run(Empty(source), inputs), LastTime(inputs).value);
            && LastReason(p, strategy, ticker, ts) == LastReason(q, strategy, ticker, ts)
            && LastStatus(p, strategy, ticker, ts) == LastStatus(q, strategy, ticker, ts)
            && LastDefer(p, strategy, ticker, ts) == LastDefer(q, strategy, ticker, ts)
  {
    RunAlike(source, inputs);
    SameAnswers(Run(Empty(LogHarvest), inputs), Run(Empty(source), inputs), strategy, ticker, LastTime(inputs).value);
  }

  /** A buy's signal is looked up when it leaves: the answers agree while the newest line is at most the
      keeping time, less the window, past the buy. */
  lemma {:induction false} BuySignalsAgree(source: Source, inputs: seq<Input>, strategy: string, ticker: string,
                                           ts: Time)
    requires source != LogHarvest && Ordered(inputs)
    requires LastTime(inputs).Some? ==> LastTime(inputs).value <= ts + KEEP - SIGNAL_WINDOW
    ensures ResolveBuy(Run(Empty(LogHarvest), inputs), strategy, ticker, ts)
            == ResolveBuy(Run(Empty(source), inputs), strategy, ticker, ts)
  {
    RunAlike(source, inputs);
    SameBuySource(Run(Empty(LogHarvest), inputs), Run(Empty(source), inputs), LastTime(inputs), strategy, ticker, ts);
  }

  lemma SameBuySource(p: Memory, q: Memory, last: Option<Time>, strategy: string, ticker: string, ts: Time)
    requires Alike(p, q, last) && (last.Some? ==> last.value <= ts + KEEP - SIGNAL_WINDOW)
    ensures ResolveBuy(p, strategy, ticker, ts) == ResolveBuy(q, strategy, ticker, ts)
  {
    if last.Some? {
      AgreeAnswers(p.buySignals, q.buySignals, last.value - KEEP, strategy, ticker, ts - SIGNAL_WINDOW, ts);
    }
  }

  // ---- the bound is tight --------------------------------------------------------------------

  /** A signal at the far end of the window of a buy at `ts`. */
  function SignalFor(strategy: string, ticker: string, ts: Time): Event {
    BuySignal(ts - SIGNAL_WINDOW, strategy, ticker, Some(1.0))
  }

  function EntryFor(strategy: string, ticker: string, ts: Time): Entry<Option<real>> {
    Entry(ts - SIGNAL_WINDOW, strategy, ticker, Some(1.0))
  }

  function ReasonAt(w: Time): Event {
    ExitReason(w, "", "", ExitInfo("", "", None, None, None, None, None, None, None, ""))
  }

  /** The signal, then `n` exit-reason lines at `w`. */
  function Followed(signal: Event, w: Time, n: nat): seq<Input> {
    if n == 0 then [Line(signal)] else Followed(signal, w, n - 1) + [Line(ReasonAt(w))]
  }

  lemma FollowedStep(signal: Event, w: Time, n: nat, source: Source)
    requires n > 0
    ensures Followed(signal, w, n)[..|Followed(signal, w, n)| - 1] == Followed(signal, w, n - 1)
    ensures Run(Empty(source), Followed(signal, w, n))
            == Feed(Run(Empty(source), Followed(signal, w, n - 1)), ReasonAt(w))
  {
    var inputs := Followed(signal, w, n);
    assert inputs[..|inputs| - 1] == Followed(signal, w, n - 1);
  }

  lemma {:induction false} FollowedOrdered(signal: Event, w: Time, n: nat)
    requires signal.ts <= w
    ensures Ordered(Followed(signal, w, n)) && LastTime(Followed(signal, w, n)) == Some(if n == 0 then signal.ts else w)
  {
    if n > 0 {
      FollowedOrdered(signal, w, n - 1);
      FollowedStep(signal, w, n, LogHarvest);
    } else {
      assert [Line(signal)][..0] == [];
    }
  }

  /** A live pairer that has forgotten the signal, or has kept every reason since. */
  ghost predicate Forgetting(m: Memory, e: Entry<Option<real>>, w: Time, n: nat) {
    && Live(m) && m.watermark.Some? && m.watermark.value <= w && m.ring == map[]
    && (m.buySignals == [] || (m.buySignals == [e] && |m.reasons| == n))
  }

  lemma SweepForgets(m: Memory, e: Entry<Option<real>>, w: Time, n: nat)
    requires Forgetting(m, e, w, n) && e.ts < w - KEEP
    ensures Forgetting(Purge(m, w), e, w, n) && (n > CROWDED ==> Purge(m, w).buySignals == [])
  {
    assert Risen(m.watermark, w) == w;
    assert [e][..0] == [] && Since([e], w - KEEP) == [];
    assert Since<Option<real>>([], w - KEEP) == [];
  }

  lemma ReasonForgets(m: Memory, e: Entry<Option<real>>, w: Time, n: nat)
    requires Forgetting(m, e, w, n) && e.ts < w - KEEP
    ensures Forgetting(Feed(m, ReasonAt(w)), e, w, n + 1) && (n > CROWDED ==> Feed(m, ReasonAt(w)).buySignals == [])
  {
    SweepForgets(m, e, w, n);
  }

  lemma {:induction false} FollowedForgets(strategy: string, ticker: string, ts: Time, w: Time, n: nat)
    requires ts - SIGNAL_WINDOW < w - KEEP
    ensures var m := Run(Empty(LogHarvest), Followed(SignalFor(strategy, ticker, ts), w, n));
            Forgetting(m, EntryFor(strategy, ticker, ts), w, n) && (n > CROWDED + 1 ==> m.buySignals == [])
  {
    var signal := SignalFor(strategy, ticker, ts);
    if n == 0 {
      assert [Line(signal)][..0] == [];
      assert Run(Empty(LogHarvest), [Line(signal)]) == Feed(Empty(LogHarvest), signal);
    } else {
      FollowedForgets(strategy, ticker, ts, w, n - 1);
      FollowedStep(signal, w, n, LogHarvest);
      ReasonForgets(Run(Empty(LogHarvest), Followed(signal, w, n - 1)), EntryFor(strategy, ticker, ts), w, n - 1);
    }
  }

  lemma {:induction false} FollowedKeeps(source: Source, strategy: string, ticker: string, ts: Time, w: Time, n: nat)
    requires source != LogHarvest
    ensures var m := Run(Empty(source), Followed(SignalFor(strategy, ticker, ts), w, n));
            !Live(m) && m.ring == map[] && m.buySignals == [EntryFor(strategy, ticker, ts)]
  {
    var signal := SignalFor(strategy, ticker, ts);
    if n == 0 {
      assert [Line(signal)][..0] == [];
      assert Run(Empty(source), [Line(signal)]) == Feed(Empty(source), signal);
    } else {
      FollowedKeeps(source, strategy, ticker, ts, w, n - 1);
      FollowedStep(signal, w, n, source);
    }
  }

  /** Past the bound, a crowd of reasons makes a live pairer forget a signal that still explains the buy. */
  lemma CrowdForgets(source: Source, strategy: string, ticker: string, ts: Time, w: Time)
    requires source != LogHarvest && w > ts + KEEP - SIGNAL_WINDOW
    ensures var inputs := Followed(SignalFor(strategy, ticker, ts), w, CROWDED + 2);
            && Ordered(inputs) && LastTime(inputs) == Some(w)
            && ResolveBuy(Run(Empty(LogHarvest), inputs), strategy, ticker, ts) == Nowhere
            && ResolveBuy(Run(Empty(source), inputs), strategy, ticker, ts) == FromLog(Some(1.0))
  {
    var e := EntryFor(strategy, ticker, ts);
    FollowedOrdered(SignalFor(strategy, ticker, ts), w, CROWDED + 2);
    FollowedForgets(strategy, ticker, ts, w, CROWDED + 2);
    FollowedKeeps(source, strategy, ticker, ts, w, CROWDED + 2);
    assert [e][..0] == [];
    assert Latest([e], strategy, ticker, ts - SIGNAL_WINDOW, ts) == Some(e);
  }

  /** After every ordered log whose last line is at `w`, a live pairer explains a buy at `ts` as one that
      never forgets does. */
  ghost predicate ExplainsAt(source: Source, strategy: string, ticker: string, ts: Time, w: Time) {
    forall inputs: seq<Input> :: Ordered(inputs) && LastTime(inputs) == Some(w) ==>
      ResolveBuy(Run(Empty(LogHarvest), inputs), strategy, ticker, ts)
        == ResolveBuy(Run(Empty(source), inputs), strategy, ticker, ts)
  }

  /** Exactly how late a buy may leave: the keeping time, less the window. */
  lemma BuySignalsAgreeIff(source: Source, strategy: string, ticker: string, ts: Time, w: Time)
    requires source != LogHarvest
    ensures ExplainsAt(source, strategy, ticker, ts, w) <==> w <= ts + KEEP - SIGNAL_WINDOW
  {
    if w <= ts + KEEP - SIGNAL_WINDOW {
      forall inputs: seq<Input> | Ordered(inputs) && LastTime(inputs) == Some(w)
        ensures ResolveBuy(Run(Empty(LogHarvest), inputs), strategy, ticker, ts)
                == ResolveBuy(Run(Empty(source), inputs), strategy, ticker, ts)
      {
        BuySignalsAgree(source, inputs, strategy, ticker, ts);
      }
    } else {
      CrowdForgets(source, strategy, ticker, ts, w);
    }
  }
}
