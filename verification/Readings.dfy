/** Reading the same lines again and again: what each reading brings depends on the lines alone. */
module Readings {
  import opened Basics
  import opened Journal
  import opened WorkerOnce
  import P = Pairing
  import M = PairingPurge

  type K = (string, string)

  // ---- two memories that heard the same lines --------------------------------------------------------

  /** What log lines decide, whatever the snapshots showed. */
  function LogPart(m: P.Memory): P.Memory {
    m.(incoming := [], ready := [], ring := map[], paramsHist := [], itemsHist := [])
  }

  /** The same order, and an exit event only where the other has one. */
  predicate Weaker(a: P.Anchor, b: P.Anchor) {
    a.Key() == b.Key() && (a.SellAnchor? && a.stop.Some? ==> b.SellAnchor? && b.stop.Some?)
  }

  ghost predicate AllWeaker(a: seq<P.Anchor>, b: seq<P.Anchor>) {
    |a| == |b| && forall i :: 0 <= i < |a| ==> Weaker(a[i], b[i])
  }

  ghost predicate Alike(m: P.Memory, c: P.Memory) {
    LogPart(m) == LogPart(c) && AllWeaker(m.incoming, c.incoming)
  }

  /** The memory's only snapshot shows the holdings, among them that of every sell remembered. */
  ghost predicate ShowsHeld(c: P.Memory, at: Time, keys: set<K>) {
    && |c.itemsHist| == 1 && c.itemsHist[0].at == at && keys <= c.itemsHist[0].what.Keys
    && forall ticker :: ticker in c.lastSell ==> (c.lastSell[ticker].strategy, ticker) in keys
  }

  predicate IsOwnSell(ev: Event) { M.NamesOrder(ev) && !ev.BuyAccept? }

  /** The line comes after the snapshot, which shows its holding if it is a sell. */
  predicate Fits(ev: Event, at: Time, keys: set<K>) {
    at <= ev.ts && (IsOwnSell(ev) ==> (ev.strategy, ev.ticker) in keys)
  }

  lemma ItemShown(c: P.Memory, at: Time, keys: set<K>, key: K, ts: Time)
    requires ShowsHeld(c, at, keys) && key in keys && at <= ts
    ensures P.LastItem(c.itemsHist, key, ts).Some?
  {
  }

  /** What one line brings, and what it makes of the rest. */
  ghost predicate BringsAlike(m: P.Memory, m': P.Memory, c: P.Memory, c': P.Memory) {
    && LogPart(m') == LogPart(c') && c'.itemsHist == c.itemsHist
    && (|| (m'.incoming == m.incoming && c'.incoming == c.incoming)
        || exists a, b :: Weaker(a, b) && m'.incoming == m.incoming + [a] && c'.incoming == c.incoming + [b])
  }

  lemma BroughtAlike(m: P.Memory, m': P.Memory, c: P.Memory, c': P.Memory, a: P.Anchor, b: P.Anchor)
    requires LogPart(m') == LogPart(c') && c'.itemsHist == c.itemsHist && Weaker(a, b)
    requires m'.incoming == m.incoming + [a] && c'.incoming == c.incoming + [b]
    ensures BringsAlike(m, m', c, c')
  {
  }

  lemma DetailAlike(m: P.Memory, c: P.Memory, strategy: string, ticker: string, raw: Option<string>, ts: Time,
                    no: string)
    requires LogPart(m) == LogPart(c)
    ensures var (a, b) := (P.Detail(m, strategy, ticker, raw, ts, no), P.Detail(c, strategy, ticker, raw, ts, no));
            a.code == b.code && a.sub == b.sub
  {
  }

  lemma OwnSellAlike(m: P.Memory, c: P.Memory, at: Time, keys: set<K>, ts: Time, no: string, strategy: string,
                     ticker: string, raw: Option<string>, path: P.Path, price: Option<real>)
    requires LogPart(m) == LogPart(c) && ShowsHeld(c, at, keys) && at <= ts && (strategy, ticker) in keys
    ensures var (m', c') := (P.HearOwnSell(m, ts, no, strategy, ticker, raw, path, price),
                             P.HearOwnSell(c, ts, no, strategy, ticker, raw, path, price));
            BringsAlike(m, m', c, c') && ShowsHeld(c', at, keys)
  {
    var m1, c1 := P.Named(m, no), P.Named(c, no);
    DetailAlike(m1, c1, strategy, ticker, raw, ts, no);
    ItemShown(c1, at, keys, (strategy, ticker), ts);
    BroughtAlike(m, P.HearOwnSell(m, ts, no, strategy, ticker, raw, path, price),
                 c, P.HearOwnSell(c, ts, no, strategy, ticker, raw, path, price),
                 P.OwnSell(m1, no, ticker, strategy, raw, ts, path, price),
                 P.OwnSell(c1, no, ticker, strategy, raw, ts, path, price));
  }

  lemma ReorderAlike(m: P.Memory, c: P.Memory, at: Time, keys: set<K>, ts: Time, ticker: string, qty: int)
    requires LogPart(m) == LogPart(c) && ShowsHeld(c, at, keys) && at <= ts
    ensures var (m', c') := (P.HearReorder(m, ts, ticker, qty), P.HearReorder(c, ts, ticker, qty));
            BringsAlike(m, m', c, c') && ShowsHeld(c', at, keys)
  {
    var found := P.BestDone(c.dones, Sell, ticker, ts, Some(qty));
    if found.Some? {
      var no := c.dones[found.value].no;
      if ticker in c.lastSell { ItemShown(c, at, keys, (c.lastSell[ticker].strategy, ticker), ts); }
      BroughtAlike(m, P.HearReorder(m, ts, ticker, qty), c, P.HearReorder(c, ts, ticker, qty),
                   P.ReorderAnchor(m, ts, no, ticker), P.ReorderAnchor(c, ts, no, ticker));
    }
  }

  lemma BuyAlike(m: P.Memory, c: P.Memory, at: Time, keys: set<K>, ev: Event)
    requires LogPart(m) == LogPart(c) && ShowsHeld(c, at, keys) && (ev.BuyAccept? || ev.BuyFallback?)
    ensures BringsAlike(m, P.Hear(m, ev), c, P.Hear(c, ev)) && ShowsHeld(P.Hear(c, ev), at, keys)
  {
    if ev.BuyAccept? {
      var a := P.BuyAnchor(ev.orderNo, ev.ticker, Some(ev.strategy), ev.ts, P.Accept, Some(ev.price));
      BroughtAlike(m, P.Hear(m, ev), c, P.Hear(c, ev), a, a);
    } else {
      var found := P.BestDone(c.dones, Buy, ev.ticker, ev.ts, None);
      if found.Some? {
        var a := P.BuyAnchor(c.dones[found.value].no, ev.ticker, None, ev.ts, P.Fallback, Some(ev.price));
        BroughtAlike(m, P.Hear(m, ev), c, P.Hear(c, ev), a, a);
      }
    }
  }

  lemma NamedAlike(m: P.Memory, c: P.Memory, at: Time, keys: set<K>, ev: Event)
    requires LogPart(m) == LogPart(c) && ShowsHeld(c, at, keys) && Fits(ev, at, keys) && IsOwnSell(ev)
    ensures BringsAlike(m, P.Hear(m, ev), c, P.Hear(c, ev)) && ShowsHeld(P.Hear(c, ev), at, keys)
  {
    match ev
    case SellAccept(ts, no, strategy, ticker, signal) =>
      OwnSellAlike(m, c, at, keys, ts, no, strategy, ticker, Some(signal), P.Accept, None);
    case ManualSell(ts, no, strategy, ticker) =>
      OwnSellAlike(m, c, at, keys, ts, no, strategy, ticker, Some("MANUAL"), P.Manual, None);
    case SellFallback(ts, no, strategy, ticker, price) =>
      OwnSellAlike(m, c, at, keys, ts, no, strategy, ticker, None, P.Fallback, Some(price));
  }

  /** Other lines are remembered alike. */
  lemma NotedAlike(m: P.Memory, c: P.Memory, at: Time, keys: set<K>, ev: Event)
    requires LogPart(m) == LogPart(c) && ShowsHeld(c, at, keys) && !M.NamesOrder(ev) && !M.Claims(ev)
    ensures BringsAlike(m, P.Hear(m, ev), c, P.Hear(c, ev)) && ShowsHeld(P.Hear(c, ev), at, keys)
  {
  }

  lemma HearAlike(m: P.Memory, c: P.Memory, at: Time, keys: set<K>, ev: Event)
    requires LogPart(m) == LogPart(c) && ShowsHeld(c, at, keys) && Fits(ev, at, keys)
    ensures BringsAlike(m, P.Hear(m, ev), c, P.Hear(c, ev)) && ShowsHeld(P.Hear(c, ev), at, keys)
  {
    if IsOwnSell(ev) {
      NamedAlike(m, c, at, keys, ev);
    } else if ev.Reorder? {
      ReorderAlike(m, c, at, keys, ev.ts, ev.ticker, ev.qty);
    } else if ev.BuyAccept? || ev.BuyFallback? {
      BuyAlike(m, c, at, keys, ev);
    } else {
      NotedAlike(m, c, at, keys, ev);
    }
  }

  /** Forgetting depends on what log lines decide only. */
  lemma SweptLogPart(m: P.Memory, cutoff: Time)
    ensures LogPart(P.Swept(m, cutoff)) == P.Swept(LogPart(m), cutoff)
  {
  }

  lemma NewDayLogPart(m: P.Memory, w: Time, ts: Time)
    ensures LogPart(P.NewDay(m.(watermark := Some(w)), ts)) == P.NewDay(LogPart(m).(watermark := Some(w)), ts)
  {
  }

  lemma PurgeLogPart(m: P.Memory, ts: Time)
    ensures LogPart(P.Purge(m, ts)) == P.Purge(LogPart(m), ts)
  {
    if P.Live(m) {
      var w := P.Risen(m.watermark, ts);
      NewDayLogPart(m, w, ts);
      SweptLogPart(P.NewDay(m.(watermark := Some(w)), ts), w - P.KEEP);
    }
  }

  lemma PurgeAlike(m: P.Memory, c: P.Memory, at: Time, keys: set<K>, ts: Time)
    requires LogPart(m) == LogPart(c) && ShowsHeld(c, at, keys)
    ensures var (m', c') := (P.Purge(m, ts), P.Purge(c, ts));
            && LogPart(m') == LogPart(c') && ShowsHeld(c', at, keys)
            && m'.incoming == m.incoming && c'.incoming == c.incoming && c'.itemsHist == c.itemsHist
  {
    PurgeLogPart(m, ts);
    PurgeLogPart(c, ts);
    M.PurgeKeepsCore(m, ts);
    M.PurgeKeepsCore(c, ts);
  }

  lemma WeakerSnoc(a: seq<P.Anchor>, b: seq<P.Anchor>, x: P.Anchor, y: P.Anchor)
    requires AllWeaker(a, b) && Weaker(x, y)
    ensures AllWeaker(a + [x], b + [y])
  {
  }

  lemma FeedAlike(m: P.Memory, c: P.Memory, at: Time, keys: set<K>, ev: Event)
    requires Alike(m, c) && ShowsHeld(c, at, keys) && Fits(ev, at, keys)
    ensures Alike(P.Feed(m, ev), P.Feed(c, ev)) && ShowsHeld(P.Feed(c, ev), at, keys)
  {
    PurgeAlike(m, c, at, keys, ev.ts);
    var m1, c1 := P.Purge(m, ev.ts), P.Purge(c, ev.ts);
    HearAlike(m1, c1, at, keys, ev);
    StaysWeaker(m1, P.Hear(m1, ev), c1, P.Hear(c1, ev));
  }

  lemma StaysWeaker(m: P.Memory, m': P.Memory, c: P.Memory, c': P.Memory)
    requires AllWeaker(m.incoming, c.incoming) && BringsAlike(m, m', c, c')
    ensures AllWeaker(m'.incoming, c'.incoming)
  {
    if !(m'.incoming == m.incoming && c'.incoming == c.incoming) {
      var a, b :| Weaker(a, b) && m'.incoming == m.incoming + [a] && c'.incoming == c.incoming + [b];
      WeakerSnoc(m.incoming, c.incoming, a, b);
    }
  }

  ghost predicate AllFit(evs: seq<Event>, at: Time, keys: set<K>) {
    forall i :: 0 <= i < |evs| ==> Fits(evs[i], at, keys)
  }

  lemma {:induction false} FeedAllAlike(m: P.Memory, c: P.Memory, at: Time, keys: set<K>, evs: seq<Event>)
    requires Alike(m, c) && ShowsHeld(c, at, keys) && AllFit(evs, at, keys)
    ensures Alike(P.FeedAll(m, evs), P.FeedAll(c, evs)) && ShowsHeld(P.FeedAll(c, evs), at, keys)
  {
    if evs != [] {
      var n := |evs| - 1;
      FeedAllAlike(m, c, at, keys, evs[..n]);
      FeedAlike(P.FeedAll(m, evs[..n]), P.FeedAll(c, evs[..n]), at, keys, evs[n]);
    }
  }

  // ---- the readings ------------------------------------------------------------------------------------

  /** A holding for every sell the lines name. */
  function Holdings(evs: seq<Event>): G1 {
    if evs == [] then []
    else
      var ev := evs[|evs| - 1];
      Holdings(evs[..|evs| - 1]) + (if IsOwnSell(ev) then [BareItem(ev.strategy, ev.ticker)] else [])
  }

  function Earliest(evs: seq<Event>): Time {
    if evs == [] then 0 else MinI(Earliest(evs[..|evs| - 1]), evs[|evs| - 1].ts)
  }

  /** A pairer that has seen all these holdings before the first line. */
  function FirstMemory(evs: seq<Event>): P.Memory {
    P.FeedSnapshot(P.Empty(LogHarvest), Some(InSession()), Some(Holdings(evs)), Earliest(evs))
  }

  /** The memory after so many readings of the lines. */
  function Reading(evs: seq<Event>, r: nat): P.Memory {
    if r == 0 then FirstMemory(evs) else P.Drained(P.FeedAll(Reading(evs, r - 1), evs), false)
  }

  /** The batch a reading brings. */
  function Batch(evs: seq<Event>, r: nat): seq<P.Anchor> { Reading(evs, r + 1).ready }

  /** However often the lines are read, every batch is safe for the sell. */
  ghost predicate AlwaysSafe(evs: seq<Event>, no: string) {
    forall r: nat :: SafeBatch(Batch(evs, r), no)
  }

  lemma ItemsSnoc(items: G1, item: Item)
    ensures P.ItemsByKey(items + [item]) == P.ItemsByKey(items)[item.Key() := item]
  {
    assert (items + [item])[..|items|] == items;
  }

  lemma {:induction false} HoldingsShow(evs: seq<Event>, i: nat)
    requires i < |evs|
    ensures Fits(evs[i], Earliest(evs), P.ItemsByKey(Holdings(evs)).Keys)
  {
    var n := |evs| - 1;
    if i < n { HoldingsShow(evs[..n], i); }
    if IsOwnSell(evs[n]) {
      ItemsSnoc(Holdings(evs[..n]), BareItem(evs[n].strategy, evs[n].ticker));
    } else {
      assert Holdings(evs[..n]) + [] == Holdings(evs[..n]);
    }
  }

  lemma AllHoldingsShow(evs: seq<Event>)
    ensures AllFit(evs, Earliest(evs), P.ItemsByKey(Holdings(evs)).Keys)
  {
    forall i | 0 <= i < |evs| ensures Fits(evs[i], Earliest(evs), P.ItemsByKey(Holdings(evs)).Keys) {
      HoldingsShow(evs, i);
    }
  }

  lemma SelfAlike(m: P.Memory)
    ensures Alike(m, m)
  {
  }

  lemma {:induction false} ReadingShows(evs: seq<Event>, r: nat)
    ensures ShowsHeld(Reading(evs, r), Earliest(evs), P.ItemsByKey(Holdings(evs)).Keys)
    ensures Reading(evs, r).incoming == [] && (r == 0 ==> Reading(evs, r).ready == [])
  {
    if r > 0 {
      var before := Reading(evs, r - 1);
      ReadingShows(evs, r - 1);
      AllHoldingsShow(evs);
      SelfAlike(before);
      FeedAllAlike(before, before, Earliest(evs), P.ItemsByKey(Holdings(evs)).Keys, evs);
    }
  }

  /** A pairer that has read nothing but these lines, so many times, whatever snapshots it saw. */
  ghost predicate HasRead(m: P.Memory, evs: seq<Event>, r: nat) {
    && LogPart(m) == LogPart(Reading(evs, r)) && m.incoming == []
    && (m.ready == [] || AllWeaker(m.ready, Reading(evs, r).ready))
  }

  lemma ReadsAgain(m: P.Memory, evs: seq<Event>, r: nat)
    requires HasRead(m, evs, r)
    ensures HasRead(P.Drained(P.FeedAll(m, evs), false), evs, r + 1)
  {
    ReadingShows(evs, r);
    AllHoldingsShow(evs);
    FeedAllAlike(m, Reading(evs, r), Earliest(evs), P.ItemsByKey(Holdings(evs)).Keys, evs);
  }

  lemma ReadsNothing(m: P.Memory, evs: seq<Event>, r: nat, g0: Option<G0>, g1: Option<G1>, at: Time)
    requires HasRead(m, evs, r)
    ensures HasRead(P.Drained(P.FeedAll(m, []), false), evs, r) && HasRead(P.FeedSnapshot(m, g0, g1, at), evs, r)
  {
  }

  lemma NothingRead(evs: seq<Event>)
    ensures HasRead(P.Empty(LogHarvest), evs, 0)
  {
  }

  lemma ReadingIsSafe(m: P.Memory, evs: seq<Event>, r: nat, no: string)
    requires HasRead(m, evs, r) && AlwaysSafe(evs, no)
    ensures SafeBatch(m.ready, no)
  {
    if m.ready != [] {
      ReadingShows(evs, r);
      var batch := Batch(evs, r - 1);
      forall i, j | 0 <= i < |m.ready| && 0 <= j < |m.ready| && i != j ensures SafePair(m.ready[i], m.ready[j], no) {
        assert SafePair(batch[i], batch[j], no) && Weaker(m.ready[i], batch[i]) && Weaker(m.ready[j], batch[j]);
      }
    }
  }
}
