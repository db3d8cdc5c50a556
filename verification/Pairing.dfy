/** Pairing log events into order rows: what is remembered, how anchors are resolved, when they leave. */
module Pairing {
  import opened Basics
  import opened Journal

  const KEEP := 600 * SECOND
  const REASON_WINDOW := 10 * SECOND
  const SIGNAL_WINDOW := 5 * SECOND
  const HISTORY := 8
  const CROWDED := 64

  type K = (string, string)

  // ---- what is remembered ----------------------------------------------------------------

  datatype Entry<T> = Entry(ts: Time, strategy: string, ticker: string, what: T)

  datatype Deferral = Deferral(sub: string, gap: Option<real>, threshold: Option<real>)

  datatype Done = Done(no: string, side: Side, ticker: string, qty: int, ts: Time, used: bool)

  datatype Notice = Notice(ts: Time, rctf: string, division: Option<string>)

  datatype RingEntry = RingEntry(at: Time, signal: Signal, params: map<string, real>)

  datatype Snap<T> = Snap(at: Time, what: T)

  datatype Bought = Bought(price: real, ts: Time)

  datatype Sold = Sold(no: string, strategy: string, code: Option<string>, sub: Option<string>)

  datatype Path = Accept | Manual | Fallback | Reordered

  datatype SellDetail = SellDetail(code: Option<string>, sub: Option<string>, firedLine: Option<real>,
                                   judgePrice: Option<real>, effectiveLine: Option<real>, signal: SellSignal)

  /** A line that stands for an order. */
  datatype Anchor =
    | BuyAnchor(no: string, ticker: string, strategy: Option<string>, ts: Time, path: Path, orderPrice: Option<real>)
    | SellAnchor(no: string, ticker: string, strategy: Option<string>, ts: Time, path: Path, orderPrice: Option<real>,
                 parentNo: Option<string>, detail: SellDetail, stop: Option<StopEvent>)
  {
    function Side(): Side { if BuyAnchor? then Buy else Sell }

    function Key(): Key { Journal.Key(Date(ts), no, Side()) }
  }

  datatype Memory = Memory(
    source: Source, incoming: seq<Anchor>, ready: seq<Anchor>,
    ring: map<K, seq<RingEntry>>, paramsHist: seq<Snap<map<string, map<string, real>>>>,
    itemsHist: seq<Snap<map<K, Item>>>,
    buySignals: seq<Entry<Option<real>>>, reasons: seq<Entry<ExitInfo>>, defers: seq<Entry<Deferral>>,
    statuses: seq<Entry<Option<string>>>, notices: map<string, seq<Notice>>, dones: seq<Done>,
    lastBuy: map<K, Bought>, anchorNos: set<string>, noticeNos: set<string>, lastSell: map<string, Sold>,
    watermark: Option<Time>, day: Option<int>)

  function Empty(source: Source): Memory {
    Memory(source, [], [], map[], [], [], [], [], [], [], map[], [], map[], {}, {}, map[], None, None)
  }

  // ---- looking back ----------------------------------------------------------------------

  predicate Wanted<T>(e: Entry<T>, strategy: string, ticker: string, from: Time, to: Time) {
    e.strategy == strategy && e.ticker == ticker && from <= e.ts <= to
  }

  /** The latest entry in the window; of several at the same time, the first. */
  function Latest<T>(es: seq<Entry<T>>, strategy: string, ticker: string, from: Time, to: Time): Option<Entry<T>> {
    if es == [] then None
    else
      var best, e := Latest(es[..|es| - 1], strategy, ticker, from, to), es[|es| - 1];
      if Wanted(e, strategy, ticker, from, to) && (best.None? || e.ts > best.value.ts) then Some(e) else best
  }

  function LastReason(m: Memory, strategy: string, ticker: string, ts: Time): Option<ExitInfo> {
    var e := Latest(m.reasons, strategy, ticker, ts - REASON_WINDOW, ts);
    if e.Some? then Some(e.value.what) else None
  }

  function LastStatus(m: Memory, strategy: string, ticker: string, ts: Time): Option<Option<string>> {
    var e := Latest(m.statuses, strategy, ticker, ts - REASON_WINDOW, ts);
    if e.Some? then Some(e.value.what) else None
  }

  function DayStart(ts: Time): Time { Date(ts) * DAY }

  /** Deferrals count for their whole day. */
  function LastDefer(m: Memory, strategy: string, ticker: string, ts: Time): Option<Deferral> {
    var e := Latest(m.defers, strategy, ticker, DayStart(ts), ts);
    if e.Some? then Some(e.value.what) else None
  }

  /** The newest snapshot not after `ts` that shows the holding. */
  function LastItem(hist: seq<Snap<map<K, Item>>>, key: K, ts: Time): Option<Snap<Item>> {
    if hist == [] then None
    else
      var s := hist[|hist| - 1];
      if s.at <= ts && key in s.what then Some(Snap(s.at, s.what[key])) else LastItem(hist[..|hist| - 1], key, ts)
  }

  function LastParams(hist: seq<Snap<map<string, map<string, real>>>>, strategy: string,
                      ts: Time): Option<map<string, real>>
  {
    if hist == [] then None
    else
      var s := hist[|hist| - 1];
      if s.at <= ts then (if strategy in s.what then Some(s.what[strategy]) else None)
      else LastParams(hist[..|hist| - 1], strategy, ts)
  }

  // ---- resolving a sell ------------------------------------------------------------------

  const CORRECTABLE := ["STOP_LOSS", "TRAILING_STOP", "TIME_EXIT", "TAKE_PROFIT", "TREND_EXIT"]
  const NON_PRICE := ["TIME_EXIT", "TAKE_PROFIT", "TREND_EXIT"]

  /** Nearest integer, halves to even. */
  function RoundEven(x: real): real {
    var f := x.Floor;
    var d := x - f as real;
    if d < 0.5 || (d == 0.5 && f % 2 == 0) then f as real else f as real + 1.0
  }

  function Percent(price: real, pct: real): real { RoundEven(price * (1.0 + pct / 100.0)) }

  function BuyPrice(m: Memory, key: K, ts: Time, exit: Option<ExitInfo>): Option<real> {
    var snap := LastItem(m.itemsHist, key, ts);
    if exit.Some? && exit.value.buyPrice.Some? then exit.value.buyPrice
    else if snap.Some? && snap.value.what.buyPrice.Some? then snap.value.what.buyPrice
    else if key in m.lastBuy && m.lastBuy[key].ts <= ts then Some(m.lastBuy[key].price)
    else None
  }

  /** The stop line that fired. */
  function LineFired(m: Memory, key: K, ts: Time, exit: Option<ExitInfo>, buyPrice: Option<real>): Option<real> {
    if exit.None? then None
    else
      var x := exit.value;
      if x.line.Some? then x.line
      else if x.threshold.Some? && x.buyPrice.Some? then Some(Percent(x.buyPrice.value, x.threshold.value))
      else if x.code in NON_PRICE then None
      else if x.phrase == "ltv_intraday_stop" || x.phrase == "ltv_limit_up_stop" then
        var params := LastParams(m.paramsHist, key.0, ts);
        var name := if x.mode == Some("intraday") then "intraday_stop_loss" else "overnight_stop_loss";
        if params.None? || buyPrice.None? || name !in params.value then None
        else Some(Percent(buyPrice.value, params.value[name]))
      else
        var snap := LastItem(m.itemsHist, key, ts);
        if snap.Some? then snap.value.what.stopPrice else None
  }

  /** The price the exit was judged at, where it came from, and a bound when only the line is known. */
  datatype Judged = Judged(price: Option<real>, src: Option<string>, upper: Option<real>)

  function Judge(exit: Option<ExitInfo>, buyPrice: Option<real>): Judged {
    if exit.None? then Judged(None, None, None)
    else
      var x := exit.value;
      if x.currentPrice.Some? then Judged(x.currentPrice, Some("log_price"), None)
      else if x.pct.Some? then
        if buyPrice.None? then Judged(None, None, None)
        else Judged(Some(Percent(buyPrice.value, x.pct.value)), Some("log_pct"), None)
      else Judged(None, None, x.line)
  }

  /** What the last snapshot before the sell shows: its stop line, the snapshot's age, and the exit event. */
  datatype Shown = Shown(line: Option<real>, age: Option<int>, stopKind: Option<string>, stop: Option<StopEvent>)

  function ShownAt(m: Memory, strategy: string, ticker: string, ts: Time, no: string): Shown {
    match LastItem(m.itemsHist, (strategy, ticker), ts)
    case None => Shown(None, None, None, None)
    case Some(snap) =>
      var it := snap.what;
      Shown(it.stopPrice, Some((ts - snap.at) / SECOND), it.stopSource,
            Some(StopEvent(strategy, ticker, it.buyDate, it.orderNo, ts, ExitStop,
                           StopRow(it.stopPrice, it.stopSource, it.targetPrice, it.TargetHit(), it.armPrice),
                           Some(no))))
  }

  /** The exit line is consulted only when the sell names no reason or a correctable one. */
  predicate Consults(raw: Option<string>) { raw.None? || raw.value in CORRECTABLE }

  function Detail(m: Memory, strategy: string, ticker: string, raw: Option<string>, ts: Time, no: string): SellDetail {
    var key := (strategy, ticker);
    var exit := if Consults(raw) then LastReason(m, strategy, ticker, ts) else None;
    var defer := if raw == Some("NEXT_DAY_CLEAR") then LastDefer(m, strategy, ticker, ts) else None;
    var status := if raw == Some("STATUS_EXIT") then LastStatus(m, strategy, ticker, ts) else None;
    var sub := if defer.Some? then Some(defer.value.sub) else if status.Some? then status.value else None;
    var buyPrice := BuyPrice(m, key, ts, exit);
    var judged, shown := Judge(exit, buyPrice), ShownAt(m, strategy, ticker, ts, no);
    SellDetail(if exit.Some? then Some(exit.value.code) else raw, sub, LineFired(m, key, ts, exit, buyPrice),
               judged.price, shown.line,
               SellSignal(raw, exit, judged.src, if defer.Some? then defer.value.gap else None,
                          if defer.Some? then defer.value.threshold else None, judged.upper, shown.age, shown.stopKind))
  }

  function OwnSell(m: Memory, no: string, ticker: string, strategy: string, raw: Option<string>, ts: Time, path: Path,
                   orderPrice: Option<real>): Anchor
  {
    SellAnchor(no, ticker, Some(strategy), ts, path, orderPrice, None, Detail(m, strategy, ticker, raw, ts, no),
               ShownAt(m, strategy, ticker, ts, no).stop)
  }

  // ---- matching completions --------------------------------------------------------------

  function Gap(a: Time, b: Time): nat { if a >= b then a - b else b - a }

  predicate Eligible(d: Done, side: Side, ticker: string, qty: Option<int>) {
    !d.used && d.side == side && d.ticker == ticker && (qty.Some? ==> d.qty == qty.value)
  }

  /** The eligible completion nearest in time; of several as near, the last. */
  function BestDone(dones: seq<Done>, side: Side, ticker: string, ts: Time, qty: Option<int>): (r: Option<nat>)
    ensures r.Some? ==> r.value < |dones|
  {
    if dones == [] then None
    else
      var n := |dones| - 1;
      var best := BestDone(dones[..n], side, ticker, ts, qty);
      if Eligible(dones[n], side, ticker, qty) && (best.None? || Gap(dones[n].ts, ts) <= Gap(dones[best.value].ts, ts))
      then Some(n) else best
  }

  function Marked(dones: seq<Done>, no: string): seq<Done> {
    seq(|dones|, i requires 0 <= i < |dones| => if dones[i].no == no then dones[i].(used := true) else dones[i])
  }

  // ---- one event -------------------------------------------------------------------------

  function HearNotice(m: Memory, no: string, notice: Notice): Memory {
    m.(notices := m.notices[no := (if no in m.notices then m.notices[no] else []) + [notice]],
       noticeNos := if notice.rctf == "0" then m.noticeNos + {no} else m.noticeNos)
  }

  /** The order names itself: its completion is spoken for. */
  function Named(m: Memory, no: string): Memory {
    m.(anchorNos := m.anchorNos + {no}, dones := Marked(m.dones, no))
  }

  function Bring(m: Memory, a: Anchor): Memory { m.(incoming := m.incoming + [a]) }

  function HearBuyAccept(m: Memory, ts: Time, no: string, strategy: string, ticker: string, price: real): Memory {
    Bring(Named(m, no).(lastBuy := m.lastBuy[(strategy, ticker) := Bought(price, ts)]),
          BuyAnchor(no, ticker, Some(strategy), ts, Accept, Some(price)))
  }

  function HearBuyFallback(m: Memory, ts: Time, ticker: string, price: real): Memory {
    match BestDone(m.dones, Buy, ticker, ts, None)
    case None => m
    case Some(i) =>
      var no := m.dones[i].no;
      Bring(m.(dones := m.dones[i := m.dones[i].(used := true)], anchorNos := m.anchorNos + {no}),
            BuyAnchor(no, ticker, None, ts, Fallback, Some(price)))
  }

  /** A sell other than a manual one is remembered for the reorders after it. */
  function BringSell(m: Memory, strategy: string, a: Anchor): Memory
    requires a.SellAnchor?
  {
    Bring(if a.path == Manual then m
          else m.(lastSell := m.lastSell[a.ticker := Sold(a.no, strategy, a.detail.code, a.detail.sub)]), a)
  }

  function HearOwnSell(m: Memory, ts: Time, no: string, strategy: string, ticker: string, raw: Option<string>,
                       path: Path, orderPrice: Option<real>): Memory
  {
    var m1 := Named(m, no);
    BringSell(m1, strategy, OwnSell(m1, no, ticker, strategy, raw, ts, path, orderPrice))
  }

  /** A reorder inherits the reason of the ticker's last resolved sell. */
  function ReorderAnchor(m: Memory, ts: Time, no: string, ticker: string): Anchor {
    if ticker in m.lastSell then
      var parent := m.lastSell[ticker];
      var shown := ShownAt(m, parent.strategy, ticker, ts, no);
      SellAnchor(no, ticker, Some(parent.strategy), ts, Reordered, None, Some(parent.no),
                 SellDetail(parent.code, parent.sub, None, None, shown.line,
                            SellSignal(parent.code, None, None, None, None, None, shown.age, shown.stopKind)),
                 shown.stop)
    else
      SellAnchor(no, ticker, None, ts, Reordered, None, None,
                 SellDetail(None, None, None, None, None, SellSignal(None, None, None, None, None, None, None, None)),
                 None)
  }

  function HearReorder(m: Memory, ts: Time, ticker: string, qty: int): Memory {
    match BestDone(m.dones, Sell, ticker, ts, Some(qty))
    case None => m
    case Some(i) =>
      var no := m.dones[i].no;
      Bring(m.(dones := m.dones[i := m.dones[i].(used := true)], anchorNos := m.anchorNos + {no}),
            ReorderAnchor(m, ts, no, ticker))
  }

  function Hear(m: Memory, ev: Event): Memory {
    match ev
    case BuySignal(ts, strategy, ticker, price) => m.(buySignals := m.buySignals + [Entry(ts, strategy, ticker, price)])
    case ExitReason(ts, strategy, ticker, info) => m.(reasons := m.reasons + [Entry(ts, strategy, ticker, info)])
    case NdcDefer(ts, strategy, ticker, sub, gap, threshold) =>
      m.(defers := m.defers + [Entry(ts, strategy, ticker, Deferral(sub, gap, threshold))])
    case StatusExit(ts, strategy, ticker, reason) => m.(statuses := m.statuses + [Entry(ts, strategy, ticker, reason)])
    case OrderNotice(ts, no, _, rctf, division) => HearNotice(m, no, Notice(ts, rctf, division))
    case OrderDone(ts, no, side, ticker, qty) => m.(dones := m.dones + [Done(no, side, ticker, qty, ts, false)])
    case BuyAccept(ts, no, strategy, ticker, price) => HearBuyAccept(m, ts, no, strategy, ticker, price)
    case SellAccept(ts, no, strategy, ticker, signal) =>
      HearOwnSell(m, ts, no, strategy, ticker, Some(signal), Accept, None)
    case ManualSell(ts, no, strategy, ticker) => HearOwnSell(m, ts, no, strategy, ticker, Some("MANUAL"), Manual, None)
    case SellFallback(ts, no, strategy, ticker, price) =>
      HearOwnSell(m, ts, no, strategy, ticker, None, Fallback, Some(price))
    case BuyFallback(ts, ticker, price) => HearBuyFallback(m, ts, ticker, price)
    case Reorder(ts, ticker, qty) => HearReorder(m, ts, ticker, qty)
  }

  // ---- forgetting ------------------------------------------------------------------------

  function Since<T>(es: seq<Entry<T>>, cutoff: Time): seq<Entry<T>> {
    if es == [] then []
    else Since(es[..|es| - 1], cutoff) + (if es[|es| - 1].ts >= cutoff then [es[|es| - 1]] else [])
  }

  function OnDay<T>(es: seq<Entry<T>>, day: int): seq<Entry<T>> {
    if es == [] then []
    else OnDay(es[..|es| - 1], day) + (if Date(es[|es| - 1].ts) == day then [es[|es| - 1]] else [])
  }

  function Pending(dones: seq<Done>, cutoff: Time): seq<Done> {
    if dones == [] then []
    else
      var d := dones[|dones| - 1];
      Pending(dones[..|dones| - 1], cutoff) + (if !d.used && d.ts >= cutoff then [d] else [])
  }

  function FreshNotices(notices: map<string, seq<Notice>>, cutoff: Time): map<string, seq<Notice>> {
    map no | no in notices && notices[no] != [] && notices[no][|notices[no]| - 1].ts >= cutoff :: notices[no]
  }

  /** Only a pairer of the live log forgets. */
  predicate Live(m: Memory) { m.source == LogHarvest }

  function Risen(watermark: Option<Time>, ts: Time): Time {
    if watermark.None? || ts > watermark.value then ts else watermark.value
  }

  function NewDay(m: Memory, ts: Time): Memory {
    if m.day == Some(Date(ts)) then m
    else m.(day := Some(Date(ts)), defers := OnDay(m.defers, Date(ts)), anchorNos := {}, noticeNos := {})
  }

  predicate Crowded(m: Memory) {
    |m.reasons| > CROWDED || |m.buySignals| > CROWDED || |m.statuses| > CROWDED || |m.dones| > CROWDED
      || |m.notices| > CROWDED
  }

  function Swept(m: Memory, cutoff: Time): Memory {
    m.(reasons := Since(m.reasons, cutoff), buySignals := Since(m.buySignals, cutoff),
       statuses := Since(m.statuses, cutoff), dones := Pending(m.dones, cutoff),
       notices := FreshNotices(m.notices, cutoff))
  }

  function Purge(m: Memory, ts: Time): Memory {
    if !Live(m) then m
    else
      var w := Risen(m.watermark, ts);
      var m1 := NewDay(m.(watermark := Some(w)), ts);
      if m.day != Some(Date(ts)) || Crowded(m1) then Swept(m1, w - KEEP) else m1
  }

  function Feed(m: Memory, ev: Event): Memory { Hear(Purge(m, ev.ts), ev) }

  function FeedAll(m: Memory, evs: seq<Event>): Memory {
    if evs == [] then m else Feed(FeedAll(m, evs[..|evs| - 1]), evs[|evs| - 1])
  }

  // ---- snapshots -------------------------------------------------------------------------

  function SignalTime(at: Time, sig: Signal): Time { DayStart(at) + sig.time * SECOND }

  /** A signal joins its ring unless it is too old or its clock time is already there. */
  function Joined(es: seq<RingEntry>, sig: Signal, params: map<string, real>, at: Time): seq<RingEntry> {
    if SignalTime(at, sig) < at - KEEP || exists e :: e in es && e.signal.time == sig.time then es
    else es + [RingEntry(SignalTime(at, sig), sig, params)]
  }

  function RingOf(ring: map<K, seq<RingEntry>>, key: K): seq<RingEntry> { if key in ring then ring[key] else [] }

  /** The ring of one ticker after a strategy's signals are looked at in order. */
  function JoinedAll(es: seq<RingEntry>, ticker: string, sigs: seq<Signal>, params: map<string, real>,
                     at: Time): seq<RingEntry>
  {
    if sigs == [] then es
    else
      var before, sig := JoinedAll(es, ticker, sigs[..|sigs| - 1], params, at), sigs[|sigs| - 1];
      if sig.ticker == ticker then Joined(before, sig, params, at) else before
  }

  function Recent(es: seq<RingEntry>, cutoff: Time): seq<RingEntry> {
    if es == [] then []
    else Recent(es[..|es| - 1], cutoff) + (if es[|es| - 1].at >= cutoff then [es[|es| - 1]] else [])
  }

  function StrategyKeys(strategies: map<string, StrategyState>): set<K> {
    set s, sig | s in strategies && sig in strategies[s].signals :: (s, sig.ticker)
  }

  function RingAfter(ring: map<K, seq<RingEntry>>, strategies: map<string, StrategyState>, at: Time,
                     key: K): seq<RingEntry>
  {
    if key.0 in strategies
    then JoinedAll(RingOf(ring, key), key.1, strategies[key.0].signals, strategies[key.0].params, at)
    else RingOf(ring, key)
  }

  /** Old entries leave every ring; empty rings are dropped. */
  function Kept(rings: map<K, seq<RingEntry>>, cutoff: Time): map<K, seq<RingEntry>> {
    map key | key in rings && Recent(rings[key], cutoff) != [] :: Recent(rings[key], cutoff)
  }

  function NewRing(ring: map<K, seq<RingEntry>>, strategies: map<string, StrategyState>,
                   at: Time): map<K, seq<RingEntry>>
  {
    Kept(map key | key in ring.Keys + StrategyKeys(strategies) :: RingAfter(ring, strategies, at, key), at - KEEP)
  }

  /** Histories keep the last eight snapshots. */
  function Pushed<T>(hist: seq<T>, x: T): seq<T> {
    if |hist| < HISTORY then hist + [x] else hist[|hist| - HISTORY + 1..] + [x]
  }

  function ItemsByKey(items: G1): map<K, Item> {
    if items == [] then map[]
    else ItemsByKey(items[..|items| - 1])[items[|items| - 1].Key() := items[|items| - 1]]
  }

  function ParamsOf(strategies: map<string, StrategyState>): map<string, map<string, real>> {
    map s | s in strategies :: strategies[s].params
  }

  function FeedSnapshot(m: Memory, g0: Option<G0>, g1: Option<G1>, at: Time): Memory {
    var m1 := if g0.None? then m
              else m.(ring := NewRing(m.ring, g0.value.strategies, at),
                      paramsHist := Pushed(m.paramsHist, Snap(at, ParamsOf(g0.value.strategies))));
    if g1.None? then m1 else m1.(itemsHist := Pushed(m1.itemsHist, Snap(at, ItemsByKey(g1.value))))
  }

  // ---- what leaves -----------------------------------------------------------------------

  /** The latest ring entry not after `ts`; of several at the same time, the first. */
  function BestRing(es: seq<RingEntry>, ts: Time): Option<RingEntry> {
    if es == [] then None
    else
      var best, e := BestRing(es[..|es| - 1], ts), es[|es| - 1];
      if e.at <= ts && (best.None? || e.at > best.value.at) then Some(e) else best
  }

  datatype BuySource = FromRing(entry: RingEntry) | FromLog(price: Option<real>) | Nowhere

  /** Looked up when the anchor leaves, so a signal that arrives while it is held still counts. */
  function ResolveBuy(m: Memory, strategy: string, ticker: string, ts: Time): BuySource {
    var best := BestRing(RingOf(m.ring, (strategy, ticker)), ts);
    if best.Some? then FromRing(best.value)
    else
      var e := Latest(m.buySignals, strategy, ticker, ts - SIGNAL_WINDOW, ts);
      if e.Some? then FromLog(e.value.what) else Nowhere
  }

  function Division0(notices: seq<Notice>): Option<string> {
    if notices == [] then None else if notices[0].rctf == "0" then notices[0].division else Division0(notices[1..])
  }

  function ResolveDivision(m: Memory, no: string): Option<string> {
    if no in m.notices then Division0(m.notices[no]) else None
  }

  function PathName(p: Path): string {
    match p
    case Accept => "accept"
    case Manual => "manual"
    case Fallback => "fallback"
    case Reordered => "reorder"
  }

  function SourceOf(source: Source, p: Path): Source {
    if source != LogHarvest then source
    else match p
         case Accept => LogHarvest
         case Manual => ManualApi
         case Fallback => FallbackInferred
         case Reordered => ReorderInferred
  }

  /** An anchor without a strategy takes it from the trade history, if that knows the order. */
  function StrategyOf(a: Anchor, trades: map<string, string>): (string, Option<string>) {
    if a.strategy.Some? then (a.strategy.value, None)
    else if a.no in trades && trades[a.no] != "" then (trades[a.no], Some("trade_history"))
    else (UNKNOWN, Some("unknown"))
  }

  function BuyCells(m: Memory, a: Anchor, strategy: string, src: Option<string>): map<Field, Value> {
    var b := ResolveBuy(m, strategy, a.ticker, a.ts);
    var cells := WithNum(map[ReasonCode := Text("ENTRY")], OrderPrice, a.orderPrice);
    match b
    case FromRing(e) =>
      WithNum(cells, JudgePrice, e.signal.price)
        [SignalNote := BuyNote("ring", Some(e.signal), PathName(a.path), src)][ParamsNote := ParamNote(e.params)]
    case FromLog(price) =>
      WithNum(cells, JudgePrice, price)[SignalNote := BuyNote("log_only", None, PathName(a.path), src)]
    case Nowhere => cells[SignalNote := BuyNote("none", None, PathName(a.path), src)]
  }

  function SellCells(a: Anchor, src: Option<string>): map<Field, Value>
    requires a.SellAnchor?
  {
    var d := a.detail;
    var texts := WithText(WithText(WithText(map[], ReasonCode, d.code), ReasonSub, d.sub), ParentNo, a.parentNo);
    var lines := WithNum(WithNum(texts, FiredLine, d.firedLine), EffectiveLine, d.effectiveLine);
    WithNum(WithNum(lines, JudgePrice, d.judgePrice), OrderPrice, a.orderPrice)
      [SignalNote := SellNote(d.signal, PathName(a.path), src)]
  }

  function Finalize(m: Memory, a: Anchor, trades: map<string, string>): Row {
    var (strategy, src) := StrategyOf(a, trades);
    var cells := if a.BuyAnchor? then BuyCells(m, a, strategy, src) else SellCells(a, src);
    Row(a.Key(), strategy, a.ticker, SourceOf(m.source, a.path), WithText(cells, Division, ResolveDivision(m, a.no)),
        a.ts)
  }

  function RowsOf(m: Memory, pending: seq<Anchor>, trades: map<string, string>): seq<Row> {
    seq(|pending|, i requires 0 <= i < |pending| => Finalize(m, pending[i], trades))
  }

  function StopsOf(pending: seq<Anchor>): seq<StopEvent> {
    if pending == [] then []
    else
      var a := pending[|pending| - 1];
      StopsOf(pending[..|pending| - 1]) + (if a.SellAnchor? && a.stop.Some? then [a.stop.value] else [])
  }

  /** The anchors a drain lets go, and the memory after it: one drain holds an anchor back, the next
      lets it go; a final drain lets all go. */
  function Leaving(m: Memory, final: bool): seq<Anchor> { if final then m.ready + m.incoming else m.ready }

  function Drained(m: Memory, final: bool): Memory { m.(ready := if final then [] else m.incoming, incoming := []) }

  function ExternalNotices(m: Memory): set<string> { m.noticeNos - m.anchorNos }
}
