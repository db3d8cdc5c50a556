/** Rebuilding daily holdings and their cost from a list of trades. */
module Holdings {
  import opened Basics
  import opened Ordering

  datatype Side = Buy | Sell | Other

  /** A filled trade; `day` is the calendar day of its timestamp. */
  datatype Event = Event(strategy: string, ticker: string, side: Side, price: real, quantity: nat, day: int,
                         timestamp: int) {
    function Key(): (string, string) { (strategy, ticker) }
  }

  /** Quantity held and what it cost. */
  datatype Lot = Lot(quantity: int, cost: real)

  datatype Warning = Warning(strategy: string, ticker: string, held: int, sellQty: int)

  /** The bookkeeping after some events: open lots by strategy and ticker, and the recorded oversells. */
  datatype Ledger = Ledger(lots: map<(string, string), Lot>, warnings: seq<Warning>)

  const EMPTY := Ledger(map[], [])

  function LotOf(l: Ledger, key: (string, string)): Lot {
    if key in l.lots then l.lots[key] else Lot(0, 0.0)
  }

  /** Selling more than is held sells what is held. */
  function Effective(lot: Lot, ev: Event): int { MinI(ev.quantity, lot.quantity) }

  function AfterSell(lot: Lot, n: int): Lot {
    var avg := if lot.quantity > 0 then lot.cost / lot.quantity as real else 0.0;
    if lot.quantity - n <= 0 then Lot(0, 0.0) else Lot(lot.quantity - n, lot.cost - avg * n as real)
  }

  function AfterEvent(lot: Lot, ev: Event): Lot {
    match ev.side
    case Buy => Lot(lot.quantity + ev.quantity, lot.cost + ev.price * ev.quantity as real)
    case Sell => AfterSell(lot, Effective(lot, ev))
    case Other => lot
  }

  function Warned(lot: Lot, ev: Event): seq<Warning> {
    if ev.side == Sell && ev.quantity > lot.quantity
    then [Warning(ev.strategy, ev.ticker, lot.quantity, ev.quantity)] else []
  }

  function Step(l: Ledger, ev: Event): Ledger {
    var lot := LotOf(l, ev.Key());
    Ledger(l.lots[ev.Key() := AfterEvent(lot, ev)], l.warnings + Warned(lot, ev))
  }

  function Fold(evs: seq<Event>): Ledger {
    if evs == [] then EMPTY else Step(Fold(evs[..|evs| - 1]), evs[|evs| - 1])
  }

  /** Events of one day in time order, input order on ties. */
  function ByTime(): (Event, Event) -> bool { (a: Event, b: Event) => a.timestamp <= b.timestamp }

  function OnDay(evs: seq<Event>, day: int): seq<Event> {
    if evs == [] then []
    else OnDay(evs[..|evs| - 1], day) + (if evs[|evs| - 1].day == day then [evs[|evs| - 1]] else [])
  }

  function DayEvents(evs: seq<Event>, day: int): seq<Event> {
    Sort(ByTime(), OnDay(evs, day))
  }

  /** All events processed by the close of the last of `days`. */
  function Processed(evs: seq<Event>, days: seq<int>): seq<Event> {
    if days == [] then [] else Processed(evs, days[..|days| - 1]) + DayEvents(evs, days[|days| - 1])
  }

  /** What a strategy holds, ticker by ticker. */
  function Snapshot(l: Ledger, strategy: string): map<string, Lot> {
    map key | key in l.lots && key.0 == strategy && l.lots[key].quantity > 0 :: key.1 := l.lots[key]
  }

  // ---- the mutable version ---------------------------------------------------------------

  class OpenLot {
    var quantity: int
    var cost: real

    constructor (quantity: int, cost: real)
      ensures this.quantity == quantity && this.cost == cost
    {
      this.quantity, this.cost := quantity, cost;
    }

    function Value(): Lot
      reads this
    {
      Lot(quantity, cost)
    }

    /** Apply one event in place; the result is a warning if it sells more than is held. */
    method Apply(ev: Event) returns (warned: seq<Warning>)
      requires quantity >= 0
      modifies this
      ensures Value() == AfterEvent(old(Value()), ev)
      ensures warned == Warned(old(Value()), ev)
    {
      warned := [];
      if ev.side == Buy {
        quantity := quantity + ev.quantity;
        cost := cost + ev.price * ev.quantity as real;
      } else if ev.side == Sell {
        var sellQty: int := ev.quantity;
        if sellQty > quantity {
          warned := [Warning(ev.strategy, ev.ticker, quantity, sellQty)];
          sellQty := quantity;
        }
        var avg := if quantity > 0 then cost / quantity as real else 0.0;
        cost := cost - avg * sellQty as real;
        quantity := quantity - sellQty;
        if quantity <= 0 {
          quantity := 0;
          cost := 0.0;
        }
      }
    }
  }

  /** The objects in `open` are distinct and hold the ledger's lots. */
  ghost predicate Holds(open: map<(string, string), OpenLot>, l: Ledger)
    reads open.Values
  {
    && open.Keys == l.lots.Keys
    && (forall k :: k in open ==> open[k].Value() == l.lots[k] && l.lots[k].quantity >= 0)
    && (forall k, k' :: k in open && k' in open && k != k' ==> open[k] != open[k'])
  }

  method ProcessEvent(open: map<(string, string), OpenLot>, ghost l: Ledger, ev: Event)
    returns (open': map<(string, string), OpenLot>, warned: seq<Warning>)
    requires Holds(open, l)
    modifies open.Values
    ensures Holds(open', Step(l, ev))
    ensures warned == Warned(LotOf(l, ev.Key()), ev)
    ensures forall o :: o in open'.Values ==> o in open.Values || fresh(o)
  {
    var key := ev.Key();
    open' := open;
    if key !in open {
      var lot := new OpenLot(0, 0.0);
      open' := open[key := lot];
    }
    warned := open'[key].Apply(ev);
  }

  type Copies = map<string, OpenLot>

  ghost predicate Matches(copy: Copies, lots: map<string, Lot>)
    reads copy.Values
  {
    copy.Keys == lots.Keys && forall t :: t in copy ==> copy[t].Value() == lots[t]
  }

  /** By-value copies of a strategy's open lots: new objects, never the live ones. */
  method CopyLots(open: map<(string, string), OpenLot>, ghost l: Ledger, strategy: string)
    returns (snap: map<string, OpenLot>)
    requires Holds(open, l)
    ensures Matches(snap, Snapshot(l, strategy))
    ensures forall o :: o in snap.Values ==> fresh(o)
  {
    snap := map[];
    var todo := set k | k in open && k.0 == strategy && open[k].quantity > 0;
    ghost var all := todo;
    while todo != {}
      invariant todo <= all
      invariant snap.Keys == set k | k in all - todo :: k.1
      invariant forall t :: t in snap ==>
                  fresh(snap[t]) && (strategy, t) in all && snap[t].Value() == l.lots[(strategy, t)]
      decreases todo
    {
      var k :| k in todo;
      var copy := new OpenLot(open[k].quantity, open[k].cost);
      snap := snap[k.1 := copy];
      todo := todo - {k};
    }
  }

  method ProcessEvents(open0: map<(string, string), OpenLot>, warnings0: seq<Warning>, ghost before: seq<Event>,
                       evs: seq<Event>)
    returns (open: map<(string, string), OpenLot>, warnings: seq<Warning>)
    requires Holds(open0, Fold(before)) && warnings0 == Fold(before).warnings
    modifies open0.Values
    ensures Holds(open, Fold(before + evs)) && warnings == Fold(before + evs).warnings
    ensures forall o :: o in open.Values ==> o in open0.Values || fresh(o)
  {
    open, warnings := open0, warnings0;
    ghost var l := Fold(before);
    assert before + evs[..0] == before;
    for i := 0 to |evs|
      invariant l == Fold(before + evs[..i])
      invariant Holds(open, l) && warnings == l.warnings
      invariant forall o :: o in open.Values ==> o in open0.Values || fresh(o)
    {
      FoldNext(before, evs, i);
      var warned;
      open, warned := ProcessEvent(open, l, evs[i]);
      warnings := warnings + warned;
      l := Step(l, evs[i]);
    }
    assert evs[..|evs|] == evs;
  }

  lemma FoldNext(before: seq<Event>, evs: seq<Event>, i: nat)
    requires i < |evs|
    ensures Fold(before + evs[..i + 1]) == Step(Fold(before + evs[..i]), evs[i])
  {
    assert (before + evs[..i + 1])[..|before| + i] == before + evs[..i];
  }

  function Objects(snaps: seq<Copies>): set<OpenLot> {
    set i, t | 0 <= i < |snaps| && t in snaps[i] :: snaps[i][t]
  }

  /** The snapshot objects hold the expected values, snapshot by snapshot. */
  ghost predicate Recorded(snaps: seq<Copies>, expected: seq<map<string, Lot>>)
    reads Objects(snaps)
  {
    |snaps| == |expected| && forall i :: 0 <= i < |snaps| ==> Matches(snaps[i], expected[i])
  }

  /** What the close of a day records, strategy by strategy. */
  function Closing(l: Ledger, strategies: seq<string>): seq<map<string, Lot>> {
    if strategies == [] then []
    else Closing(l, strategies[..|strategies| - 1]) + [Snapshot(l, strategies[|strategies| - 1])]
  }

  lemma RecordedAppend(snaps: seq<Copies>, expected: seq<map<string, Lot>>, copy: Copies, lots: map<string, Lot>)
    requires Recorded(snaps, expected) && Matches(copy, lots)
    ensures Recorded(snaps + [copy], expected + [lots])
    ensures forall o :: o in Objects(snaps + [copy]) ==> o in Objects(snaps) || o in copy.Values
  {
  }

  lemma ClosingNext(l: Ledger, strategies: seq<string>, i: nat)
    requires i < |strategies|
    ensures Closing(l, strategies[..i + 1]) == Closing(l, strategies[..i]) + [Snapshot(l, strategies[i])]
  {
    assert strategies[..i + 1][..i] == strategies[..i];
  }

  /** One strategy's snapshot joins those of the strategies before it. */
  method AddSnapshot(open: map<(string, string), OpenLot>, ghost l: Ledger, strategies: seq<string>, i: nat,
                     snaps0: seq<Copies>) returns (snaps: seq<Copies>)
    requires Holds(open, l) && i < |strategies| && Recorded(snaps0, Closing(l, strategies[..i]))
    ensures Recorded(snaps, Closing(l, strategies[..i + 1]))
    ensures forall o :: o in Objects(snaps) ==> o in Objects(snaps0) || fresh(o)
  {
    var copy := CopyLots(open, l, strategies[i]);
    ClosingNext(l, strategies, i);
    RecordedAppend(snaps0, Closing(l, strategies[..i]), copy, Snapshot(l, strategies[i]));
    snaps := snaps0 + [copy];
  }

  method CloseDay(open: map<(string, string), OpenLot>, ghost l: Ledger, strategies: seq<string>)
    returns (snaps: seq<Copies>)
    requires Holds(open, l)
    ensures Recorded(snaps, Closing(l, strategies))
    ensures forall o :: o in Objects(snaps) ==> fresh(o)
  {
    snaps := [];
    for i := 0 to |strategies|
      invariant Recorded(snaps, Closing(l, strategies[..i]))
      invariant forall o :: o in Objects(snaps) ==> fresh(o)
    {
      snaps := AddSnapshot(open, l, strategies, i, snaps);
    }
    assert strategies[..|strategies|] == strategies;
  }

  /** One value per day, each from the days up to it. */
  function Scan<T>(f: seq<int> -> T, days: seq<int>): (r: seq<T>)
    ensures |r| == |days|
  {
    if days == [] then [] else Scan(f, days[..|days| - 1]) + [f(days)]
  }

  lemma {:induction false} ScanAt<T>(f: seq<int> -> T, days: seq<int>, n: nat)
    requires n < |days|
    ensures Scan(f, days)[n] == f(days[..n + 1])
    decreases |days|
  {
    if n == |days| - 1 {
      assert days[..n + 1] == days;
    } else {
      ScanAt(f, days[..|days| - 1], n);
      assert days[..|days| - 1][..n + 1] == days[..n + 1];
    }
  }

  /** What the close of the last of the days records. */
  function CloseAfter(evs: seq<Event>, strategies: seq<string>): seq<int> -> seq<map<string, Lot>> {
    (days: seq<int>) => Closing(Fold(Processed(evs, days)), strategies)
  }

  /** The record of every day, in order. */
  function Timeline(evs: seq<Event>, strategies: seq<string>, days: seq<int>): seq<seq<map<string, Lot>>> {
    Scan(CloseAfter(evs, strategies), days)
  }

  /** Entry n is the fold of all events processed by the close of day n: later days do not enter it. */
  lemma TimelineAt(evs: seq<Event>, strategies: seq<string>, days: seq<int>, n: nat)
    requires n < |days|
    ensures |Timeline(evs, strategies, days)| == |days|
    ensures Timeline(evs, strategies, days)[n] == Closing(Fold(Processed(evs, days[..n + 1])), strategies)
  {
    ScanAt(CloseAfter(evs, strategies), days, n);
  }

  function AllObjects(days: seq<seq<Copies>>): set<OpenLot> {
    set n, o | 0 <= n < |days| && o in Objects(days[n]) :: o
  }

  ghost predicate AllRecorded(snaps: seq<seq<Copies>>, expected: seq<seq<map<string, Lot>>>)
    reads AllObjects(snaps)
  {
    |snaps| == |expected| && forall n :: 0 <= n < |snaps| ==> Recorded(snaps[n], expected[n])
  }

  lemma AllRecordedAppend(snaps: seq<seq<Copies>>, expected: seq<seq<map<string, Lot>>>, day: seq<Copies>,
                          lots: seq<map<string, Lot>>)
    requires AllRecorded(snaps, expected) && Recorded(day, lots)
    ensures AllRecorded(snaps + [day], expected + [lots])
    ensures forall o :: o in AllObjects(snaps + [day]) ==> o in AllObjects(snaps) || o in Objects(day)
  {
  }

  method ProcessDay(open0: map<(string, string), OpenLot>, warnings0: seq<Warning>, snaps0: seq<seq<Copies>>,
                    ghost before: seq<Event>, ghost recorded: seq<seq<map<string, Lot>>>, evs: seq<Event>,
                    strategies: seq<string>)
    returns (open: map<(string, string), OpenLot>, warnings: seq<Warning>, snaps: seq<seq<Copies>>)
    requires Holds(open0, Fold(before)) && warnings0 == Fold(before).warnings
    requires AllRecorded(snaps0, recorded) && open0.Values !! AllObjects(snaps0)
    modifies open0.Values
    ensures Holds(open, Fold(before + evs)) && warnings == Fold(before + evs).warnings
    ensures AllRecorded(snaps, recorded + [Closing(Fold(before + evs), strategies)]) && open.Values !! AllObjects(snaps)
    ensures forall o :: o in open.Values ==> o in open0.Values || fresh(o)
    ensures forall o :: o in AllObjects(snaps) ==> o in AllObjects(snaps0) || fresh(o)
  {
    open, warnings := ProcessEvents(open0, warnings0, before, evs);
    var day := CloseDay(open, Fold(before + evs), strategies);
    assert AllRecorded(snaps0, recorded);
    AllRecordedAppend(snaps0, recorded, day, Closing(Fold(before + evs), strategies));
    snaps := snaps0 + [day];
  }

  /** Day-by-day snapshots. The copies made at each close are read only at the very end, after all
      later events have changed the live lots in place; each still shows the fold of the events up to
      its own day. */
  method BuildTimeline(evs: seq<Event>, strategies: seq<string>, days: seq<int>)
    returns (eod: seq<seq<map<string, Lot>>>, warnings: seq<Warning>)
    ensures eod == Timeline(evs, strategies, days)
    ensures warnings == Fold(Processed(evs, days)).warnings
  {
    var open: map<(string, string), OpenLot> := map[];
    var snaps: seq<seq<Copies>> := [];
    warnings := [];
    for n := 0 to |days|
      invariant Holds(open, Fold(Processed(evs, days[..n])))
      invariant AllRecorded(snaps, Timeline(evs, strategies, days[..n])) && open.Values !! AllObjects(snaps)
      invariant forall o :: o in open.Values || o in AllObjects(snaps) ==> fresh(o)
      invariant warnings == Fold(Processed(evs, days[..n])).warnings
    {
      ProcessedNext(evs, days, n);
      open, warnings, snaps := ProcessDay(open, warnings, snaps, Processed(evs, days[..n]),
                                          Timeline(evs, strategies, days[..n]), DayEvents(evs, days[n]), strategies);
    }
    assert days[..|days|] == days;
    eod := ReadAll(snaps, Timeline(evs, strategies, days));
  }

  lemma ProcessedNext(evs: seq<Event>, days: seq<int>, n: nat)
    requires n < |days|
    ensures Processed(evs, days[..n + 1]) == Processed(evs, days[..n]) + DayEvents(evs, days[n])
    ensures forall strategies :: Timeline(evs, strategies, days[..n + 1])
              == Timeline(evs, strategies, days[..n]) + [Closing(Fold(Processed(evs, days[..n + 1])), strategies)]
  {
    assert days[..n + 1][..n] == days[..n];
  }

  method ReadAll(snaps: seq<seq<Copies>>, ghost expected: seq<seq<map<string, Lot>>>)
    returns (out: seq<seq<map<string, Lot>>>)
    requires AllRecorded(snaps, expected)
    ensures out == expected
  {
    out := [];
    for n := 0 to |snaps|
      invariant out == expected[..n]
    {
      var day := ReadOut(snaps[n], expected[n]);
      out := out + [day];
    }
  }

  method ReadOut(snaps: seq<Copies>, ghost expected: seq<map<string, Lot>>) returns (out: seq<map<string, Lot>>)
    requires Recorded(snaps, expected)
    ensures out == expected
  {
    out := [];
    for i := 0 to |snaps|
      invariant out == expected[..i]
    {
      var values := map t | t in snaps[i] :: snaps[i][t].Value();
      assert values == expected[i];
      out := out + [values];
    }
  }

  // ---- conservation ----------------------------------------------------------------------

  function Bought(evs: seq<Event>, key: (string, string)): int {
    if evs == [] then 0
    else
      var ev := evs[|evs| - 1];
      Bought(evs[..|evs| - 1], key) + (if ev.side == Buy && ev.Key() == key then ev.quantity else 0)
  }

  function Asked(evs: seq<Event>, key: (string, string)): int {
    if evs == [] then 0
    else
      var ev := evs[|evs| - 1];
      Asked(evs[..|evs| - 1], key) + (if ev.side == Sell && ev.Key() == key then ev.quantity else 0)
  }

  /** What the recorded warnings say was sold in excess. */
  function Excess(ws: seq<Warning>, key: (string, string)): int {
    if ws == [] then 0
    else
      var w := ws[|ws| - 1];
      Excess(ws[..|ws| - 1], key) + (if (w.strategy, w.ticker) == key then w.sellQty - w.held else 0)
  }

  lemma ExcessOfStep(l: Ledger, ev: Event, key: (string, string))
    ensures Excess(Step(l, ev).warnings, key) == Excess(l.warnings, key)
            + (if ev.side == Sell && ev.Key() == key then ev.quantity - Effective(LotOf(l, key), ev) else 0)
  {
    var lot := LotOf(l, ev.Key());
    var w := Warning(ev.strategy, ev.ticker, lot.quantity, ev.quantity);
    if Warned(lot, ev) == [] {
      assert l.warnings + [] == l.warnings;
    } else {
      assert (l.warnings + [w])[..|l.warnings|] == l.warnings;
    }
  }

  lemma LotOfStep(l: Ledger, ev: Event, key: (string, string))
    ensures LotOf(Step(l, ev), key) == if ev.Key() == key then AfterEvent(LotOf(l, key), ev) else LotOf(l, key)
  {
  }

  /** For every event list and every strategy and ticker: what is held is what was bought less what
      was really sold, never negative, where really sold is what was asked less the recorded excess. */
  lemma {:induction false} QuantityIsConserved(evs: seq<Event>, key: (string, string))
    ensures var l := Fold(evs);
            && LotOf(l, key).quantity == Bought(evs, key) - (Asked(evs, key) - Excess(l.warnings, key))
            && LotOf(l, key).quantity >= 0
            && 0 <= Excess(l.warnings, key) <= Asked(evs, key)
  {
    if evs != [] {
      var pre, ev := evs[..|evs| - 1], evs[|evs| - 1];
      QuantityIsConserved(pre, key);
      LotOfStep(Fold(pre), ev, key);
      ExcessOfStep(Fold(pre), ev, key);
    }
  }

  ghost predicate CostBetween(lot: Lot, lo: real, hi: real) {
    && lot.quantity >= 0
    && (lot.cost == 0.0 <==> lot.quantity == 0)
    && lo * lot.quantity as real <= lot.cost <= hi * lot.quantity as real
  }

  lemma BuyKeepsBounds(lot: Lot, quantity: nat, price: real, lo: real, hi: real)
    requires lo * lot.quantity as real <= lot.cost <= hi * lot.quantity as real && lo <= price <= hi
    ensures lo * (lot.quantity + quantity) as real <= lot.cost + price * quantity as real
            <= hi * (lot.quantity + quantity) as real
  {
    MulMono(quantity as real, lo, price);
    MulMono(quantity as real, price, hi);
    SpreadOver(lo, lot.quantity, quantity);
    SpreadOver(hi, lot.quantity, quantity);
  }

  lemma CostStep(lot: Lot, ev: Event, lo: real, hi: real)
    requires 0.0 < lo <= hi && CostBetween(lot, lo, hi)
    requires ev.side == Buy ==> lo <= ev.price <= hi
    ensures CostBetween(AfterEvent(lot, ev), lo, hi)
  {
    var after := AfterEvent(lot, ev);
    match ev.side {
      case Buy => BuyKeepsBounds(lot, ev.quantity, ev.price, lo, hi);
      case Sell =>
        var n := Effective(lot, ev);
        if n < lot.quantity { SellKeepsBounds(lot, n, lo, hi); }
      case Other =>
    }
    if after.quantity > 0 { PositiveProduct(lo, after.quantity as real); }
  }

  /** With positive prices a lot costs nothing exactly when it is empty, and its average cost always
      lies between the lowest and highest price paid. */
  lemma {:induction false} CostFollowsQuantity(evs: seq<Event>, key: (string, string), lo: real, hi: real)
    requires 0.0 < lo <= hi
    requires forall ev :: ev in evs && ev.side == Buy ==> lo <= ev.price <= hi
    ensures CostBetween(LotOf(Fold(evs), key), lo, hi)
  {
    if evs != [] {
      var pre, ev := evs[..|evs| - 1], evs[|evs| - 1];
      assert evs == pre + [ev];
      CostFollowsQuantity(pre, key, lo, hi);
      LotOfStep(Fold(pre), ev, key);
      if ev.Key() == key { CostStep(LotOf(Fold(pre), key), ev, lo, hi); }
    }
  }

  lemma PositiveProduct(a: real, b: real)
    requires a > 0.0 && b > 0.0
    ensures a * b > 0.0
  {
  }

  lemma SpreadOver(p: real, a: int, b: int)
    ensures p * (a + b) as real == p * a as real + p * b as real
  {
    assert (a + b) as real == a as real + b as real;
  }

  /** A sell that does not empty the lot leaves the average cost where it was. */
  lemma SellKeepsAverage(lot: Lot, n: int)
    requires 0 <= n < lot.quantity
    ensures var after := AfterSell(lot, n);
            && after.quantity == lot.quantity - n > 0
            && after.cost / after.quantity as real == lot.cost / lot.quantity as real
  {
    var q, avg := lot.quantity as real, lot.cost / lot.quantity as real;
    var rest := (lot.quantity - n) as real;
    assert rest == q - n as real;
    assert avg * q == lot.cost;
    assert lot.cost - avg * n as real == avg * rest;
    assert avg * rest / rest == avg;
  }

  lemma SellKeepsBounds(lot: Lot, n: int, lo: real, hi: real)
    requires 0 <= n < lot.quantity && lo * lot.quantity as real <= lot.cost <= hi * lot.quantity as real
    ensures var after := AfterSell(lot, n);
            lo * after.quantity as real <= after.cost <= hi * after.quantity as real
  {
    var after := AfterSell(lot, n);
    SellKeepsAverage(lot, n);
    var avg := lot.cost / lot.quantity as real;
    DivMono(lo * lot.quantity as real, lot.cost, lot.quantity as real);
    DivMono(lot.cost, hi * lot.quantity as real, lot.quantity as real);
    assert lo <= avg <= hi;
    assert after.cost == avg * after.quantity as real;
    MulMono(after.quantity as real, lo, avg);
    MulMono(after.quantity as real, avg, hi);
  }

  // ---- comparison with the live positions -------------------------------------------------

  datatype Diff = Diff(ticker: string, reconstructed: int, live: int)

  function At(m: map<string, int>, t: string): int { if t in m then m[t] else 0 }

  /** The tickers whose quantities differ, in the order given. */
  function Differences(rec: map<string, int>, live: map<string, int>, tickers: seq<string>): seq<Diff> {
    if tickers == [] then []
    else
      var t := tickers[|tickers| - 1];
      Differences(rec, live, tickers[..|tickers| - 1])
      + (if At(rec, t) != At(live, t) then [Diff(t, At(rec, t), At(live, t))] else [])
  }

  ghost predicate Before(le: (string, string) -> bool, a: string, b: string) { le(a, b) && a != b }

  ghost predicate Ascending(le: (string, string) -> bool, tickers: seq<string>) {
    forall i, j :: 0 <= i < j < |tickers| ==> Before(le, tickers[i], tickers[j])
  }

  lemma {:induction false} DifferencesListed(rec: map<string, int>, live: map<string, int>, tickers: seq<string>)
    ensures forall x :: x in Differences(rec, live, tickers) <==>
              x.ticker in tickers && x == Diff(x.ticker, At(rec, x.ticker), At(live, x.ticker))
                && x.reconstructed != x.live
  {
    if tickers != [] {
      DifferencesListed(rec, live, tickers[..|tickers| - 1]);
      assert tickers == tickers[..|tickers| - 1] + [tickers[|tickers| - 1]];
    }
  }

  function TickersOf(diffs: seq<Diff>): seq<string> { seq(|diffs|, i requires 0 <= i < |diffs| => diffs[i].ticker) }

  lemma AscendingSnoc(le: (string, string) -> bool, tickers: seq<string>, t: string)
    requires Ascending(le, tickers) && forall x :: x in tickers ==> Before(le, x, t)
    ensures Ascending(le, tickers + [t])
  {
    forall i, j | 0 <= i < j < |tickers| + 1 ensures Before(le, (tickers + [t])[i], (tickers + [t])[j]) {
      assert (tickers + [t])[i] == tickers[i] && tickers[i] in tickers;
      if j < |tickers| { assert Before(le, tickers[i], tickers[j]); }
    }
  }

  lemma {:induction false} DifferencesAscend(le: (string, string) -> bool, rec: map<string, int>,
                                             live: map<string, int>, tickers: seq<string>)
    requires Ascending(le, tickers)
    ensures Ascending(le, TickersOf(Differences(rec, live, tickers)))
  {
    if tickers != [] {
      var n := |tickers| - 1;
      var before := Differences(rec, live, tickers[..n]);
      assert Ascending(le, tickers[..n]) by {
        forall i, j | 0 <= i < j < n ensures Before(le, tickers[..n][i], tickers[..n][j]) {
          assert Before(le, tickers[i], tickers[j]);
        }
      }
      DifferencesAscend(le, rec, live, tickers[..n]);
      DifferencesListed(rec, live, tickers[..n]);
      forall x | x in TickersOf(before) ensures Before(le, x, tickers[n]) {
        var i :| 0 <= i < |before| && before[i].ticker == x;
        assert before[i] in before;
        var m :| 0 <= m < n && tickers[..n][m] == x;
        assert Before(le, tickers[m], tickers[n]);
      }
      AscendingSnoc(le, TickersOf(before), tickers[n]);
      assert TickersOf(before + [Diff(tickers[n], At(rec, tickers[n]), At(live, tickers[n]))])
             == TickersOf(before) + [tickers[n]];
      assert before + [] == before;
    }
  }

  /** Over the sorted union of both key sets, the differences come in ticker order, one for exactly the
      tickers whose quantities differ, and there is none exactly when the two agree everywhere. */
  lemma {:induction false} DifferencesAreExact(le: (string, string) -> bool, rec: map<string, int>,
                                               live: map<string, int>, tickers: seq<string>)
    requires Ascending(le, tickers) && forall t :: t in tickers <==> t in rec || t in live
    ensures var diffs := Differences(rec, live, tickers);
            && (forall x :: x in diffs <==>
                  x == Diff(x.ticker, At(rec, x.ticker), At(live, x.ticker)) && x.reconstructed != x.live)
            && Ascending(le, TickersOf(diffs))
            && (diffs == [] <==> forall t :: At(rec, t) == At(live, t))
  {
    DifferencesListed(rec, live, tickers);
    DifferencesAscend(le, rec, live, tickers);
    var diffs := Differences(rec, live, tickers);
    if diffs == [] {
      forall t ensures At(rec, t) == At(live, t) {
        assert Diff(t, At(rec, t), At(live, t)) !in diffs;
      }
    } else {
      assert diffs[0] in diffs;
    }
  }

  /** Compare ticker by ticker, in the order given; an absent one counts as zero. */
  method ReconcileWithLive(rec: map<string, int>, live: map<string, int>, tickers: seq<string>)
    returns (diffs: seq<Diff>)
    ensures diffs == Differences(rec, live, tickers)
  {
    diffs := [];
    for i := 0 to |tickers|
      invariant diffs == Differences(rec, live, tickers[..i])
    {
      assert tickers[..i + 1][..i] == tickers[..i];
      var t := tickers[i];
      var r, l := At(rec, t), At(live, t);
      if r != l {
        diffs := diffs + [Diff(t, r, l)];
      }
    }
    assert tickers[..|tickers|] == tickers;
  }
}
