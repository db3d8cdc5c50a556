/** Recording stop-line events from exit-line snapshots. */
module Stops {
  import opened Basics
  import opened Journal

  type K = (string, string)

  datatype Phase = Steady | SkipNext | BootNext

  datatype Tracker = Tracker(last: map<K, StopRow>, known: set<K>, arm: map<K, real>, posNo: map<K, string>,
                             enabled: map<K, bool>, eodDone: map<K, int>, phase: Phase)

  function Get<T>(m: map<K, T>, k: K): Option<T> { if k in m then Some(m[k]) else None }

  predicate Truthy(s: Option<string>) { s.Some? && s.value != "" }

  const EOD_TIME := (15 * 60 + 30) * 60 * SECOND

  // ---- comparisons -----------------------------------------------------------------------

  predicate Differs(last: Option<StopRow>, cur: StopRow) { last != Some(cur) }

  /** A stop counts as changed when it falls, appears, disappears, leaves zero, or rises by half a
      percent or more of its recorded value. */
  predicate StopChanged(lp: Option<real>, cp: Option<real>) {
    if lp == cp then false
    else if lp.None? || cp.None? then true
    else if cp.value < lp.value then true
    else
      var base := if lp.value < 0.0 then -lp.value else lp.value;
      base == 0.0 || (cp.value - lp.value) / base * 100.0 >= 0.5
  }

  predicate ChangeTriggered(last: Option<StopRow>, cur: StopRow) {
    last.None? || StopChanged(last.value.stopPrice, cur.stopPrice)
    || last.value.stopKind != cur.stopKind || last.value.targetPrice != cur.targetPrice
    || last.value.targetHit != cur.targetHit || last.value.armPrice != cur.armPrice
  }

  // ---- one item --------------------------------------------------------------------------

  /** What one observation fixes for all its items. */
  datatype Context = Context(at: Time, enabledMap: map<string, bool>, bootNext: bool, newKeys: set<K>)

  /** The arm price last seen stays in force while the snapshot does not show one. */
  function Armed(t: Tracker, item: Item): map<K, real> {
    if item.armPrice.Some? then t.arm[item.Key() := item.armPrice.value] else t.arm
  }

  function Current(arm: map<K, real>, item: Item): StopRow {
    StopRow(item.stopPrice, item.stopSource, item.targetPrice, item.TargetHit(), Get(arm, item.Key()))
  }

  predicate IsNew(t: Tracker, item: Item, newKeys: set<K>) {
    var prev := Get(t.posNo, item.Key());
    item.Key() !in t.known || item.Key() in newKeys || (Truthy(item.orderNo) && Truthy(prev) && item.orderNo != prev)
  }

  function EnabledNow(c: Context, item: Item): bool {
    if item.strategy in c.enabledMap then c.enabledMap[item.strategy] else true
  }

  predicate PauseDue(t: Tracker, item: Item, c: Context) {
    !EnabledNow(c, item) && (item.Key() in t.enabled ==> t.enabled[item.Key()])
  }

  predicate EodDue(t: Tracker, item: Item, c: Context) {
    TimeOfDay(c.at) >= EOD_TIME && Get(t.eodDone, item.Key()) != Some(Date(c.at))
  }

  /** The one event an item gives, if any: first, then boot, paused, end of day, change. */
  function Chosen(t: Tracker, item: Item, c: Context): Option<StopKind> {
    var cur, last := Current(Armed(t, item), item), Get(t.last, item.Key());
    if IsNew(t, item, c.newKeys) then Some(First)
    else if c.bootNext && Differs(last, cur) then Some(Boot)
    else if PauseDue(t, item, c) then Some(Paused)
    else if EodDue(t, item, c) then Some(Eod)
    else if !c.bootNext && ChangeTriggered(last, cur) then Some(Change)
    else None
  }

  function EventOf(item: Item, c: Context, kind: StopKind, cur: StopRow): StopEvent {
    StopEvent(item.strategy, item.ticker, item.buyDate, item.orderNo, c.at, kind, cur, None)
  }

  function ObserveItem(t: Tracker, item: Item, c: Context): (Tracker, seq<StopEvent>) {
    var key, arm, kind := item.Key(), Armed(t, item), Chosen(t, item, c);
    var cur := Current(arm, item);
    (t.(arm := arm,
        posNo := if Truthy(item.orderNo) then t.posNo[key := item.orderNo.value] else t.posNo,
        eodDone := if !IsNew(t, item, c.newKeys) && EodDue(t, item, c) then t.eodDone[key := Date(c.at)] else t.eodDone,
        known := t.known + {key},
        enabled := t.enabled[key := EnabledNow(c, item)],
        last := if kind.Some? then t.last[key := cur] else t.last),
     if kind.Some? then [EventOf(item, c, kind.value, cur)] else [])
  }

  function ObserveItems(t: Tracker, items: G1, c: Context): (Tracker, seq<StopEvent>) {
    if items == [] then (t, [])
    else
      var (t1, evs) := ObserveItems(t, items[..|items| - 1], c);
      var (t2, more) := ObserveItem(t1, items[|items| - 1], c);
      (t2, evs + more)
  }

  // ---- one observation -------------------------------------------------------------------

  datatype Obs = Obs(at: Time, g0: Option<G0>, g1: Option<G1>, newKeys: set<K>)

  predicate Ignored(o: Obs) {
    o.g0.None? || !o.g0.value.running || o.g0.value.phase == "idle" || o.g1.None?
  }

  /** The observation reaches the items. */
  predicate Processed(t: Tracker, o: Obs) {
    !Ignored(o) && o.g0.value.phase != "booting" && t.phase != SkipNext
  }

  function EnabledMap(g0: G0): map<string, bool> {
    map s | s in g0.strategies :: g0.strategies[s].enabled
  }

  function ContextOf(t: Tracker, o: Obs): Context
    requires Processed(t, o)
  {
    Context(o.at, EnabledMap(o.g0.value), t.phase == BootNext, o.newKeys)
  }

  function KeysOf(items: G1): set<K> { set item | item in items :: item.Key() }

  function Observe(t: Tracker, o: Obs): (Tracker, seq<StopEvent>) {
    if Ignored(o) then (t, [])
    else if o.g0.value.phase == "booting" then (t.(phase := SkipNext), [])
    else if t.phase == SkipNext then (t.(phase := BootNext, known := t.known + KeysOf(o.g1.value)), [])
    else ObserveItems(t.(phase := Steady), o.g1.value, ContextOf(t, o))
  }

  function ObserveAll(t: Tracker, obs: seq<Obs>): (Tracker, seq<StopEvent>) {
    if obs == [] then (t, [])
    else
      var (t1, evs) := ObserveAll(t, obs[..|obs| - 1]);
      var (t2, more) := Observe(t1, obs[|obs| - 1]);
      (t2, evs + more)
  }

  /** A tracker started from the last row of each holding. */
  function FromRows(rows: map<K, StopEvent>): Tracker {
    Tracker(map k | k in rows :: rows[k].row,
            rows.Keys,
            map k | k in rows && rows[k].row.armPrice.Some? :: rows[k].row.armPrice.value,
            map k | k in rows && Truthy(rows[k].posNo) :: rows[k].posNo.value,
            map[], map[], Steady)
  }

  /** Noting the arm price first does not change the decision. */
  lemma SameDecision(t: Tracker, t1: Tracker, item: Item, c: Context)
    requires t1 == t.(arm := Armed(t, item))
    ensures Chosen(t1, item, c) == Chosen(t, item, c)
    ensures IsNew(t1, item, c.newKeys) == IsNew(t, item, c.newKeys) && EodDue(t1, item, c) == EodDue(t, item, c)
  {
    assert Armed(t1, item) == t1.arm;
  }

  // ---- the object ------------------------------------------------------------------------

  class StopTracker {
    var last: map<K, StopRow>
    var known: set<K>
    var arm: map<K, real>
    var posNo: map<K, string>
    var enabled: map<K, bool>
    var eodDone: map<K, int>
    var phase: Phase

    function State(): Tracker
      reads this
    {
      Tracker(last, known, arm, posNo, enabled, eodDone, phase)
    }

    constructor (rows: map<K, StopEvent>)
      ensures State() == FromRows(rows)
    {
      last := map k | k in rows :: rows[k].row;
      known := rows.Keys;
      arm := map k | k in rows && rows[k].row.armPrice.Some? :: rows[k].row.armPrice.value;
      posNo := map k | k in rows && Truthy(rows[k].posNo) :: rows[k].posNo.value;
      enabled, eodDone, phase := map[], map[], Steady;
    }

    /** Which event the item gives, and whether it uses up the day's end-of-day mark. */
    method Decide(item: Item, c: Context) returns (eod: bool, chosen: Option<StopKind>)
      requires Armed(State(), item) == arm
      ensures chosen == Chosen(State(), item, c)
      ensures eod == (!IsNew(State(), item, c.newKeys) && EodDue(State(), item, c))
    {
      var key, cur := item.Key(), Current(arm, item);
      var isNew := IsNew(State(), item, c.newKeys);
      var wasEnabled := if key in enabled then enabled[key] else true;
      var lastRow := Get(last, key);
      var paused := !isNew && !EnabledNow(c, item) && wasEnabled;
      eod := !isNew && TimeOfDay(c.at) >= EOD_TIME && Get(eodDone, key) != Some(Date(c.at));
      var boot := !isNew && c.bootNext && Differs(lastRow, cur);
      var change := !isNew && !paused && !eod && !c.bootNext && ChangeTriggered(lastRow, cur);
      chosen := None;
      if isNew {
        chosen := Some(First);
      } else if boot {
        chosen := Some(Boot);
      } else if paused {
        chosen := Some(Paused);
      } else if eod {
        chosen := Some(Eod);
      } else if change {
        chosen := Some(Change);
      }
    }

    method SeeItem(item: Item, c: Context) returns (evs: seq<StopEvent>)
      modifies this
      ensures (State(), evs) == ObserveItem(old(State()), item, c)
    {
      var key := item.Key();
      if item.armPrice.Some? {
        arm := arm[key := item.armPrice.value];
      }
      var cur := Current(arm, item);
      var eod, chosen := Decide(item, c);
      SameDecision(old(State()), State(), item, c);
      if Truthy(item.orderNo) {
        posNo := posNo[key := item.orderNo.value];
      }
      if eod {
        eodDone := eodDone[key := Date(c.at)];
      }
      known := known + {key};
      enabled := enabled[key := EnabledNow(c, item)];
      evs := [];
      if chosen.Some? {
        last := last[key := cur];
        evs := [EventOf(item, c, chosen.value, cur)];
      }
    }

    method See(o: Obs) returns (evs: seq<StopEvent>)
      modifies this
      ensures (State(), evs) == Observe(old(State()), o)
    {
      evs := [];
      if Ignored(o) {
        return;
      }
      if o.g0.value.phase == "booting" {
        phase := SkipNext;
        return;
      }
      var items := o.g1.value;
      if phase == SkipNext {
        phase := BootNext;
        known := known + KeysOf(items);
        return;
      }
      var c := ContextOf(State(), o);
      phase := Steady;
      ghost var start := State();
      for i := 0 to |items|
        invariant (State(), evs) == ObserveItems(start, items[..i], c)
      {
        assert items[..i + 1][..i] == items[..i];
        var more := SeeItem(items[i], c);
        evs := evs + more;
      }
      assert items[..|items|] == items;
    }
  }

  // ---- no drift --------------------------------------------------------------------------

  /** The recorded row stands for the current one: same kind, target, hit and arm price, and a stop
      that is equal or has only risen, by less than half a percent. */
  ghost predicate StandsFor(rec: StopRow, cur: StopRow) {
    && rec.stopKind == cur.stopKind && rec.targetPrice == cur.targetPrice
    && rec.targetHit == cur.targetHit && rec.armPrice == cur.armPrice
    && (rec.stopPrice == cur.stopPrice
        || (rec.stopPrice.Some? && cur.stopPrice.Some? && rec.stopPrice.value < cur.stopPrice.value
            && RiseBelowHalfPercent(rec.stopPrice.value, cur.stopPrice.value)))
  }

  ghost predicate RiseBelowHalfPercent(from: real, to: real) {
    from != 0.0 && 200.0 * (to - from) < (if from < 0.0 then -from else from)
  }

  lemma SmallRise(lp: real, cp: real)
    requires !StopChanged(Some(lp), Some(cp))
    ensures cp == lp || (lp < cp && RiseBelowHalfPercent(lp, cp))
  {
    if cp != lp {
      var base := if lp < 0.0 then -lp else lp;
      assert base / 200.0 / base == 0.005;
      if 200.0 * (cp - lp) >= base { DivMono(base / 200.0, cp - lp, base); }
    }
  }

  ghost predicate Tracked(t: Tracker, item: Item) {
    item.Key() in t.last && StandsFor(t.last[item.Key()], Current(t.arm, item))
  }

  /** After an item is processed its record stands for it, and no other holding's record moved. */
  lemma ItemIsTracked(t: Tracker, item: Item, c: Context)
    ensures var t' := ObserveItem(t, item, c).0;
            && Tracked(t', item)
            && forall k :: k != item.Key() ==> Get(t'.last, k) == Get(t.last, k) && Get(t'.arm, k) == Get(t.arm, k)
  {
    var last, cur := Get(t.last, item.Key()), Current(Armed(t, item), item);
    if Chosen(t, item, c).None? && last.Some? && last.value.stopPrice.Some? && cur.stopPrice.Some? && !c.bootNext {
      SmallRise(last.value.stopPrice.value, cur.stopPrice.value);
    }
  }

  ghost predicate LastOfItsKey(items: G1, i: int)
    requires 0 <= i < |items|
  {
    forall j :: i < j < |items| ==> items[j].Key() != items[i].Key()
  }

  lemma {:induction false} ItemsAreTracked(t: Tracker, items: G1, c: Context, i: int)
    requires 0 <= i < |items| && LastOfItsKey(items, i)
    ensures Tracked(ObserveItems(t, items, c).0, items[i])
  {
    var n := |items| - 1;
    var t1 := ObserveItems(t, items[..n], c).0;
    if i < n {
      ItemsAreTracked(t, items[..n], c, i);
      OtherItemTracked(t1, items[n], c, items[i]);
    } else {
      ItemIsTracked(t1, items[n], c);
    }
  }

  lemma OtherItemTracked(t: Tracker, item: Item, c: Context, other: Item)
    requires other.Key() != item.Key() && Tracked(t, other)
    ensures Tracked(ObserveItem(t, item, c).0, other)
  {
    ItemIsTracked(t, item, c);
    var t', k := ObserveItem(t, item, c).0, other.Key();
    assert Get(t'.last, k) == Get(t.last, k) && Get(t'.arm, k) == Get(t.arm, k);
  }

  /** After every processed observation, whatever came before it, each holding's last recorded row
      stands for the row now shown. Unrecorded rises never add up: the bound is against the record. */
  lemma RecordNeverDrifts(t: Tracker, o: Obs, i: int)
    requires Processed(t, o) && 0 <= i < |o.g1.value| && LastOfItsKey(o.g1.value, i)
    ensures var t' := Observe(t, o).0;
            var item := o.g1.value[i];
            item.Key() in t'.last && StandsFor(t'.last[item.Key()], Current(t'.arm, item))
  {
    ItemsAreTracked(t.(phase := Steady), o.g1.value, ContextOf(t, o), i);
  }

  // ---- rebuilding ------------------------------------------------------------------------

  /** Each event replaces its holding's row. */
  function Overlay(rows: map<K, StopEvent>, evs: seq<StopEvent>): map<K, StopEvent> {
    if evs == [] then rows
    else
      var ev := evs[|evs| - 1];
      Overlay(rows, evs[..|evs| - 1])[(ev.strategy, ev.ticker) := ev]
  }

  /** The tracker's rows are those of `rows`, and its arm prices are the recorded ones. */
  ghost predicate Mirrors(t: Tracker, rows: map<K, StopEvent>) {
    && t.last.Keys == rows.Keys && t.arm.Keys <= rows.Keys
    && forall k :: k in rows ==> t.last[k] == rows[k].row && rows[k].row.armPrice == Get(t.arm, k)
  }

  lemma MirrorIsRebuild(t: Tracker, rows: map<K, StopEvent>)
    requires Mirrors(t, rows)
    ensures FromRows(rows).last == t.last && FromRows(rows).arm == t.arm
  {
    var arm := FromRows(rows).arm;
    forall k ensures k in arm <==> k in t.arm {
      if k in rows { assert rows[k].row.armPrice == Get(t.arm, k); }
    }
  }

  lemma OverlayOne(rows: map<K, StopEvent>, ev: StopEvent)
    ensures Overlay(rows, [ev]) == rows[(ev.strategy, ev.ticker) := ev]
  {
    assert [ev][..0] == [];
  }

  /** A recorded row replaces the holding's; without one, its old row still stands for it. */
  lemma RecordMirrors(t: Tracker, t': Tracker, rows: map<K, StopEvent>, key: K, ev: StopEvent)
    requires Mirrors(t, rows) && ev.row.armPrice == Get(t'.arm, key)
    requires t'.last == t.last[key := ev.row] && forall k :: k != key ==> Get(t'.arm, k) == Get(t.arm, k)
    ensures Mirrors(t', rows[key := ev])
  {
    var rows' := rows[key := ev];
    forall k | k in t'.arm ensures k in rows' {
      if k != key { assert Get(t'.arm, k) == Get(t.arm, k); }
    }
    forall k | k in rows' ensures t'.last[k] == rows'[k].row && rows'[k].row.armPrice == Get(t'.arm, k) {
      if k != key { assert Get(t'.arm, k) == Get(t.arm, k) && rows[k].row.armPrice == Get(t.arm, k); }
    }
    assert t'.last.Keys == rows'.Keys;
  }

  lemma ItemMirrors(t: Tracker, rows: map<K, StopEvent>, item: Item, c: Context)
    requires Mirrors(t, rows)
    ensures var (t', evs) := ObserveItem(t, item, c);
            Mirrors(t', Overlay(rows, evs))
  {
    ItemIsTracked(t, item, c);
    var (t', evs) := ObserveItem(t, item, c);
    if evs == [] {
      SilentMirrors(t, t', rows, item);
    } else {
      OverlayOne(rows, evs[0]);
      RecordMirrors(t, t', rows, item.Key(), evs[0]);
    }
  }

  lemma SilentMirrors(t: Tracker, t': Tracker, rows: map<K, StopEvent>, item: Item)
    requires Mirrors(t, rows) && t'.last == t.last && t'.arm == Armed(t, item)
    requires item.Key() in t.last && StandsFor(t.last[item.Key()], Current(t'.arm, item))
    ensures Mirrors(t', rows)
  {
  }

  lemma {:induction false} OverlayConcat(rows: map<K, StopEvent>, a: seq<StopEvent>, b: seq<StopEvent>)
    ensures Overlay(rows, a + b) == Overlay(Overlay(rows, a), b)
  {
    if b == [] {
      assert a + b == a;
    } else {
      OverlayConcat(rows, a, b[..|b| - 1]);
      assert (a + b)[..|a + b| - 1] == a + b[..|b| - 1];
    }
  }

  lemma {:induction false} ItemsMirror(t: Tracker, rows: map<K, StopEvent>, items: G1, c: Context)
    requires Mirrors(t, rows)
    ensures var (t', evs) := ObserveItems(t, items, c);
            Mirrors(t', Overlay(rows, evs))
  {
    if items != [] {
      ItemsMirror(t, rows, items[..|items| - 1], c);
      var (t1, evs) := ObserveItems(t, items[..|items| - 1], c);
      ItemMirrors(t1, Overlay(rows, evs), items[|items| - 1], c);
      OverlayConcat(rows, evs, ObserveItem(t1, items[|items| - 1], c).1);
    }
  }

  lemma {:induction false} AllMirror(t: Tracker, rows: map<K, StopEvent>, obs: seq<Obs>)
    requires Mirrors(t, rows)
    ensures var (t', evs) := ObserveAll(t, obs);
            Mirrors(t', Overlay(rows, evs))
  {
    if obs != [] {
      AllMirror(t, rows, obs[..|obs| - 1]);
      var (t1, evs) := ObserveAll(t, obs[..|obs| - 1]);
      var o := obs[|obs| - 1];
      if Processed(t1, o) {
        ItemsMirror(t1.(phase := Steady), Overlay(rows, evs), o.g1.value, ContextOf(t1, o));
      }
      OverlayConcat(rows, evs, Observe(t1, o).1);
    }
  }

  /** After any observations, a tracker rebuilt from the rows it started with and its own events per
      holding has the same last rows and arm prices. */
  lemma RebuildRestores(rows: map<K, StopEvent>, obs: seq<Obs>)
    ensures var (t, evs) := ObserveAll(FromRows(rows), obs);
            var again := FromRows(Overlay(rows, evs));
            again.last == t.last && again.arm == t.arm
  {
    AllMirror(FromRows(rows), rows, obs);
    var (t, evs) := ObserveAll(FromRows(rows), obs);
    MirrorIsRebuild(t, Overlay(rows, evs));
  }

  // ---- end of day ------------------------------------------------------------------------

  function EodCount(evs: seq<StopEvent>, k: K, day: int): nat {
    if evs == [] then 0
    else
      var ev := evs[|evs| - 1];
      EodCount(evs[..|evs| - 1], k, day)
      + (if ev.kind == Eod && (ev.strategy, ev.ticker) == k && Date(ev.observedAt) == day then 1 else 0)
  }

  /** The day's event is spent once recorded, and no mark lies in the future. */
  ghost predicate EodInv(t: Tracker, evs: seq<StopEvent>, k: K, day: int, now: Time) {
    && EodCount(evs, k, day) <= 1
    && (EodCount(evs, k, day) == 1 ==> k in t.eodDone && t.eodDone[k] >= day)
    && (k in t.eodDone ==> t.eodDone[k] <= Date(now))
  }

  lemma ItemEod(t: Tracker, evs: seq<StopEvent>, k: K, day: int, item: Item, c: Context)
    requires EodInv(t, evs, k, day, c.at)
    ensures var (t', more) := ObserveItem(t, item, c);
            EodInv(t', evs + more, k, day, c.at)
  {
    var (t', more) := ObserveItem(t, item, c);
    if more == [] {
      assert evs + more == evs;
    } else {
      assert (evs + more)[..|evs|] == evs;
    }
  }

  lemma {:induction false} ItemsEod(t: Tracker, evs: seq<StopEvent>, k: K, day: int, items: G1, c: Context)
    requires EodInv(t, evs, k, day, c.at)
    ensures var (t', more) := ObserveItems(t, items, c);
            EodInv(t', evs + more, k, day, c.at)
  {
    if items == [] {
      assert evs + [] == evs;
    } else {
      var n := |items| - 1;
      ItemsEod(t, evs, k, day, items[..n], c);
      var (t1, more) := ObserveItems(t, items[..n], c);
      ItemEod(t1, evs + more, k, day, items[n], c);
      assert evs + more + ObserveItem(t1, items[n], c).1 == evs + (more + ObserveItem(t1, items[n], c).1);
    }
  }

  ghost predicate ClockForward(obs: seq<Obs>) {
    forall i, j :: 0 <= i < j < |obs| ==> obs[i].at <= obs[j].at
  }

  lemma {:induction false} AllEod(t: Tracker, obs: seq<Obs>, k: K, day: int)
    requires obs != [] && ClockForward(obs) && t.eodDone == map[]
    ensures var (t', evs) := ObserveAll(t, obs);
            EodInv(t', evs, k, day, obs[|obs| - 1].at)
  {
    var n := |obs| - 1;
    var (t1, evs) := ObserveAll(t, obs[..n]);
    var o := obs[n];
    if n > 0 { AllEod(t, obs[..n], k, day); DatesForward(obs[n - 1].at, o.at); }
    if Processed(t1, o) {
      ItemsEod(t1.(phase := Steady), evs, k, day, o.g1.value, ContextOf(t1, o));
    } else {
      assert evs + [] == evs;
    }
  }

  lemma DatesForward(a: Time, b: Time)
    requires a <= b
    ensures Date(a) <= Date(b)
  {
  }

  /** With a clock that never goes back, one tracker records at most one end-of-day event per holding
      and day. */
  lemma OneEodPerDay(rows: map<K, StopEvent>, obs: seq<Obs>, k: K, day: int)
    requires ClockForward(obs)
    ensures EodCount(ObserveAll(FromRows(rows), obs).1, k, day) <= 1
  {
    if obs != [] { AllEod(FromRows(rows), obs, k, day); }
  }
}
