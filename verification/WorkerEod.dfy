/** End-of-day rows over whole runs: how many a schedule of deaths and clock times can give. */
module WorkerEod {
  import opened Basics
  import opened Journal
  import opened JournalDb
  import opened Worker
  import opened WorkerLoss
  import opened WorkerOnce
  import opened WorkerRuns
  import P = Pairing
  import R = Reconcile
  import S = Stops
  import T = Tailer

  type K = (string, string)

  predicate Late(now: Time) { TimeOfDay(now) >= S.EOD_TIME }

  /** The tracker has given the day's end-of-day event of the holding. */
  predicate Marked(t: S.Tracker, k: K, day: int) { S.Get(t.eodDone, k) == Some(day) }

  // ---- one observation -----------------------------------------------------------------------------

  predicate IsEod(ev: StopEvent, k: K, day: int) {
    ev.kind == Eod && (ev.strategy, ev.ticker) == k && Date(ev.observedAt) == day
  }

  lemma EodSnoc(evs: seq<StopEvent>, ev: StopEvent, k: K, day: int)
    ensures S.EodCount(evs + [ev], k, day) == S.EodCount(evs, k, day) + (if IsEod(ev, k, day) then 1 else 0)
  {
    assert (evs + [ev])[..|evs|] == evs;
  }

  lemma {:induction false} EodConcat(a: seq<StopEvent>, b: seq<StopEvent>, k: K, day: int)
    ensures S.EodCount(a + b, k, day) == S.EodCount(a, k, day) + S.EodCount(b, k, day)
  {
    if b == [] {
      assert a + b == a;
    } else {
      assert (a + b)[..|a + b| - 1] == a + b[..|b| - 1];
      EodConcat(a, b[..|b| - 1], k, day);
    }
  }

  lemma EodOne(ev: StopEvent, k: K, day: int)
    ensures S.EodCount([ev], k, day) == if IsEod(ev, k, day) then 1 else 0
  {
    assert [ev][..0] == [];
  }

  /** How many of the day's end-of-day events come with a change of the day's mark: one at most, late on
      the day and not when it is marked, and it marks the day; only a later day's mark replaces it. */
  predicate Spent(before: bool, events: int, after: bool, at: Time, day: int) {
    && events <= (if !before && Late(at) && Date(at) == day then 1 else 0)
    && (events >= 1 ==> after)
    && (before && (Date(at) == day || !Late(at)) ==> after)
  }

  lemma ItemSpends(t: S.Tracker, item: Item, c: S.Context, k: K, day: int)
    ensures var (t', evs) := S.ObserveItem(t, item, c);
            Spent(Marked(t, k, day), S.EodCount(evs, k, day), Marked(t', k, day), c.at, day)
  {
    var evs := S.ObserveItem(t, item, c).1;
    if evs != [] { EodOne(evs[0], k, day); }
  }

  lemma {:induction false} ItemsSpend(t: S.Tracker, items: G1, c: S.Context, k: K, day: int)
    ensures var (t', evs) := S.ObserveItems(t, items, c);
            Spent(Marked(t, k, day), S.EodCount(evs, k, day), Marked(t', k, day), c.at, day)
  {
    if items != [] {
      var n := |items| - 1;
      ItemsSpend(t, items[..n], c, k, day);
      var (t1, evs) := S.ObserveItems(t, items[..n], c);
      ItemSpends(t1, items[n], c, k, day);
      EodConcat(evs, S.ObserveItem(t1, items[n], c).1, k, day);
    }
  }

  /** The snapshot shows no holding twice. */
  ghost predicate Distinct(items: G1) {
    forall i, j :: 0 <= i < j < |items| ==> items[i].Key() != items[j].Key()
  }

  ghost predicate ShowsOnce(g1: Option<G1>) { g1.Some? ==> Distinct(g1.value) }

  /** A holding not known before gets no end-of-day event and no mark while it is shown at most once. */
  ghost predicate Untouched(t: S.Tracker, t': S.Tracker, events: int, k: K) {
    events <= 0 && S.Get(t'.eodDone, k) == S.Get(t.eodDone, k)
  }

  lemma OneItemUntouched(t: S.Tracker, item: Item, c: S.Context, k: K, day: int)
    requires item.Key() == k ==> k !in t.known
    ensures var (t', evs) := S.ObserveItem(t, item, c);
            Untouched(t, t', S.EodCount(evs, k, day), k) && t'.known == t.known + {item.Key()}
  {
    var evs := S.ObserveItem(t, item, c).1;
    if evs != [] { EodOne(evs[0], k, day); }
  }

  lemma {:induction false} ItemsUntouched(t: S.Tracker, items: G1, c: S.Context, k: K, day: int)
    requires k !in t.known && Distinct(items)
    ensures var (t', evs) := S.ObserveItems(t, items, c);
            && Untouched(t, t', S.EodCount(evs, k, day), k)
            && (k in t'.known ==> exists i :: 0 <= i < |items| && items[i].Key() == k)
  {
    if items != [] {
      var n := |items| - 1;
      ItemsUntouched(t, items[..n], c, k, day);
      var (t1, evs) := S.ObserveItems(t, items[..n], c);
      OneItemUntouched(t1, items[n], c, k, day);
      EodConcat(evs, S.ObserveItem(t1, items[n], c).1, k, day);
      if k in t1.known {
        var i :| 0 <= i < n && items[..n][i].Key() == k;
        assert items[i].Key() == k;
      }
    }
  }

  /** What one observation does to the holding's mark and events. */
  ghost predicate Observed(t: S.Tracker, t': S.Tracker, events: int, k: K, day: int, at: Time, g1: Option<G1>) {
    && Spent(Marked(t, k, day), events, Marked(t', k, day), at, day)
    && (k !in t.known && ShowsOnce(g1) ==> Untouched(t, t', events, k))
  }

  lemma ObserveEod(t: S.Tracker, o: S.Obs, k: K, day: int)
    ensures var (t', evs) := S.Observe(t, o); Observed(t, t', S.EodCount(evs, k, day), k, day, o.at, o.g1)
  {
    if S.Processed(t, o) {
      ItemsSpend(t.(phase := S.Steady), o.g1.value, S.ContextOf(t, o), k, day);
      if k !in t.known && ShowsOnce(o.g1) {
        ItemsUntouched(t.(phase := S.Steady), o.g1.value, S.ContextOf(t, o), k, day);
      }
    }
  }

  // ---- one rotation --------------------------------------------------------------------------------

  /** What the phases before and after the tracker leave alone. */
  ghost predicate SameEods(x: WD, y: WD, k: K, day: int) {
    S.EodCount(y.d.stops, k, day) == S.EodCount(x.d.stops, k, day) && y.w.t == x.w.t && y.w.booted == x.w.booted
  }

  lemma WriteOneSameEods(x: Written, row: Row)
    ensures WriteOne(x, row).d.stops == x.d.stops && WriteOne(x, row).w.t == x.w.t
  {
  }

  lemma {:induction false} WriteAllSameEods(x: Written, rows: seq<Row>)
    ensures WriteAll(x, rows).d.stops == x.d.stops && WriteAll(x, rows).w.t == x.w.t
  {
    if rows != [] {
      WriteAllSameEods(x, rows[..|rows| - 1]);
      WriteOneSameEods(WriteAll(x, rows[..|rows| - 1]), rows[|rows| - 1]);
    }
  }

  lemma {:induction false} CountSameTracker(w: WState, evs: seq<Event>)
    ensures CountDones(w, evs).t == w.t && CountDones(w, evs).booted == w.booted
  {
    if evs != [] { CountSameTracker(w, evs[..|evs| - 1]); }
  }

  lemma {:induction false} FillAllSameStops(d: Db, evs: seq<Event>)
    ensures FillAll(d, evs).stops == d.stops
  {
    if evs != [] { FillAllSameStops(d, evs[..|evs| - 1]); }
  }

  lemma AddStopEod(d: Db, ev: StopEvent, k: K, day: int)
    ensures var (n, n') := (S.EodCount(d.stops, k, day), S.EodCount(AddStop(d, ev).stops, k, day));
            n <= n' <= n + (if IsEod(ev, k, day) then 1 else 0)
  {
    EodSnoc(d.stops, ev, k, day);
  }

  /** Inserts that may fail add at most the events given. */
  lemma {:induction false} AddStopsEods(d: Db, evs: seq<StopEvent>, k: K, day: int)
    ensures var n := S.EodCount(AddStops(d, evs).stops, k, day);
            S.EodCount(d.stops, k, day) <= n <= S.EodCount(d.stops, k, day) + S.EodCount(evs, k, day)
  {
    if evs != [] {
      var n := |evs| - 1;
      AddStopsEods(d, evs[..n], k, day);
      AddStopEod(AddStops(d, evs[..n]), evs[n], k, day);
    }
  }

  lemma {:induction false} ExitsAreNoEods(anchors: seq<P.Anchor>, sells: set<string>, k: K, day: int)
    requires GoodAnchors(anchors)
    ensures S.EodCount(OfFresh(P.StopsOf(anchors), sells), k, day) == 0
  {
    if anchors != [] {
      var n := |anchors| - 1;
      var stops := P.StopsOf(anchors[..n]);
      ExitsAreNoEods(anchors[..n], sells, k, day);
      assert GoodAnchor(anchors[n]);
      if StopOf(anchors[n]) == [] {
        assert stops + [] == stops;
      } else {
        var ev := anchors[n].stop.value;
        OfFreshSnoc(stops, ev, sells);
        EodSnoc(OfFresh(stops, sells), ev, k, day);
        assert OfFresh(stops, sells) + [] == OfFresh(stops, sells);
      }
    }
  }

  lemma CollectSameEods(x: WD, g: Grammar, lines: seq<T.Bytes>, k: K, day: int)
    ensures SameEods(x, Collect(x, g, lines), k, day)
  {
    CountSameTracker(x.w, Parsed(g, lines));
    FillAllSameStops(x.d, Parsed(g, lines));
  }

  lemma ReleaseSameEods(x: WD, trades: map<string, string>, k: K, day: int)
    requires GoodAnchors(x.w.p.ready)
    ensures SameEods(x, Release(x, trades), k, day)
  {
    var leaving := P.Leaving(x.w.p, false);
    var rows := P.RowsOf(x.w.p, leaving, trades);
    var start := Written(x.w.(p := P.Drained(x.w.p, false)), x.d, {});
    var out := WriteAll(start, rows);
    WriteAllSameEods(start, rows);
    WriteKeepsCursors(start, rows);
    ExitsAreNoEods(leaving, out.sells, k, day);
    AddStopsEods(out.d, OfFresh(P.StopsOf(leaving), out.sells), k, day);
  }

  /** What a rotation does to the end-of-day rows and the mark. */
  ghost predicate EodsKept(x: WD, y: WD, k: K, day: int, env: Env) {
    && y.w.booted == x.w.booted
    && Observed(x.w.t, y.w.t, S.EodCount(y.d.stops, k, day) - S.EodCount(x.d.stops, k, day), k, day, env.now, env.g1)
  }

  lemma TrackEods(x: WD, env: Env, k: K, day: int)
    ensures EodsKept(x, Track(x, Observation(env)), k, day, env)
  {
    ObserveEod(x.w.t, Observation(env), k, day);
    AddStopsEods(x.d, S.Observe(x.w.t, Observation(env)).1, k, day);
  }

  lemma FinishEods(x: WD, g: Grammar, env: Env, lines: seq<T.Bytes>, end: T.Cursor, k: K, day: int)
    requires GoodMemory(x.w.p)
    ensures EodsKept(x, Finish(x, g, env, lines, end).0, k, day, env)
  {
    var y := Collect(x, g, lines);
    CollectSameEods(x, g, lines, k, day);
    FeedAllBrings(x.w.p, Parsed(g, lines));
    var z := Release(y, StrategiesSeen(env.trades));
    ReleaseSameEods(y, StrategiesSeen(env.trades), k, day);
    TrackEods(z, env, k, day);
    EndEods(Track(z, Observation(env)), x.w.prevTs, g, env, lines, end);
  }

  /** The save and the comparison with the trade history touch neither tracker nor stops. */
  lemma EndEods(x: WD, prevTs: Option<Time>, g: Grammar, env: Env, lines: seq<T.Bytes>, end: T.Cursor)
    ensures var (y, ok) := Commit(x, end, LastLineTs(g, lines));
            && y.d.stops == x.d.stops && y.w.t == x.w.t && y.w.booted == x.w.booted
            && (ok && ReconcileDue(y.w, env.now, prevTs, lines) ==>
                  var z := Reconciled(y, env.now, env.dayTrades, prevTs.value);
                  z.d.stops == x.d.stops && z.w.t == x.w.t && z.w.booted == x.w.booted)
  {
    var (y, ok) := Commit(x, end, LastLineTs(g, lines));
    if ok && ReconcileDue(y.w, env.now, prevTs, lines) && env.dayTrades.Some? {
      var w := y.w.(lastReconcile := Some(env.now));
      var rows := R.HistoryRows(env.dayTrades.value, w.journalKeys, P.ExternalNotices(w.p), prevTs.value);
      WriteAllSameEods(Written(w, y.d, {}), rows);
      WriteKeepsCursors(Written(w, y.d, {}), rows);
    }
  }

  /** What a rotation does to the end-of-day rows, from the worker it started with or has just started up. */
  ghost predicate EodTurn(x: WD, y: WD, env: Env, k: K, day: int) {
    && GoodMemory(y.w.p)
    && (|| (!y.w.booted && y.w == x.w && y.d.stops == x.d.stops)
        || (y.w.booted && EodsKept(WD(Ready(x, env), x.d), y, k, day, env)))
  }

  lemma FinishGood(x: WD, g: Grammar, env: Env, lines: seq<T.Bytes>, end: T.Cursor)
    requires GoodMemory(x.w.p)
    ensures GoodMemory(Finish(x, g, env, lines, end).0.w.p)
  {
    FinishMemory(x, g, env, lines, end);
    FeedAllKeepsGood(x.w.p, Parsed(g, lines));
  }

  lemma ReadEods(w: WState, d: Db, g: Grammar, env: Env, k: K, day: int)
    requires GoodMemory(w.p)
    ensures var y := ReadOn(WD(w, d), g, env).0;
            EodsKept(WD(w, d), y, k, day, env) && GoodMemory(y.w.p)
  {
    var chunk := T.ReadChunk(env.dir, w.cursor, T.MAX_READ_BYTES);
    if chunk.Chunk? {
      FinishEods(WD(w, d), g, env, chunk.lines, chunk.cursor, k, day);
      FinishGood(WD(w, d), g, env, chunk.lines, chunk.cursor);
    }
  }

  lemma ReadyForEods(x: WD, env: Env)
    requires GoodMemory(x.w.p)
    ensures var (ready, w) := (Ready(x, env), Shown(Ready(x, env), env));
            ready.booted && w.booted && w.t == ready.t && GoodMemory(w.p) && GoodMemory(ready.p)
  {
    ReadyKeepsMemory(x, env);
  }

  lemma IdleEods(x: WD, k: K, day: int, env: Env)
    ensures EodsKept(x, x, k, day, env)
  {
  }

  lemma RotateEods(x: WD, g: Grammar, env: Env, k: K, day: int)
    requires GoodMemory(x.w.p)
    ensures EodTurn(x, Rotate(x, g, env).0, env, k, day)
  {
    if x.w.booted || !env.bootFails {
      ReadyForEods(x, env);
      IdleEods(WD(Ready(x, env), x.d), k, day, env);
      ReadEods(Shown(Ready(x, env), env), x.d, g, env, k, day);
    }
  }

  // ---- schedules ------------------------------------------------------------------------------------

  /** What a schedule fixes: when each rotation takes place, and where the process dies. */
  datatype Beat = Tick(now: Time, dies: bool) | Death

  function BeatOf(step: Step): seq<Beat> {
    match step
    case Append(_) => []
    case RotateLog(_) => []
    case Rotation(env, _, dies) => [Tick(env.now, dies)]
    case Crash => [Death]
  }

  function BeatsOf(steps: seq<Step>): seq<Beat> {
    if steps == [] then [] else BeatsOf(steps[..|steps| - 1]) + BeatOf(steps[|steps| - 1])
  }

  predicate HasTick(beats: seq<Beat>) { exists i :: 0 <= i < |beats| && beats[i].Tick? }

  /** A late rotation can give a holding's end-of-day event if the holding can be known by then: it takes
      an earlier rotation to see it first, or a snapshot that shows it twice. */
  predicate Counts(before: seq<Beat>, now: Time, repeats: bool) { Late(now) && (repeats || HasTick(before)) }

  /** The date of the present life's last rotation that can give the event. */
  function LastLate(beats: seq<Beat>, repeats: bool): Option<int> {
    if beats == [] then None
    else
      match beats[|beats| - 1]
      case Death => None
      case Tick(now, dies) =>
        if dies then None
        else if Counts(beats[..|beats| - 1], now, repeats) then Some(Date(now))
        else LastLate(beats[..|beats| - 1], repeats)
  }

  /** How often a life turns to the day with a rotation that can give its event. */
  function Chances(beats: seq<Beat>, day: int, repeats: bool): nat {
    if beats == [] then 0
    else
      var before, beat := beats[..|beats| - 1], beats[|beats| - 1];
      Chances(before, day, repeats)
      + (if beat.Tick? && Counts(before, beat.now, repeats) && Date(beat.now) == day
            && LastLate(before, repeats) != Some(day)
         then 1 else 0)
  }

  lemma BeatsSnoc(steps: seq<Step>, step: Step)
    ensures BeatsOf(steps + [step]) == BeatsOf(steps) + BeatOf(step)
  {
    assert (steps + [step])[..|steps|] == steps;
  }

  lemma TickSnoc(beats: seq<Beat>, beat: Beat)
    ensures HasTick(beats + [beat]) <==> HasTick(beats) || beat.Tick?
  {
    var all := beats + [beat];
    assert all[|beats|] == beat;
    forall i | 0 <= i < |beats| ensures all[i] == beats[i] {
    }
  }

  /** What one more beat adds. */
  lemma ChancesSnoc(beats: seq<Beat>, beat: Beat, day: int, repeats: bool)
    ensures var (all, counts) := (beats + [beat], beat.Tick? && Counts(beats, beat.now, repeats));
            && (HasTick(all) <==> HasTick(beats) || beat.Tick?)
            && LastLate(all, repeats) == (if beat.Death? || beat.dies then None
                                          else if counts then Some(Date(beat.now)) else LastLate(beats, repeats))
            && Chances(all, day, repeats)
               == Chances(beats, day, repeats)
                  + (if counts && Date(beat.now) == day && LastLate(beats, repeats) != Some(day) then 1 else 0)
  {
    TickSnoc(beats, beat);
    assert (beats + [beat])[..|beats|] == beats;
  }

  // ---- no run has more rows than its schedule has chances ---------------------------------------------

  ghost predicate KeepsEods(rotate: (WD, Env) -> WD, k: K, day: int) {
    forall x: WD, env: Env :: GoodMemory(x.w.p) ==> EodTurn(x, rotate(x, env), env, k, day)
  }

  lemma WorkerKeepsEods(g: Grammar, k: K, day: int)
    ensures KeepsEods(WorkerRotation(g), k, day)
  {
    forall x: WD, env: Env | GoodMemory(x.w.p) ensures EodTurn(x, WorkerRotation(g)(x, env), env, k, day) {
      RotateEods(x, g, env, k, day);
    }
  }

  /** No more rows than chances; with as many, a life whose last late rotation was of the day is marked. */
  ghost predicate Within(s: Run, beats: seq<Beat>, k: K, day: int, repeats: bool) {
    var (n, most) := (S.EodCount(s.d.stops, k, day), Chances(beats, day, repeats));
    && GoodMemory(s.w.p) && n <= most
    && (LastLate(beats, repeats) == Some(day) ==> n < most || (s.w.booted && Marked(s.w.t, k, day)))
    && (!HasTick(beats) ==> s.w == Start() && s.d.stops == [])
  }

  ghost predicate SeesOnce(step: Step) { step.Rotation? ==> ShowsOnce(step.env.g1) }

  /** Snapshots may show a holding twice, or none does. */
  ghost predicate Sees(steps: seq<Step>, repeats: bool) {
    repeats || forall i :: 0 <= i < |steps| ==> SeesOnce(steps[i])
  }

  lemma SeesPrefix(steps: seq<Step>, repeats: bool, n: nat)
    requires n < |steps| && Sees(steps, repeats)
    ensures Sees(steps[..n], repeats) && (repeats || SeesOnce(steps[n]))
  {
    if !repeats {
      forall i | 0 <= i < n ensures SeesOnce(steps[..n][i]) {
        assert SeesOnce(steps[i]);
      }
    }
  }

  lemma TurnSpends(x: WD, y: WD, env: Env, k: K, day: int)
    requires EodTurn(x, y, env, k, day)
    ensures var events := S.EodCount(y.d.stops, k, day) - S.EodCount(x.d.stops, k, day);
            && Spent(x.w.booted && Marked(x.w.t, k, day), events, y.w.booted && Marked(y.w.t, k, day), env.now, day)
            && (x.d.stops == [] && !x.w.booted && ShowsOnce(env.g1) ==> events <= 0)
  {
  }

  lemma TickStaysWithin(s: Run, s': Run, beats: seq<Beat>, now: Time, dies: bool, events: int, marked: bool, k: K,
                        day: int, repeats: bool)
    requires Within(s, beats, k, day, repeats) && GoodMemory(s'.w.p)
    requires events == S.EodCount(s'.d.stops, k, day) - S.EodCount(s.d.stops, k, day)
    requires Spent(s.w.booted && Marked(s.w.t, k, day), events, marked, now, day)
    requires !HasTick(beats) && !repeats ==> events <= 0
    requires !dies && marked ==> s'.w.booted && Marked(s'.w.t, k, day)
    ensures Within(s', beats + [Tick(now, dies)], k, day, repeats)
  {
    ChancesSnoc(beats, Tick(now, dies), day, repeats);
  }

  lemma NextStaysWithin(s: Run, rotate: (WD, Env) -> WD, step: Step, beats: seq<Beat>, k: K, day: int, repeats: bool)
    requires s.log != [] && KeepsEods(rotate, k, day) && Within(s, beats, k, day, repeats)
    requires repeats || SeesOnce(step)
    ensures Within(Next(s, rotate, step), beats + BeatOf(step), k, day, repeats)
  {
    var s' := Next(s, rotate, step);
    match step
    case Append(_) => assert beats + [] == beats;
    case RotateLog(_) => assert beats + [] == beats;
    case Crash => ChancesSnoc(beats, Death, day, repeats);
    case Rotation(env, faults, dies) =>
      var x := WD(s.w, s.d.(faults := faults, dying := dies));
      var y := rotate(x, env);
      TurnSpends(x, y, env, k, day);
      var events := S.EodCount(y.d.stops, k, day) - S.EodCount(x.d.stops, k, day);
      TickStaysWithin(s, s', beats, env.now, dies, events, y.w.booted && Marked(y.w.t, k, day), k, day, repeats);
  }

  lemma {:induction false} RunStaysWithin(s: Run, rotate: (WD, Env) -> WD, steps: seq<Step>, k: K, day: int,
                                          repeats: bool)
    requires s.log != [] && KeepsEods(rotate, k, day) && Within(s, [], k, day, repeats)
    requires Sees(steps, repeats)
    ensures Within(RunAll(s, rotate, steps), BeatsOf(steps), k, day, repeats)
  {
    if steps != [] {
      var n := |steps| - 1;
      SeesPrefix(steps, repeats, n);
      RunStaysWithin(s, rotate, steps[..n], k, day, repeats);
      NextStaysWithin(RunAll(s, rotate, steps[..n]), rotate, steps[n], BeatsOf(steps[..n]), k, day, repeats);
    }
  }

  /** In every run, with any log, snapshots, failures and deaths, the table gets at most as many
      end-of-day rows of a holding and day as the schedule has chances. */
  lemma EodsWithinChances(log: T.Log, g: Grammar, steps: seq<Step>, k: K, day: int, repeats: bool)
    requires log != [] && Sees(steps, repeats)
    ensures S.EodCount(RunAll(Begin(log), WorkerRotation(g), steps).d.stops, k, day)
            <= Chances(BeatsOf(steps), day, repeats)
  {
    WorkerKeepsEods(g, k, day);
    RunStaysWithin(Begin(log), WorkerRotation(g), steps, k, day, repeats);
  }

  // ---- a run that takes every chance ------------------------------------------------------------------

  /** A snapshot that shows the holding, once or twice. */
  function Holding(k: K, repeats: bool): G1 {
    var item := BareItem(k.0, k.1);
    if repeats then [item, item] else [item]
  }

  /** An undisturbed rotation over an empty log that sees the holding; its statements are sent even if the
      process dies after them. */
  function Look(now: Time, k: K, repeats: bool, dies: bool): Step {
    Rotation(Seeing(now, Holding(k, repeats), OLD_FILE), Fines(3), dies)
  }

  function Fines(n: nat): seq<Fault> { seq(n, _ => Fine) }

  function LookAt(beat: Beat, k: K, repeats: bool): Step {
    match beat
    case Tick(now, dies) => Look(now, k, repeats, dies)
    case Death => Crash
  }

  function Looks(beats: seq<Beat>, k: K, repeats: bool): seq<Step> {
    if beats == [] then [] else Looks(beats[..|beats| - 1], k, repeats) + [LookAt(beats[|beats| - 1], k, repeats)]
  }

  /** What the tracker makes of seeing the holding. */
  ghost predicate Saw(t: S.Tracker, t': S.Tracker, evs: seq<StopEvent>, known: bool, k: K, day: int, at: Time) {
    && t'.phase == t.phase && k in t'.known
    && S.Get(t'.eodDone, k) == (if known && Late(at) then Some(Date(at)) else S.Get(t.eodDone, k))
    && S.EodCount(evs, k, day) == (if known && Late(at) && Date(at) == day && !Marked(t, k, day) then 1 else 0)
    && (forall i :: 0 <= i < |evs| ==> (evs[i].strategy, evs[i].ticker) == k)
    && (k in t.known || evs != [])
  }

  function Plain(at: Time): S.Context { S.Context(at, map[], false, {}) }

  lemma ItemSeen(t: S.Tracker, k: K, day: int, at: Time)
    ensures var (t', evs) := S.ObserveItem(t, BareItem(k.0, k.1), Plain(at));
            Saw(t, t', evs, k in t.known, k, day, at) && |evs| <= 1
  {
    var evs := S.ObserveItem(t, BareItem(k.0, k.1), Plain(at)).1;
    if evs != [] { EodOne(evs[0], k, day); }
  }

  lemma OneSeen(t: S.Tracker, item: Item, c: S.Context)
    ensures S.ObserveItems(t, [item], c) == S.ObserveItem(t, item, c)
  {
    var evs := S.ObserveItem(t, item, c).1;
    assert [item][..0] == [] && [] + evs == evs;
  }

  lemma PairSeen(t: S.Tracker, item: Item, c: S.Context)
    ensures var (t1, evs) := S.ObserveItem(t, item, c);
            var (t2, more) := S.ObserveItem(t1, item, c);
            S.ObserveItems(t, [item, item], c) == (t2, evs + more)
  {
    OneSeen(t, item, c);
    assert [item, item][..1] == [item];
  }

  lemma SeenTwice(t: S.Tracker, t1: S.Tracker, t2: S.Tracker, evs: seq<StopEvent>, more: seq<StopEvent>, k: K,
                  day: int, at: Time)
    requires Saw(t, t1, evs, k in t.known, k, day, at) && Saw(t1, t2, more, true, k, day, at)
    ensures Saw(t, t2, evs + more, true, k, day, at)
  {
    EodConcat(evs, more, k, day);
  }

  lemma HoldingSeen(t: S.Tracker, k: K, day: int, at: Time, repeats: bool)
    ensures var (t', evs) := S.ObserveItems(t, Holding(k, repeats), Plain(at));
            Saw(t, t', evs, k in t.known || repeats, k, day, at) && |evs| <= 2
  {
    ItemSeen(t, k, day, at);
    if repeats { HoldingSeenTwice(t, k, day, at); } else { OneSeen(t, BareItem(k.0, k.1), Plain(at)); }
  }

  lemma HoldingSeenTwice(t: S.Tracker, k: K, day: int, at: Time)
    ensures var (t', evs) := S.ObserveItems(t, Holding(k, true), Plain(at));
            Saw(t, t', evs, true, k, day, at) && |evs| <= 2
  {
    var item := BareItem(k.0, k.1);
    var one := S.ObserveItem(t, item, Plain(at));
    var two := S.ObserveItem(one.0, item, Plain(at));
    ItemSeen(t, k, day, at);
    ItemSeen(one.0, k, day, at);
    SeenTwice(t, one.0, two.0, one.1, two.1, k, day, at);
    PairSeen(t, item, Plain(at));
  }

  lemma {:induction false} AddStopsSent(d: Db, evs: seq<StopEvent>, n: nat)
    requires d.faults == Fines(|evs| + n)
    ensures AddStops(d, evs) == d.(stops := d.stops + evs, faults := Fines(n))
  {
    if evs == [] {
      assert d.stops + [] == d.stops;
    } else {
      AddStopsSent(d, evs[..|evs| - 1], n + 1);
      assert Fines(n + 1)[1..] == Fines(n);
      assert d.stops + evs == d.stops + evs[..|evs| - 1] + [evs[|evs| - 1]];
    }
  }

  lemma {:induction false} LastStopsKnow(stops: seq<StopEvent>, evs: seq<StopEvent>, k: K)
    requires forall i :: 0 <= i < |evs| ==> (evs[i].strategy, evs[i].ticker) == k
    ensures k in LastStops(stops + evs) <==> k in LastStops(stops) || evs != []
  {
    if evs == [] {
      assert stops + [] == stops;
    } else {
      LastStopsKnow(stops, evs[..|evs| - 1], k);
      assert (stops + evs)[..|stops + evs| - 1] == stops + evs[..|evs| - 1];
    }
  }

  /** A worker with nothing held, at the start of the log's only file or before it. */
  predicate Resting(w: WState) {
    && w.booted && w.p.ready == [] && w.p.incoming == [] && w.prevTs == None && w.cursor == w.prevEnd
    && (w.cursor == None || w.cursor == Some(T.Cursor(1, 0)))
  }

  /** An undisturbed look with nothing held is the tracker's observation and a save. */
  lemma LookGathers(x: WD, g: Grammar, env: Env)
    requires x.w.p.ready == [] && x.w.p.incoming == []
    ensures Gathered(x, g, env, []) == Track(x, Observation(env))
  {
    assert Collect(x, g, []) == x;
    assert P.RowsOf(x.w.p, [], StrategiesSeen(env.trades)) == [];
    assert P.Drained(x.w.p, false) == x.w.p;
    assert Release(x, StrategiesSeen(env.trades)) == x;
  }

  lemma LookFinishes(x: WD, g: Grammar, env: Env)
    requires Resting(x.w) && var evs := S.Observe(x.w.t, Observation(env)).1; |evs| <= 2 && x.d.faults == Fines(3)
    ensures var ((t, evs), y) := (S.Observe(x.w.t, Observation(env)), Finish(x, g, env, [], T.Cursor(1, 0)).0);
            && Resting(y.w) && y.w.t == t && y.d.stops == x.d.stops + evs && y.d.cursor == Some(T.Cursor(1, 0))
            && y.d.orders == x.d.orders && y.w.p == x.w.p
  {
    var evs := S.Observe(x.w.t, Observation(env)).1;
    LookGathers(x, g, env);
    AddStopsSent(x.d, evs, 3 - |evs|);
    assert Fines(3 - |evs|)[0] == Fine;
  }

  lemma LookReads(x: WD, g: Grammar, env: Env)
    requires Resting(x.w) && env.dir == T.Dir(Some(OLD_FILE), [])
    ensures ReadOn(x, g, env) == Finish(x, g, env, [], T.Cursor(1, 0))
  {
    WindowAtEnd(OLD_FILE);
    assert T.ReadChunk(env.dir, x.w.cursor, T.MAX_READ_BYTES) == T.Chunk([], T.Cursor(1, 0));
  }

  /** Before a beat: as many rows as chances, the mark of the last late rotation, and a holding that is
      known to the worker, or to the table, once a rotation has seen it. */
  ghost predicate Taken(s: Run, beats: seq<Beat>, k: K, day: int, repeats: bool) {
    && s.log == [OLD_FILE] && S.EodCount(s.d.stops, k, day) == Chances(beats, day, repeats)
    && (HasTick(beats) <==> k in LastStops(s.d.stops))
    && (s.d.cursor == None || s.d.cursor == Some(T.Cursor(1, 0)))
    && (if s.w.booted
        then Resting(s.w) && s.w.t.phase == S.Steady && HasTick(beats) && k in s.w.t.known
             && S.Get(s.w.t.eodDone, k) == LastLate(beats, repeats)
        else s.w == Start() && LastLate(beats, repeats) == None)
  }

  /** The worker that looks, and the tracker it has. */
  lemma LookReady(s: Run, d: Db, beats: seq<Beat>, k: K, day: int, repeats: bool, env: Env)
    requires Taken(s, beats, k, day, repeats) && d.cursor == s.d.cursor && d.stops == s.d.stops
    ensures var w := Shown(Ready(WD(s.w, d), env), env);
            && Resting(w) && w.t.phase == S.Steady && (k in w.t.known <==> HasTick(beats))
            && S.Get(w.t.eodDone, k) == LastLate(beats, repeats)
  {
  }

  /** What a look leaves, from the worker `w` that looked. */
  ghost predicate Turned(w: WState, d: Db, y: WD, now: Time, k: K, day: int, repeats: bool) {
    && Resting(y.w) && y.w.t.phase == S.Steady && k in y.w.t.known && y.d.cursor == Some(T.Cursor(1, 0))
    && var known := k in w.t.known || repeats;
       && S.Get(y.w.t.eodDone, k) == (if known && Late(now) then Some(Date(now)) else S.Get(w.t.eodDone, k))
       && S.EodCount(y.d.stops, k, day)
          == S.EodCount(d.stops, k, day)
             + (if known && Late(now) && Date(now) == day && !Marked(w.t, k, day) then 1 else 0)
       && (k in LastStops(d.stops) || k !in w.t.known ==> k in LastStops(y.d.stops))
  }

  lemma LookSees(t: S.Tracker, k: K, day: int, now: Time, repeats: bool)
    requires t.phase == S.Steady
    ensures var (t', evs) := S.Observe(t, Observation(Seeing(now, Holding(k, repeats), OLD_FILE)));
            Saw(t, t', evs, k in t.known || repeats, k, day, now) && |evs| <= 2
  {
    var o := Observation(Seeing(now, Holding(k, repeats), OLD_FILE));
    HoldingSeen(t, k, day, now, repeats);
    assert S.ContextOf(t, o) == Plain(now) && t.(phase := S.Steady) == t;
  }

  /** One look, from a worker ready to read. */
  lemma LookTurns(w: WState, d: Db, g: Grammar, now: Time, k: K, day: int, repeats: bool)
    requires Resting(w) && w.t.phase == S.Steady && d.faults == Fines(3)
    ensures Turned(w, d, ReadOn(WD(w, d), g, Seeing(now, Holding(k, repeats), OLD_FILE)).0, now, k, day, repeats)
  {
    var env := Seeing(now, Holding(k, repeats), OLD_FILE);
    LookSees(w.t, k, day, now, repeats);
    var evs := S.Observe(w.t, Observation(env)).1;
    LookReads(WD(w, d), g, env);
    LookFinishes(WD(w, d), g, env);
    EodConcat(d.stops, evs, k, day);
    LastStopsKnow(d.stops, evs, k);
  }

  lemma TurnTakes(s: Run, s': Run, w: WState, d: Db, y: WD, beats: seq<Beat>, now: Time, dies: bool, k: K, day: int,
                  repeats: bool)
    requires Taken(s, beats, k, day, repeats) && d.stops == s.d.stops && Turned(w, d, y, now, k, day, repeats)
    requires (k in w.t.known <==> HasTick(beats)) && S.Get(w.t.eodDone, k) == LastLate(beats, repeats)
    requires s'.log == s.log && s'.d == y.d && s'.w == if dies then Start() else y.w
    ensures Taken(s', beats + [Tick(now, dies)], k, day, repeats)
  {
    ChancesSnoc(beats, Tick(now, dies), day, repeats);
  }

  lemma TakesChance(s: Run, g: Grammar, beats: seq<Beat>, now: Time, dies: bool, k: K, day: int, repeats: bool)
    requires Taken(s, beats, k, day, repeats)
    ensures Taken(Next(s, WorkerRotation(g), Look(now, k, repeats, dies)), beats + [Tick(now, dies)], k, day, repeats)
  {
    var env, d := Seeing(now, Holding(k, repeats), OLD_FILE), s.d.(faults := Fines(3), dying := dies);
    var w := Shown(Ready(WD(s.w, d), env), env);
    LookReady(s, d, beats, k, day, repeats, env);
    LookTurns(w, d, g, now, k, day, repeats);
    NextReads(s, g, env, Fines(3), dies);
    TurnTakes(s, Next(s, WorkerRotation(g), Look(now, k, repeats, dies)), w, d, ReadOn(WD(w, d), g, env).0, beats, now,
              dies, k, day, repeats);
  }

  ghost predicate TakesChances(rotate: (WD, Env) -> WD, k: K, day: int, repeats: bool) {
    forall s: Run, beats: seq<Beat>, now: Time, dies: bool :: Taken(s, beats, k, day, repeats) ==>
      Taken(Next(s, rotate, Look(now, k, repeats, dies)), beats + [Tick(now, dies)], k, day, repeats)
  }

  lemma WorkerTakesChances(g: Grammar, k: K, day: int, repeats: bool)
    ensures TakesChances(WorkerRotation(g), k, day, repeats)
  {
    forall s: Run, beats: seq<Beat>, now: Time, dies: bool | Taken(s, beats, k, day, repeats)
      ensures Taken(Next(s, WorkerRotation(g), Look(now, k, repeats, dies)), beats + [Tick(now, dies)], k, day, repeats)
    {
      TakesChance(s, g, beats, now, dies, k, day, repeats);
    }
  }

  lemma BeatTakes(s: Run, rotate: (WD, Env) -> WD, beats: seq<Beat>, beat: Beat, k: K, day: int, repeats: bool)
    requires TakesChances(rotate, k, day, repeats) && Taken(s, beats, k, day, repeats)
    ensures Enabled(s, LookAt(beat, k, repeats))
    ensures Taken(Next(s, rotate, LookAt(beat, k, repeats)), beats + [beat], k, day, repeats)
  {
    if beat.Death? { ChancesSnoc(beats, beat, day, repeats); }
  }

  /** The steps so far take every chance of the beats so far. */
  ghost predicate TakesAll(rotate: (WD, Env) -> WD, beats: seq<Beat>, steps: seq<Step>, s: Run, k: K, day: int,
                           repeats: bool)
  {
    && AllEnabled(Begin([OLD_FILE]), rotate, steps) && RunAll(Begin([OLD_FILE]), rotate, steps) == s
    && BeatsOf(steps) == beats && Taken(s, beats, k, day, repeats)
  }

  lemma RunsOn(rotate: (WD, Env) -> WD, beats: seq<Beat>, beat: Beat, steps: seq<Step>, s: Run, step: Step)
    requires AllEnabled(Begin([OLD_FILE]), rotate, steps) && RunAll(Begin([OLD_FILE]), rotate, steps) == s
    requires BeatsOf(steps) == beats && s.log != [] && Enabled(s, step) && BeatOf(step) == [beat]
    ensures AllEnabled(Begin([OLD_FILE]), rotate, steps + [step]) && BeatsOf(steps + [step]) == beats + [beat]
    ensures RunAll(Begin([OLD_FILE]), rotate, steps + [step]) == Next(s, rotate, step)
  {
    RunSnoc(Begin([OLD_FILE]), rotate, steps, step, s);
    BeatsSnoc(steps, step);
  }

  lemma TakesOneMore(rotate: (WD, Env) -> WD, beats: seq<Beat>, beat: Beat, steps: seq<Step>, s: Run, k: K, day: int,
                     repeats: bool)
    requires TakesChances(rotate, k, day, repeats) && TakesAll(rotate, beats, steps, s, k, day, repeats)
    ensures var step := LookAt(beat, k, repeats);
            TakesAll(rotate, beats + [beat], steps + [step], Next(s, rotate, step), k, day, repeats)
  {
    BeatTakes(s, rotate, beats, beat, k, day, repeats);
    RunsOn(rotate, beats, beat, steps, s, LookAt(beat, k, repeats));
  }

  lemma LooksSnoc(beats: seq<Beat>, k: K, repeats: bool)
    requires beats != []
    ensures var n := |beats| - 1;
            && beats == beats[..n] + [beats[n]]
            && Looks(beats, k, repeats) == Looks(beats[..n], k, repeats) + [LookAt(beats[n], k, repeats)]
  {
  }

  /** One more look, with the beats and the steps given as a whole. */
  lemma TakesWhole(rotate: (WD, Env) -> WD, pre: seq<Beat>, beats: seq<Beat>, beat: Beat, before: seq<Step>,
                   steps: seq<Step>, s: Run, k: K, day: int, repeats: bool)
    returns (s': Run)
    requires TakesChances(rotate, k, day, repeats) && TakesAll(rotate, pre, before, s, k, day, repeats)
    requires beats == pre + [beat] && steps == before + [LookAt(beat, k, repeats)]
    ensures TakesAll(rotate, beats, steps, s', k, day, repeats)
  {
    TakesOneMore(rotate, pre, beat, before, s, k, day, repeats);
    s' := Next(s, rotate, LookAt(beat, k, repeats));
  }

  lemma {:induction false} LooksTakeAll(rotate: (WD, Env) -> WD, beats: seq<Beat>, k: K, day: int, repeats: bool)
    returns (s: Run)
    requires TakesChances(rotate, k, day, repeats)
    ensures TakesAll(rotate, beats, Looks(beats, k, repeats), s, k, day, repeats)
  {
    if beats == [] {
      s := Begin([OLD_FILE]);
    } else {
      var n := |beats| - 1;
      LooksSnoc(beats, k, repeats);
      s := LooksTakeAll(rotate, beats[..n], k, day, repeats);
      s := TakesWhole(rotate, beats[..n], beats, beats[n], Looks(beats[..n], k, repeats), Looks(beats, k, repeats), s,
                      k, day, repeats);
    }
  }

  lemma {:induction false} LooksSeeOnce(beats: seq<Beat>, k: K, i: nat)
    requires i < |Looks(beats, k, false)|
    ensures SeesOnce(Looks(beats, k, false)[i])
  {
    var n := |beats| - 1;
    if i < |Looks(beats[..n], k, false)| { LooksSeeOnce(beats[..n], k, i); }
  }

  /** For every schedule, the run over an empty log whose every rotation sees the holding and whose
      statements are all sent: the table gets as many end-of-day rows as the schedule has chances. */
  lemma ChancesAreTaken(g: Grammar, beats: seq<Beat>, k: K, day: int, repeats: bool)
    ensures var (s, steps) := (Begin([OLD_FILE]), Looks(beats, k, repeats));
            && AllEnabled(s, WorkerRotation(g), steps) && BeatsOf(steps) == beats && Sees(steps, repeats)
            && S.EodCount(RunAll(s, WorkerRotation(g), steps).d.stops, k, day) == Chances(beats, day, repeats)
  {
    WorkerTakesChances(g, k, day, repeats);
    var s := LooksTakeAll(WorkerRotation(g), beats, k, day, repeats);
    if !repeats {
      forall i | 0 <= i < |Looks(beats, k, false)| ensures SeesOnce(Looks(beats, k, false)[i]) {
        LooksSeeOnce(beats, k, i);
      }
    }
  }

  // ---- the exact number ---------------------------------------------------------------------------------

  /** An enabled run on the schedule. */
  ghost predicate OnSchedule(log: T.Log, rotate: (WD, Env) -> WD, steps: seq<Step>, beats: seq<Beat>, repeats: bool)
    requires log != []
  {
    AllEnabled(Begin(log), rotate, steps) && BeatsOf(steps) == beats && Sees(steps, repeats)
  }

  function EodRows(log: T.Log, rotate: (WD, Env) -> WD, steps: seq<Step>, k: K, day: int): nat
    requires log != []
  {
    S.EodCount(RunAll(Begin(log), rotate, steps).d.stops, k, day)
  }

  /** Whatever the log, its growth, the snapshots, the lines and the failures: a run on the schedule leaves
      at most so many end-of-day rows of the holding and day. */
  ghost predicate AlwaysAtMost(rotate: (WD, Env) -> WD, beats: seq<Beat>, k: K, day: int, repeats: bool, most: nat) {
    forall log: T.Log, steps: seq<Step> :: T.GoodLog(log) && OnSchedule(log, rotate, steps, beats, repeats)
      ==> EodRows(log, rotate, steps, k, day) <= most
  }

  lemma NotAlwaysAtMost(rotate: (WD, Env) -> WD, beats: seq<Beat>, k: K, day: int, repeats: bool, most: nat,
                        steps: seq<Step>)
    requires OnSchedule([OLD_FILE], rotate, steps, beats, repeats)
    requires EodRows([OLD_FILE], rotate, steps, k, day) > most
    ensures !AlwaysAtMost(rotate, beats, k, day, repeats, most)
  {
  }

  lemma ScheduledWithin(log: T.Log, rotate: (WD, Env) -> WD, steps: seq<Step>, beats: seq<Beat>, k: K, day: int,
                        repeats: bool)
    requires log != [] && KeepsEods(rotate, k, day) && OnSchedule(log, rotate, steps, beats, repeats)
    ensures EodRows(log, rotate, steps, k, day) <= Chances(beats, day, repeats)
  {
    RunStaysWithin(Begin(log), rotate, steps, k, day, repeats);
  }

  lemma AlwaysWithin(rotate: (WD, Env) -> WD, beats: seq<Beat>, k: K, day: int, repeats: bool, most: nat)
    requires KeepsEods(rotate, k, day) && Chances(beats, day, repeats) <= most
    ensures AlwaysAtMost(rotate, beats, k, day, repeats, most)
  {
    forall log: T.Log, steps: seq<Step> | T.GoodLog(log) && OnSchedule(log, rotate, steps, beats, repeats)
      ensures EodRows(log, rotate, steps, k, day) <= most
    {
      ScheduledWithin(log, rotate, steps, beats, k, day, repeats);
    }
  }

  /** For every schedule of clock times and deaths, the most rows any choice of everything else can leave
      is its number of chances. */
  lemma EodRowsExactly(g: Grammar, beats: seq<Beat>, k: K, day: int, repeats: bool, most: nat)
    ensures AlwaysAtMost(WorkerRotation(g), beats, k, day, repeats, most) <==> Chances(beats, day, repeats) <= most
  {
    if Chances(beats, day, repeats) <= most {
      WorkerKeepsEods(g, k, day);
      AlwaysWithin(WorkerRotation(g), beats, k, day, repeats, most);
    } else {
      ChancesAreTaken(g, beats, k, day, repeats);
      NotAlwaysAtMost(WorkerRotation(g), beats, k, day, repeats, most, Looks(beats, k, repeats));
    }
  }

  // ---- clocks that go forward -----------------------------------------------------------------------------

  function LastTick(beats: seq<Beat>): Option<Time> {
    if beats == [] then None
    else if beats[|beats| - 1].Tick? then Some(beats[|beats| - 1].now)
    else LastTick(beats[..|beats| - 1])
  }

  predicate Forward(beats: seq<Beat>) {
    beats == []
    || (var before, beat := beats[..|beats| - 1], beats[|beats| - 1];
        Forward(before) && (beat.Tick? && LastTick(before).Some? ==> LastTick(before).value <= beat.now))
  }

  /** The present life has had a rotation that can give the day's event. */
  predicate HasLate(beats: seq<Beat>, day: int, repeats: bool) {
    beats != []
    && match beats[|beats| - 1]
       case Death => false
       case Tick(now, dies) =>
         !dies && ((Counts(beats[..|beats| - 1], now, repeats) && Date(now) == day)
                   || HasLate(beats[..|beats| - 1], day, repeats))
  }

  /** The lives with a rotation that can give the day's event. */
  function LateLives(beats: seq<Beat>, day: int, repeats: bool): nat {
    if beats == [] then 0
    else
      var before, beat := beats[..|beats| - 1], beats[|beats| - 1];
      LateLives(before, day, repeats)
      + (if beat.Tick? && Counts(before, beat.now, repeats) && Date(beat.now) == day && !HasLate(before, day, repeats)
         then 1 else 0)
  }

  /** When the clock never goes back, the chances are the lives with a late rotation on the day. */
  lemma {:induction false} ForwardChances(beats: seq<Beat>, day: int, repeats: bool)
    requires Forward(beats)
    ensures Chances(beats, day, repeats) == LateLives(beats, day, repeats)
    ensures LastLate(beats, repeats).Some? ==>
              LastTick(beats).Some? && LastLate(beats, repeats).value <= Date(LastTick(beats).value)
    ensures HasLate(beats, day, repeats) ==> LastLate(beats, repeats).Some? && LastLate(beats, repeats).value >= day
    ensures LastLate(beats, repeats) == Some(day) ==> HasLate(beats, day, repeats)
  {
    if beats != [] {
      var before, beat := beats[..|beats| - 1], beats[|beats| - 1];
      ForwardChances(before, day, repeats);
      if beat.Tick? && LastTick(before).Some? { S.DatesForward(LastTick(before).value, beat.now); }
    }
  }

  /** While the clock never goes back and no snapshot shows a holding twice: every run on the schedule
      leaves at most one row of the day exactly when at most one life has a rotation at or after 15:30 of
      that day, the very first rotation not counted. */
  lemma OneEodIffOneLateLife(g: Grammar, beats: seq<Beat>, k: K, day: int)
    requires Forward(beats)
    ensures AlwaysAtMost(WorkerRotation(g), beats, k, day, false, 1) <==> LateLives(beats, day, false) <= 1
  {
    ForwardChances(beats, day, false);
    EodRowsExactly(g, beats, k, day, false, 1);
  }

  /** A first look, the end-of-day row, a death, and the row again. */
  function RestartedLate(day: int): seq<Beat> {
    var tick := Tick(day * DAY + S.EOD_TIME, false);
    [] + [tick] + [tick] + [Death] + [tick]
  }

  lemma RestartedTwice(day: int)
    ensures Chances(RestartedLate(day), day, false) == 2
  {
    var tick := Tick(day * DAY + S.EOD_TIME, false);
    ChancesSnoc([], tick, day, false);
    ChancesSnoc([] + [tick], tick, day, false);
    ChancesSnoc([] + [tick] + [tick], Death, day, false);
    ChancesSnoc([] + [tick] + [tick] + [Death], tick, day, false);
  }

  lemma RestartRepeatsEod(g: Grammar, k: K, day: int)
    ensures var (s, steps) := (Begin([OLD_FILE]), Looks(RestartedLate(day), k, false));
            && AllEnabled(s, WorkerRotation(g), steps)
            && S.EodCount(RunAll(s, WorkerRotation(g), steps).d.stops, k, day) == 2
  {
    RestartedTwice(day);
    ChancesAreTaken(g, RestartedLate(day), k, day, false);
  }
}
