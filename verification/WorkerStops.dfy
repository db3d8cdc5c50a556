/** The stop table over whole runs: when a holding's latest row is what the tracker last recorded, and so
    stands for the row shown. */
module WorkerStops {
  import opened Basics
  import opened Journal
  import opened JournalDb
  import opened Worker
  import opened WorkerOnce
  import opened WorkerRuns
  import E = WorkerEod
  import M = WorkerMeasured
  import P = Pairing
  import R = Reconcile
  import S = Stops
  import T = Tailer

  type K = (string, string)

  function HoldingOf(ev: StopEvent): K { (ev.strategy, ev.ticker) }

  // ---- the latest row of a holding -------------------------------------------------------------------

  /** One more row is its holding's latest, unless a later time is there already. */
  lemma LatestAfter(stops: seq<StopEvent>, ev: StopEvent, k: K)
    ensures var (rows, rows') := (LastStops(stops), LastStops(stops + [ev]));
            && (HoldingOf(ev) != k || (k in rows && rows[k].observedAt > ev.observedAt) ==>
                  S.Get(rows', k) == S.Get(rows, k))
            && (HoldingOf(ev) == k && !(k in rows && rows[k].observedAt > ev.observedAt) ==>
                  k in rows' && rows'[k] == ev)
  {
    assert (stops + [ev])[..|stops|] == stops;
  }

  /** The tracker's record of the holding is the latest row of the table, arm price included. */
  ghost predicate Agrees(t: S.Tracker, stops: seq<StopEvent>, k: K) {
    var rows := LastStops(stops);
    && (k in t.last <==> k in rows)
    && (if k in rows then t.last[k] == rows[k].row && S.Get(t.arm, k) == rows[k].row.armPrice else k !in t.arm)
  }

  predicate ExitIsLatest(stops: seq<StopEvent>, k: K) {
    var rows := LastStops(stops);
    k in rows && rows[k].kind == ExitStop
  }

  /** No insertion of a tracker's row of the holding was swallowed. */
  ghost predicate NoneMissed(d: Db, k: K) {
    forall i :: 0 <= i < |d.missed| && HoldingOf(d.missed[i]) == k ==> d.missed[i].kind == ExitStop
  }

  /** The tracker's rows of the holding are not later than `now`. */
  ghost predicate OwnBefore(stops: seq<StopEvent>, k: K, now: Time) {
    forall i :: 0 <= i < |stops| && HoldingOf(stops[i]) == k && stops[i].kind != ExitStop ==> stops[i].observedAt <= now
  }

  ghost predicate Stands(t: S.Tracker, d: Db, k: K) {
    Alive(d) && NoneMissed(d, k) && !ExitIsLatest(d.stops, k) ==> Agrees(t, d.stops, k)
  }

  lemma RebuiltAgrees(stops: seq<StopEvent>, k: K)
    ensures Agrees(S.FromRows(LastStops(stops)), stops, k)
  {
  }

  lemma {:induction false} LatestIsThere(stops: seq<StopEvent>, k: K)
    requires k in LastStops(stops)
    ensures exists i :: 0 <= i < |stops| && stops[i] == LastStops(stops)[k] && HoldingOf(stops[i]) == k
  {
    var n := |stops| - 1;
    var before := LastStops(stops[..n]);
    if HoldingOf(stops[n]) != k || (k in before && before[k].observedAt > stops[n].observedAt) {
      LatestIsThere(stops[..n], k);
      var i :| 0 <= i < n && stops[..n][i] == before[k] && HoldingOf(stops[..n][i]) == k;
      assert stops[i] == LastStops(stops)[k];
    }
  }

  /** With the tracker's rows in time, only an exit row can be later than now. */
  lemma LaterIsExit(stops: seq<StopEvent>, k: K, now: Time)
    requires OwnBefore(stops, k, now) && k in LastStops(stops) && LastStops(stops)[k].observedAt > now
    ensures ExitIsLatest(stops, k)
  {
    LatestIsThere(stops, k);
  }

  // ---- one statement -----------------------------------------------------------------------------------

  ghost predicate SentOnly(d: Db) { NeverSent !in d.faults }

  lemma MissedSnoc(d: Db, ev: StopEvent, k: K)
    ensures NoneMissed(d.(missed := d.missed + [ev]), k)
            <==> NoneMissed(d, k) && (HoldingOf(ev) == k ==> ev.kind == ExitStop)
  {
    var all := d.missed + [ev];
    assert all[|d.missed|] == ev;
    forall i | 0 <= i < |d.missed| ensures all[i] == d.missed[i] {
    }
  }

  /** What an insertion leaves. */
  lemma InsertedStop(d: Db, ev: StopEvent, k: K)
    requires SentOnly(d)
    ensures var d' := AddStop(d, ev);
            && SentOnly(d') && (Alive(d') ==> Alive(d)) && (NoneMissed(d', k) ==> NoneMissed(d, k))
            && (|| !Alive(d')
                || d'.stops == d.stops + [ev]
                || (d'.stops == d.stops && (NoneMissed(d', k) && HoldingOf(ev) == k ==> ev.kind == ExitStop)))
  {
    MissedSnoc(d, ev, k);
  }

  /** A row that is not the tracker's, or not of the holding, moves the table only to an exit row. */
  lemma OtherStopStands(t: S.Tracker, d: Db, ev: StopEvent, k: K, now: Time)
    requires SentOnly(d) && Stands(t, d, k) && OwnBefore(d.stops, k, now)
    requires HoldingOf(ev) != k || ev.kind == ExitStop
    ensures var d' := AddStop(d, ev); SentOnly(d') && Stands(t, d', k) && OwnBefore(d'.stops, k, now)
  {
    InsertedStop(d, ev, k);
    LatestAfter(d.stops, ev, k);
    AddKeepsOwn(d, ev, k, now);
  }

  lemma AddKeepsOwn(d: Db, ev: StopEvent, k: K, now: Time)
    requires OwnBefore(d.stops, k, now) && (HoldingOf(ev) == k && ev.kind != ExitStop ==> ev.observedAt <= now)
    ensures OwnBefore(AddStop(d, ev).stops, k, now)
  {
    var all := d.stops + [ev];
    forall i | 0 <= i < |all| && HoldingOf(all[i]) == k && all[i].kind != ExitStop ensures all[i].observedAt <= now {
      if i < |d.stops| { assert all[i] == d.stops[i]; }
    }
  }

  ghost predicate AllExits(evs: seq<StopEvent>) { forall i :: 0 <= i < |evs| ==> evs[i].kind == ExitStop }

  lemma AllExitsSnoc(evs: seq<StopEvent>, ev: StopEvent)
    requires AllExits(evs) && ev.kind == ExitStop
    ensures AllExits(evs + [ev])
  {
  }

  lemma {:induction false} OtherStopsStand(t: S.Tracker, d: Db, evs: seq<StopEvent>, k: K, now: Time)
    requires SentOnly(d) && Stands(t, d, k) && OwnBefore(d.stops, k, now)
    requires AllExits(evs)
    ensures var d' := AddStops(d, evs); SentOnly(d') && Stands(t, d', k) && OwnBefore(d'.stops, k, now)
  {
    if evs != [] {
      var n := |evs| - 1;
      OtherStopsStand(t, d, evs[..n], k, now);
      OtherStopStands(t, AddStops(d, evs[..n]), evs[n], k, now);
    }
  }

  /** The tracker's own row of the holding becomes its latest, or an exit row stays later, or it is missed. */
  lemma OwnStopStands(t: S.Tracker, d: Db, ev: StopEvent, k: K)
    requires SentOnly(d) && OwnBefore(d.stops, k, ev.observedAt) && HoldingOf(ev) == k && ev.kind != ExitStop
    requires k in t.last && t.last[k] == ev.row && S.Get(t.arm, k) == ev.row.armPrice
    ensures var d' := AddStop(d, ev); SentOnly(d') && Stands(t, d', k) && OwnBefore(d'.stops, k, ev.observedAt)
  {
    InsertedStop(d, ev, k);
    AddKeepsOwn(d, ev, k, ev.observedAt);
    LatestAfter(d.stops, ev, k);
    if k in LastStops(d.stops) && LastStops(d.stops)[k].observedAt > ev.observedAt {
      LaterIsExit(d.stops, k, ev.observedAt);
    }
  }

  // ---- one observation -----------------------------------------------------------------------------------

  /** What does not touch the holding, or leaves its record and arm price alone, keeps the agreement. */
  lemma SameRecordStands(t: S.Tracker, t': S.Tracker, d: Db, k: K)
    requires Stands(t, d, k) && S.Get(t'.last, k) == S.Get(t.last, k)
    requires S.Get(t'.arm, k) == S.Get(t.arm, k)
             || (k in t'.last && S.Get(t'.arm, k) == t'.last[k].armPrice)
    ensures Stands(t', d, k)
  {
  }

  lemma ItemStands(t: S.Tracker, d: Db, item: Item, c: S.Context, k: K)
    requires SentOnly(d) && Stands(t, d, k) && OwnBefore(d.stops, k, c.at)
    ensures var (t', evs) := S.ObserveItem(t, item, c);
            var d' := AddStops(d, evs);
            SentOnly(d') && Stands(t', d', k) && OwnBefore(d'.stops, k, c.at)
  {
    S.ItemIsTracked(t, item, c);
    var (t', evs) := S.ObserveItem(t, item, c);
    if evs == [] {
      SameRecordStands(t, t', d, k);
    } else {
      OneStop(d, evs[0]);
      if item.Key() == k {
        OwnStopStands(t', d, evs[0], k);
      } else {
        SameRecordStands(t, t', d, k);
        OtherStopStands(t', d, evs[0], k, c.at);
      }
    }
  }

  lemma OneStop(d: Db, ev: StopEvent)
    ensures AddStops(d, [ev]) == AddStop(d, ev)
  {
    assert [ev][..0] == [];
  }

  lemma {:induction false} AddStopsConcat(d: Db, a: seq<StopEvent>, b: seq<StopEvent>)
    ensures AddStops(d, a + b) == AddStops(AddStops(d, a), b)
  {
    if b == [] {
      assert a + b == a;
    } else {
      assert (a + b)[..|a + b| - 1] == a + b[..|b| - 1];
      AddStopsConcat(d, a, b[..|b| - 1]);
    }
  }

  lemma {:induction false} ItemsStand(t: S.Tracker, d: Db, items: G1, c: S.Context, k: K)
    requires SentOnly(d) && Stands(t, d, k) && OwnBefore(d.stops, k, c.at)
    ensures var (t', evs) := S.ObserveItems(t, items, c);
            var d' := AddStops(d, evs);
            SentOnly(d') && Stands(t', d', k) && OwnBefore(d'.stops, k, c.at)
  {
    if items != [] {
      var n := |items| - 1;
      ItemsStand(t, d, items[..n], c, k);
      var (t1, evs) := S.ObserveItems(t, items[..n], c);
      ItemStands(t1, AddStops(d, evs), items[n], c, k);
      AddStopsConcat(d, evs, S.ObserveItem(t1, items[n], c).1);
    }
  }

  /** What the tracker and the table are after a phase of a rotation at `now`. */
  ghost predicate Standing(x: WD, k: K, now: Time) {
    SentOnly(x.d) && Stands(x.w.t, x.d, k) && OwnBefore(x.d.stops, k, now)
  }

  lemma TrackStands(x: WD, o: S.Obs, k: K)
    requires Standing(x, k, o.at)
    ensures Standing(Track(x, o), k, o.at)
  {
    if S.Processed(x.w.t, o) {
      var t := x.w.t.(phase := S.Steady);
      SameRecordStands(x.w.t, t, x.d, k);
      ItemsStand(t, x.d, o.g1.value, S.ContextOf(x.w.t, o), k);
    } else {
      SameRecordStands(x.w.t, S.Observe(x.w.t, o).0, x.d, k);
    }
  }

  // ---- one rotation --------------------------------------------------------------------------------------

  /** Statements that do not concern the stop table. */
  ghost predicate SameTable(d: Db, d': Db) {
    && d'.stops == d.stops && d'.missed == d.missed && (Alive(d') ==> Alive(d))
    && (SentOnly(d) ==> SentOnly(d'))
  }

  lemma {:induction false} FillAllSameTable(d: Db, evs: seq<Event>)
    ensures SameTable(d, FillAll(d, evs))
  {
    if evs != [] { FillAllSameTable(d, evs[..|evs| - 1]); }
  }

  lemma {:induction false} WriteAllSameTable(x: Written, rows: seq<Row>)
    ensures SameTable(x.d, WriteAll(x, rows).d) && WriteAll(x, rows).w.t == x.w.t
  {
    if rows != [] {
      WriteAllSameTable(x, rows[..|rows| - 1]);
      WriteRowSameTable(WriteAll(x, rows[..|rows| - 1]).d, rows[|rows| - 1]);
    }
  }

  lemma WriteRowSameTable(d: Db, row: Row)
    ensures SameTable(d, WriteRow(d, row).0)
  {
  }

  lemma {:induction false} ExitsOnly(anchors: seq<P.Anchor>, sells: set<string>)
    requires GoodAnchors(anchors)
    ensures AllExits(OfFresh(P.StopsOf(anchors), sells))
  {
    if anchors != [] {
      var n := |anchors| - 1;
      var stops := P.StopsOf(anchors[..n]);
      ExitsOnly(anchors[..n], sells);
      assert GoodAnchor(anchors[n]);
      if StopOf(anchors[n]) == [] {
        assert P.StopsOf(anchors) == stops + [] == stops;
      } else {
        var ev := anchors[n].stop.value;
        OfFreshSnoc(stops, ev, sells);
        AllExitsSnoc(OfFresh(stops, sells), ev);
        assert OfFresh(stops, sells) + [] == OfFresh(stops, sells);
      }
    }
  }

  lemma SameTableStands(x: WD, y: WD, k: K, now: Time)
    requires Standing(x, k, now) && SameTable(x.d, y.d) && y.w.t == x.w.t
    ensures Standing(y, k, now)
  {
  }

  lemma CollectStands(x: WD, g: Grammar, lines: seq<T.Bytes>, k: K, now: Time)
    requires Standing(x, k, now)
    ensures Standing(Collect(x, g, lines), k, now)
  {
    E.CountSameTracker(x.w, Parsed(g, lines));
    FillAllSameTable(x.d, Parsed(g, lines));
    SameTableStands(x, Collect(x, g, lines), k, now);
  }

  lemma ReleaseStands(x: WD, trades: map<string, string>, k: K, now: Time)
    requires Standing(x, k, now) && GoodAnchors(x.w.p.ready)
    ensures Standing(Release(x, trades), k, now)
  {
    var leaving := P.Leaving(x.w.p, false);
    var rows := P.RowsOf(x.w.p, leaving, trades);
    var start := Written(x.w.(p := P.Drained(x.w.p, false)), x.d, {});
    var out := WriteAll(start, rows);
    WriteAllSameTable(start, rows);
    SameTableStands(x, WD(out.w, out.d), k, now);
    ExitsOnly(leaving, out.sells);
    ExitsStand(WD(out.w, out.d), OfFresh(P.StopsOf(leaving), out.sells), k, now);
  }

  lemma ExitsStand(x: WD, evs: seq<StopEvent>, k: K, now: Time)
    requires Standing(x, k, now) && AllExits(evs)
    ensures Standing(WD(x.w, AddStops(x.d, evs)), k, now)
  {
    OtherStopsStand(x.w.t, x.d, evs, k, now);
  }

  lemma FinishStands(x: WD, g: Grammar, env: Env, lines: seq<T.Bytes>, end: T.Cursor, k: K)
    requires Standing(x, k, env.now) && GoodMemory(x.w.p)
    ensures Standing(Finish(x, g, env, lines, end).0, k, env.now)
  {
    var y := Collect(x, g, lines);
    CollectStands(x, g, lines, k, env.now);
    FeedAllBrings(x.w.p, Parsed(g, lines));
    var z := Release(y, StrategiesSeen(env.trades));
    ReleaseStands(y, StrategiesSeen(env.trades), k, env.now);
    TrackStands(z, Observation(env), k);
    EndStands(Track(z, Observation(env)), x.w.prevTs, g, env, lines, end, k);
  }

  /** The save and the comparison with the trade history. */
  lemma EndStands(x: WD, prevTs: Option<Time>, g: Grammar, env: Env, lines: seq<T.Bytes>, end: T.Cursor, k: K)
    requires Standing(x, k, env.now)
    ensures var (y, ok) := Commit(x, end, LastLineTs(g, lines));
            && Standing(y, k, env.now)
            && (ok && ReconcileDue(y.w, env.now, prevTs, lines) ==>
                  Standing(Reconciled(y, env.now, env.dayTrades, prevTs.value), k, env.now))
  {
    var (y, ok) := Commit(x, end, LastLineTs(g, lines));
    SameTableStands(x, y, k, env.now);
    if ok && ReconcileDue(y.w, env.now, prevTs, lines) && env.dayTrades.Some? {
      var w := y.w.(lastReconcile := Some(env.now));
      var rows := R.HistoryRows(env.dayTrades.value, w.journalKeys, P.ExternalNotices(w.p), prevTs.value);
      WriteAllSameTable(Written(w, y.d, {}), rows);
      SameTableStands(y, Reconciled(y, env.now, env.dayTrades, prevTs.value), k, env.now);
    }
  }

  lemma ReadStands(x: WD, g: Grammar, env: Env, k: K)
    requires Standing(x, k, env.now) && GoodMemory(x.w.p)
    ensures Standing(ReadOn(x, g, env).0, k, env.now)
  {
    var chunk := T.ReadChunk(env.dir, x.w.cursor, T.MAX_READ_BYTES);
    if chunk.Chunk? { FinishStands(x, g, env, chunk.lines, chunk.cursor, k); }
  }

  /** Before a rotation: a worker that runs has a tracker that stands, and one that starts gets one. */
  ghost predicate Prepared(x: WD, k: K, now: Time) {
    && SentOnly(x.d) && OwnBefore(x.d.stops, k, now) && GoodMemory(x.w.p)
    && (x.w.booted ==> Stands(x.w.t, x.d, k))
  }

  lemma ReadyStands(x: WD, env: Env, k: K)
    requires Prepared(x, k, env.now)
    ensures Standing(WD(Ready(x, env), x.d), k, env.now) && Standing(WD(Shown(Ready(x, env), env), x.d), k, env.now)
    ensures GoodMemory(Ready(x, env).p) && GoodMemory(Shown(Ready(x, env), env).p)
  {
    ReadyKeepsMemory(x, env);
    RebuiltAgrees(x.d.stops, k);
  }

  lemma RotateStands(x: WD, g: Grammar, env: Env, k: K)
    requires Prepared(x, k, env.now)
    ensures Prepared(Rotate(x, g, env).0, k, env.now)
  {
    E.RotateEods(x, g, env, k, 0);
    if x.w.booted || !env.bootFails {
      ReadyStands(x, env, k);
      ReadStands(WD(Shown(Ready(x, env), env), x.d), g, env, k);
    }
  }

  // ---- whole runs ----------------------------------------------------------------------------------------

  ghost predicate KeepsPrepared(rotate: (WD, Env) -> WD, k: K) {
    forall x: WD, env: Env :: Prepared(x, k, env.now) ==> Prepared(rotate(x, env), k, env.now)
  }

  lemma WorkerKeepsPrepared(g: Grammar, k: K)
    ensures KeepsPrepared(WorkerRotation(g), k)
  {
    forall x: WD, env: Env | Prepared(x, k, env.now) ensures Prepared(WorkerRotation(g)(x, env), k, env.now) {
      RotateStands(x, g, env, k);
    }
  }

  /** Between rotations, the last of them at `now`. */
  ghost predicate Rested(s: Run, k: K, now: Option<Time>) {
    && GoodMemory(s.w.p) && (now.None? ==> s.d.stops == []) && (now.Some? ==> OwnBefore(s.d.stops, k, now.value))
    && (s.w.booted ==> !s.d.dying && Stands(s.w.t, s.d, k))
  }

  ghost predicate KeepsDying(rotate: (WD, Env) -> WD) {
    forall x: WD, env: Env :: rotate(x, env).d.dying == x.d.dying
  }

  lemma RestedIsPrepared(s: Run, k: K, now: Option<Time>, d: Db, at: Time)
    requires Rested(s, k, now) && d.stops == s.d.stops && d.missed == s.d.missed && SentOnly(d)
    requires now.Some? ==> now.value <= at
    ensures Prepared(WD(s.w, d), k, at)
  {
  }

  lemma NextRests(s: Run, rotate: (WD, Env) -> WD, step: Step, k: K, now: Option<Time>)
    requires s.log != [] && KeepsPrepared(rotate, k) && KeepsDying(rotate) && Rested(s, k, now) && Enabled(s, step)
    requires step.Rotation? && now.Some? ==> now.value <= step.env.now
    ensures Rested(Next(s, rotate, step), k, if step.Rotation? then Some(step.env.now) else now)
  {
    if step.Rotation? {
      var d := s.d.(faults := step.faults, dying := step.dies);
      RestedIsPrepared(s, k, now, d, step.env.now);
      assert Prepared(rotate(WD(s.w, d), step.env), k, step.env.now);
    }
  }

  lemma StatementKeepsDying(d: Db, op: Op)
    ensures Apply(d, op).dying == d.dying
  {
  }

  lemma {:induction false} StatementsKeepDying(d: Db, ops: seq<Op>)
    ensures ApplyAll(d, ops).dying == d.dying
  {
    if ops != [] {
      StatementsKeepDying(d, ops[..|ops| - 1]);
      StatementKeepsDying(ApplyAll(d, ops[..|ops| - 1]), ops[|ops| - 1]);
    }
  }

  lemma WorkerKeepsDying(g: Grammar)
    ensures KeepsDying(WorkerRotation(g))
  {
    forall x: WD, env: Env ensures WorkerRotation(g)(x, env).d.dying == x.d.dying {
      var ops := M.RotationApplies(x, g, env);
      StatementsKeepDying(x.d, ops);
    }
  }

  lemma LastBeat(steps: seq<Step>)
    requires steps != []
    ensures var (n, last) := (|steps| - 1, steps[|steps| - 1]);
            && E.LastTick(E.BeatsOf(steps))
               == (if last.Rotation? then Some(last.env.now) else E.LastTick(E.BeatsOf(steps[..n])))
            && (E.Forward(E.BeatsOf(steps)) ==>
                  && E.Forward(E.BeatsOf(steps[..n]))
                  && (last.Rotation? && E.LastTick(E.BeatsOf(steps[..n])).Some? ==>
                        E.LastTick(E.BeatsOf(steps[..n])).value <= last.env.now))
  {
    var before, last := E.BeatsOf(steps[..|steps| - 1]), E.BeatOf(steps[|steps| - 1]);
    assert before + [] == before;
    if last != [] { assert last == [last[0]] && (before + [last[0]])[..|before|] == before; }
  }

  lemma {:induction false} RunRests(s: Run, rotate: (WD, Env) -> WD, steps: seq<Step>, k: K)
    requires s.log != [] && KeepsPrepared(rotate, k) && KeepsDying(rotate) && Rested(s, k, None)
    requires AllEnabled(s, rotate, steps) && E.Forward(E.BeatsOf(steps))
    ensures Rested(RunAll(s, rotate, steps), k, E.LastTick(E.BeatsOf(steps)))
  {
    if steps != [] {
      var n := |steps| - 1;
      LastBeat(steps);
      PrefixAllowed(s, rotate, steps, n);
      RunRests(s, rotate, steps[..n], k);
      assert EnabledAt(s, rotate, steps, n);
      NextRests(RunAll(s, rotate, steps[..n]), rotate, steps[n], k, E.LastTick(E.BeatsOf(steps[..n])));
    }
  }

  /** At any point of any run in which the clock never goes back, with failures, deaths and restarts: if no
      insertion of a tracker's row of the holding was swallowed and its latest row is not an exit row, that
      row is the running tracker's record, so a tracker started from the table has the same record and arm
      price. */
  lemma LatestRowIsRecord(log: T.Log, g: Grammar, steps: seq<Step>, k: K)
    requires log != [] && AllEnabled(Begin(log), WorkerRotation(g), steps) && E.Forward(E.BeatsOf(steps))
    ensures var s := RunAll(Begin(log), WorkerRotation(g), steps);
            s.w.booted && NoneMissed(s.d, k) && !ExitIsLatest(s.d.stops, k) ==>
              && Agrees(s.w.t, s.d.stops, k)
              && var again := S.FromRows(LastStops(s.d.stops));
                 S.Get(again.last, k) == S.Get(s.w.t.last, k) && S.Get(again.arm, k) == S.Get(s.w.t.arm, k)
  {
    WorkerKeepsPrepared(g, k);
    WorkerKeepsDying(g);
    RunRests(Begin(log), WorkerRotation(g), steps, k);
  }

  /** The tracker after a rotation that read the log. */
  lemma TrackerAfter(x: WD, g: Grammar, env: Env)
    requires x.w.booted || !env.bootFails
    requires !IsIdle(env.g0) && T.ReadChunk(env.dir, Ready(x, env).cursor, T.MAX_READ_BYTES).Chunk?
    ensures var y := Rotate(x, g, env).0; y.w.booted && y.w.t == S.Observe(Ready(x, env).t, Observation(env)).0
  {
    var w := Shown(Ready(x, env), env);
    var chunk := T.ReadChunk(env.dir, w.cursor, T.MAX_READ_BYTES);
    FinishTracks(WD(w, x.d), g, env, chunk.lines, chunk.cursor);
  }

  lemma FinishTracks(x: WD, g: Grammar, env: Env, lines: seq<T.Bytes>, end: T.Cursor)
    ensures var y := Finish(x, g, env, lines, end).0;
            y.w.booted == x.w.booted && y.w.t == S.Observe(x.w.t, Observation(env)).0
  {
    var y := Collect(x, g, lines);
    E.CountSameTracker(x.w, Parsed(g, lines));
    var rows := P.RowsOf(y.w.p, P.Leaving(y.w.p, false), StrategiesSeen(env.trades));
    WriteAllSameTable(Written(y.w.(p := P.Drained(y.w.p, false)), y.d, {}), rows);
    WriteKeepsCursors(Written(y.w.(p := P.Drained(y.w.p, false)), y.d, {}), rows);
    E.EndEods(Gathered(x, g, env, lines), x.w.prevTs, g, env, lines, end);
  }

  /** After a rotation of such a run that showed the holding, the latest row of the table stands for the row
      shown: same kind, target, hit and arm price, and a stop that is equal or has risen by less than half a
      percent. */
  lemma LatestRowStandsForShown(log: T.Log, g: Grammar, steps: seq<Step>, env: Env, faults: seq<Fault>, i: int)
    requires log != [] && AllEnabled(Begin(log), WorkerRotation(g), steps + [Rotation(env, faults, false)])
    requires E.Forward(E.BeatsOf(steps + [Rotation(env, faults, false)]))
    requires var s := RunAll(Begin(log), WorkerRotation(g), steps);
             var w := Ready(WD(s.w, s.d), env);
             && (s.w.booted || !env.bootFails) && S.Processed(w.t, Observation(env))
             && T.ReadChunk(env.dir, w.cursor, T.MAX_READ_BYTES).Chunk?
    requires 0 <= i < |env.g1.value| && S.LastOfItsKey(env.g1.value, i)
    ensures var s' := RunAll(Begin(log), WorkerRotation(g), steps + [Rotation(env, faults, false)]);
            var (item, rows) := (env.g1.value[i], LastStops(s'.d.stops));
            NoneMissed(s'.d, item.Key()) && !ExitIsLatest(s'.d.stops, item.Key()) ==>
              item.Key() in rows && S.StandsFor(rows[item.Key()].row, S.Current(s'.w.t.arm, item))
  {
    var step, item := Rotation(env, faults, false), env.g1.value[i];
    var s := RunAll(Begin(log), WorkerRotation(g), steps);
    LastStep(Begin(log), WorkerRotation(g), steps, step);
    LatestRowIsRecord(log, g, steps + [step], item.Key());
    ShownIsTracked(s, g, env, faults, i);
  }

  lemma LastStep(s: Run, rotate: (WD, Env) -> WD, steps: seq<Step>, step: Step)
    requires s.log != []
    ensures RunAll(s, rotate, steps + [step]) == Next(RunAll(s, rotate, steps), rotate, step)
  {
    assert (steps + [step])[..|steps|] == steps;
  }

  lemma ShownIsTracked(s: Run, g: Grammar, env: Env, faults: seq<Fault>, i: int)
    requires s.log != []
    requires var w := Ready(WD(s.w, s.d), env);
             && (s.w.booted || !env.bootFails) && S.Processed(w.t, Observation(env))
             && T.ReadChunk(env.dir, w.cursor, T.MAX_READ_BYTES).Chunk?
    requires 0 <= i < |env.g1.value| && S.LastOfItsKey(env.g1.value, i)
    ensures var s' := Next(s, WorkerRotation(g), Rotation(env, faults, false));
            var item := env.g1.value[i];
            s'.w.booted && item.Key() in s'.w.t.last
            && S.StandsFor(s'.w.t.last[item.Key()], S.Current(s'.w.t.arm, item))
  {
    var x := WD(s.w, s.d.(faults := faults, dying := false));
    assert Ready(x, env) == Ready(WD(s.w, s.d), env);
    TrackerAfter(x, g, env);
    TrackedAfter(Ready(x, env).t, Rotate(x, g, env).0.w.t, env, i);
  }

  lemma TrackedAfter(t: S.Tracker, t': S.Tracker, env: Env, i: int)
    requires S.Processed(t, Observation(env)) && t' == S.Observe(t, Observation(env)).0
    requires 0 <= i < |env.g1.value| && S.LastOfItsKey(env.g1.value, i)
    ensures var item := env.g1.value[i];
            item.Key() in t'.last && S.StandsFor(t'.last[item.Key()], S.Current(t'.arm, item))
  {
    S.RecordNeverDrifts(t, Observation(env), i);
  }
}
