/** What the worker does once only: exit events, and the day's completions and rows. */
module WorkerOnce {
  import opened Basics
  import opened Journal
  import opened JournalDb
  import opened Worker
  import opened WorkerRuns
  import P = Pairing
  import R = Reconcile
  import S = Stops
  import T = Tailer

  // ---- exit events and the anchors they come from --------------------------------------------

  predicate IsExitOf(ev: StopEvent, k: Key) {
    ev.sellNo == Some(k.no) && Date(ev.observedAt) == k.date && k.side == Sell
  }

  function ExitCount(stops: seq<StopEvent>, k: Key): nat {
    if stops == [] then 0
    else ExitCount(stops[..|stops| - 1], k) + (if IsExitOf(stops[|stops| - 1], k) then 1 else 0)
  }

  /** An anchor's event is an exit event and names the anchor's order and time. */
  predicate GoodAnchor(a: P.Anchor) {
    a.SellAnchor? && a.stop.Some? ==>
      a.stop.value.kind == ExitStop && a.stop.value.sellNo == Some(a.no) && a.stop.value.observedAt == a.ts
  }

  ghost predicate GoodAnchors(anchors: seq<P.Anchor>) { forall i :: 0 <= i < |anchors| ==> GoodAnchor(anchors[i]) }

  ghost predicate GoodMemory(m: P.Memory) { GoodAnchors(m.incoming) && GoodAnchors(m.ready) }

  lemma HearKeepsGood(m: P.Memory, ev: Event)
    requires GoodAnchors(m.incoming)
    ensures GoodAnchors(P.Hear(m, ev).incoming)
  {
  }

  lemma {:induction false} FeedAllKeepsGood(m: P.Memory, evs: seq<Event>)
    requires GoodMemory(m)
    ensures GoodMemory(P.FeedAll(m, evs))
  {
    if evs != [] {
      var pre, ev := evs[..|evs| - 1], evs[|evs| - 1];
      FeedAllKeepsGood(m, pre);
      var m1 := P.FeedAll(m, pre);
      PurgeKeepsIncoming(m1, ev.ts);
      HearKeepsGood(P.Purge(m1, ev.ts), ev);
      FeedBrings(m1, ev);
    }
  }

  /** How many sells of the batch have the number. */
  function SellsOf(anchors: seq<P.Anchor>, no: string): nat {
    if anchors == [] then 0
    else
      var a := anchors[|anchors| - 1];
      SellsOf(anchors[..|anchors| - 1], no) + (if a.SellAnchor? && a.no == no then 1 else 0)
  }

  /** How many sells of the batch have the key and carry an exit event. */
  function StopsFor(anchors: seq<P.Anchor>, k: Key): nat {
    if anchors == [] then 0
    else
      var a := anchors[|anchors| - 1];
      StopsFor(anchors[..|anchors| - 1], k) + (if a.SellAnchor? && a.Key() == k && a.stop.Some? then 1 else 0)
  }

  lemma {:induction false} StopsForFinds(anchors: seq<P.Anchor>, k: Key)
    ensures StopsFor(anchors, k) > 0 ==>
              exists i :: 0 <= i < |anchors| && anchors[i].SellAnchor? && anchors[i].Key() == k && anchors[i].stop.Some?
  {
    if anchors != [] {
      var pre := anchors[..|anchors| - 1];
      StopsForFinds(pre, k);
      if StopsFor(pre, k) > 0 {
        var i :| 0 <= i < |pre| && pre[i].SellAnchor? && pre[i].Key() == k && pre[i].stop.Some?;
        assert anchors[i] == pre[i];
      }
    }
  }

  /** Two places in the batch with the number make at least two. */
  lemma {:induction false} SellsAt(anchors: seq<P.Anchor>, no: string, i: nat)
    requires i < |anchors| && anchors[i].SellAnchor? && anchors[i].no == no
    ensures SellsOf(anchors, no) >= 1
    ensures forall j :: i < j < |anchors| && anchors[j].SellAnchor? && anchors[j].no == no ==> SellsOf(anchors, no) >= 2
  {
    var n := |anchors| - 1;
    if i < n {
      SellsAt(anchors[..n], no, i);
      forall j | i < j < n && anchors[j].SellAnchor? && anchors[j].no == no ensures SellsOf(anchors, no) >= 2 {
        assert anchors[..n][j] == anchors[j];
      }
    }
  }

  predicate IsSell(a: P.Anchor, no: string) { a.SellAnchor? && a.no == no }

  /** Beside a sell that carries an exit event, the batch holds no other sell of the number of another day,
      and none that carries one. */
  ghost predicate SafeBatch(anchors: seq<P.Anchor>, no: string) {
    forall i, j :: 0 <= i < |anchors| && 0 <= j < |anchors| && i != j ==> SafePair(anchors[i], anchors[j], no)
  }

  predicate SafePair(a: P.Anchor, b: P.Anchor, no: string) {
    IsSell(a, no) && IsSell(b, no) && a.stop.Some? ==> b.Key() == a.Key() && b.stop.None?
  }

  lemma {:induction false} SafeStops(anchors: seq<P.Anchor>, k: Key)
    requires SafeBatch(anchors, k.no)
    ensures StopsFor(anchors, k) <= 1
  {
    if anchors != [] {
      var n := |anchors| - 1;
      forall i, j | 0 <= i < n && 0 <= j < n && i != j ensures SafePair(anchors[..n][i], anchors[..n][j], k.no) {
        assert SafePair(anchors[i], anchors[j], k.no);
      }
      SafeStops(anchors[..n], k);
      StopsForFinds(anchors[..n], k);
      if StopsFor(anchors[..n], k) > 0 {
        var i :| 0 <= i < n && anchors[..n][i].SellAnchor? && anchors[..n][i].Key() == k
                 && anchors[..n][i].stop.Some?;
        assert SafePair(anchors[i], anchors[n], k.no);
      }
    }
  }

  /** Every sell of the number is of the day of one that carries an exit event. */
  lemma SafeDay(anchors: seq<P.Anchor>, k: Key, i: int)
    requires SafeBatch(anchors, k.no) && StopsFor(anchors, k) > 0
    requires 0 <= i < |anchors| && IsSell(anchors[i], k.no)
    ensures anchors[i].Key() == k
  {
    StopsForFinds(anchors, k);
    var j :| 0 <= j < |anchors| && anchors[j].SellAnchor? && anchors[j].Key() == k && anchors[j].stop.Some?;
    if i != j { assert SafePair(anchors[j], anchors[i], k.no); }
  }

  /** A batch with at most one sell of the number is safe. */
  lemma OneSellIsSafe(anchors: seq<P.Anchor>, no: string)
    requires SellsOf(anchors, no) <= 1
    ensures SafeBatch(anchors, no)
  {
    forall i, j | 0 <= i < |anchors| && 0 <= j < |anchors| && i != j ensures SafePair(anchors[i], anchors[j], no) {
      if IsSell(anchors[i], no) && IsSell(anchors[j], no) {
        SellsAt(anchors, no, i);
        SellsAt(anchors, no, j);
      }
    }
  }

  // ---- statements that write no exit event -----------------------------------------------------

  /** Rows stay keyed, what is measured stays measured, no exit event is added. */
  ghost predicate NoExits(d: Db, d': Db, k: Key) {
    && Keyed(d'.orders) && (Measured(d.orders, k) ==> Measured(d'.orders, k))
    && ExitCount(d'.stops, k) == ExitCount(d.stops, k)
  }

  lemma {:induction false} FillAllNoExits(d: Db, evs: seq<Event>, k: Key)
    requires Keyed(d.orders)
    ensures NoExits(d, FillAll(d, evs), k)
  {
    if evs != [] {
      var pre, ev := evs[..|evs| - 1], evs[|evs| - 1];
      FillAllNoExits(d, pre, k);
      var d1 := FillAll(d, pre);
      if Divides(ev) { FillGains(d1.orders, Key(Date(ev.ts), ev.orderNo, ev.noticeSide), ev.division.value); }
    }
  }

  lemma WriteRowNoExits(d: Db, row: Row, k: Key)
    requires Keyed(d.orders)
    ensures NoExits(d, WriteRow(d, row).0, k)
  {
    WriteGains(d, row);
  }

  lemma {:induction false} WriteAllNoExits(x: Written, rows: seq<Row>, k: Key)
    requires Keyed(x.d.orders)
    ensures NoExits(x.d, WriteAll(x, rows).d, k)
  {
    if rows != [] {
      WriteAllNoExits(x, rows[..|rows| - 1], k);
      WriteRowNoExits(WriteAll(x, rows[..|rows| - 1]).d, rows[|rows| - 1], k);
    }
  }

  // ---- fresh sells -----------------------------------------------------------------------------

  /** A row of the batch that turned its key from not measured to measured. */
  ghost predicate TurnedMeasured(before: Db, after: Db, rows: seq<Row>, no: string, i: int) {
    && 0 <= i < |rows| && rows[i].key.side == Sell && rows[i].key.no == no
    && !Measured(before.orders, rows[i].key) && Measured(after.orders, rows[i].key)
  }

  lemma FreshCameFrom(x: Written, rows: seq<Row>, no: string) returns (i: int)
    requires Keyed(x.d.orders) && x.sells == {} && no in WriteAll(x, rows).sells
    ensures TurnedMeasured(x.d, WriteAll(x, rows).d, rows, no, i)
    decreases |rows|
  {
    var n := |rows| - 1;
    var x1 := WriteAll(x, rows[..n]);
    WriteAllNoExits(x, rows[..n], rows[n].key);
    if no in x1.sells {
      i := FreshCameFrom(x, rows[..n], no);
      WriteAllNoExits(x, rows[..n], rows[i].key);
      WriteRowNoExits(x1.d, rows[n], rows[i].key);
    } else {
      i := n;
      FreshMeansNewlyMeasured(x1.d, rows[n]);
    }
  }

  // ---- releasing a batch -----------------------------------------------------------------------

  lemma ExitCountSnoc(stops: seq<StopEvent>, ev: StopEvent, k: Key)
    ensures ExitCount(stops + [ev], k) == ExitCount(stops, k) + (if IsExitOf(ev, k) then 1 else 0)
  {
    assert (stops + [ev])[..|stops|] == stops;
  }

  lemma AddStopCounts(d: Db, ev: StopEvent, k: Key)
    ensures var d' := AddStop(d, ev);
            && d'.orders == d.orders
            && ExitCount(d.stops, k) <= ExitCount(d'.stops, k)
               <= ExitCount(d.stops, k) + (if IsExitOf(ev, k) then 1 else 0)
  {
    ExitCountSnoc(d.stops, ev, k);
  }

  lemma {:induction false} AddStopsCount(d: Db, evs: seq<StopEvent>, k: Key)
    ensures var d' := AddStops(d, evs);
            && d'.orders == d.orders
            && ExitCount(d.stops, k) <= ExitCount(d'.stops, k) <= ExitCount(d.stops, k) + ExitCount(evs, k)
  {
    if evs != [] {
      var n := |evs| - 1;
      AddStopsCount(d, evs[..n], k);
      AddStopCounts(AddStops(d, evs[..n]), evs[n], k);
    }
  }

  function StopOf(a: P.Anchor): seq<StopEvent> { if a.SellAnchor? && a.stop.Some? then [a.stop.value] else [] }

  lemma BatchSnoc(pre: seq<P.Anchor>, a: P.Anchor, k: Key)
    ensures P.StopsOf(pre + [a]) == P.StopsOf(pre) + StopOf(a)
    ensures StopsFor(pre + [a], k) == StopsFor(pre, k)
            + (if a.SellAnchor? && a.Key() == k && a.stop.Some? then 1 else 0)
    ensures SellsOf(pre + [a], k.no) == SellsOf(pre, k.no) + (if a.SellAnchor? && a.no == k.no then 1 else 0)
  {
    assert (pre + [a])[..|pre|] == pre;
  }

  lemma OneMoreAnchor(stops: seq<StopEvent>, a: P.Anchor, sells: set<string>, k: Key)
    requires GoodAnchor(a)
    ensures ExitCount(OfFresh(stops + StopOf(a), sells), k)
            == ExitCount(OfFresh(stops, sells), k)
               + (if k.no in sells && a.SellAnchor? && a.Key() == k && a.stop.Some? then 1 else 0)
  {
    if a.SellAnchor? && a.stop.Some? {
      OneMoreExit(stops, a.stop.value, sells, k);
      assert IsExitOf(a.stop.value, k) <==> a.Key() == k;
    } else {
      NothingAdded(stops);
    }
  }

  lemma NothingAdded(stops: seq<StopEvent>)
    ensures stops + [] == stops
  {
  }

  /** Of the batch's exit events kept, those of one order: as many as its sells of that key carry, if the
      number is fresh. */
  lemma {:induction false} BatchExits(anchors: seq<P.Anchor>, sells: set<string>, k: Key)
    requires GoodAnchors(anchors)
    ensures ExitCount(OfFresh(P.StopsOf(anchors), sells), k) == if k.no in sells then StopsFor(anchors, k) else 0
  {
    if anchors != [] {
      var n := |anchors| - 1;
      BatchExits(anchors[..n], sells, k);
      BatchSnoc(anchors[..n], anchors[n], k);
      assert anchors[..n] + [anchors[n]] == anchors;
      OneMoreAnchor(P.StopsOf(anchors[..n]), anchors[n], sells, k);
    }
  }

  lemma OneMoreExit(stops: seq<StopEvent>, ev: StopEvent, sells: set<string>, k: Key)
    ensures ExitCount(OfFresh(stops + [ev], sells), k)
            == ExitCount(OfFresh(stops, sells), k) + (if k.no in sells && IsExitOf(ev, k) then 1 else 0)
  {
    OfFreshSnoc(stops, ev, sells);
    if ev.sellNo.Some? && ev.sellNo.value in sells {
      ExitCountSnoc(OfFresh(stops, sells), ev, k);
    } else {
      assert OfFresh(stops, sells) + [] == OfFresh(stops, sells);
    }
  }

  lemma OfFreshSnoc(stops: seq<StopEvent>, ev: StopEvent, sells: set<string>)
    ensures OfFresh(stops + [ev], sells) == OfFresh(stops, sells)
            + (if ev.sellNo.Some? && ev.sellNo.value in sells then [ev] else [])
  {
    assert (stops + [ev])[..|stops|] == stops;
  }

  /** At most one exit event of the order is in the table, and only if its row is measured. */
  ghost predicate ExitOnce(d: Db, k: Key) {
    && Keyed(d.orders) && ExitCount(d.stops, k) <= 1
    && (ExitCount(d.stops, k) == 1 ==> Measured(d.orders, k))
  }

  lemma ReleaseKeepsExitOnce(x: WD, trades: map<string, string>, k: Key)
    requires ExitOnce(x.d, k) && GoodAnchors(x.w.p.ready) && SafeBatch(x.w.p.ready, k.no)
    ensures ExitOnce(Release(x, trades).d, k)
  {
    var leaving := P.Leaving(x.w.p, false);
    var rows := P.RowsOf(x.w.p, leaving, trades);
    var start := Written(x.w.(p := P.Drained(x.w.p, false)), x.d, {});
    var out := WriteAll(start, rows);
    var exits := OfFresh(P.StopsOf(leaving), out.sells);
    WriteAllNoExits(start, rows, k);
    BatchExits(leaving, out.sells, k);
    SafeStops(leaving, k);
    AddStopsCount(out.d, exits, k);
    if ExitCount(exits, k) == 1 {
      var i := FreshCameFrom(start, rows, k.no);
      SafeDay(leaving, k, i);
    }
  }

  // ---- a whole rotation ------------------------------------------------------------------------

  lemma {:induction false} TrackerWritesNoExits(t: S.Tracker, items: G1, c: S.Context, k: Key)
    ensures ExitCount(S.ObserveItems(t, items, c).1, k) == 0
  {
    if items != [] {
      var n := |items| - 1;
      TrackerWritesNoExits(t, items[..n], c, k);
      var (t1, evs) := S.ObserveItems(t, items[..n], c);
      var more := S.ObserveItem(t1, items[n], c).1;
      if more == [] {
        assert evs + more == evs;
      } else {
        assert more == [more[0]];
        ExitCountSnoc(evs, more[0], k);
      }
    }
  }

  lemma TrackNoExits(x: WD, o: S.Obs, k: Key)
    requires Keyed(x.d.orders)
    ensures NoExits(x.d, Track(x, o).d, k)
  {
    if S.Processed(x.w.t, o) { TrackerWritesNoExits(x.w.t.(phase := S.Steady), o.g1.value, S.ContextOf(x.w.t, o), k); }
    AddStopsCount(x.d, S.Observe(x.w.t, o).1, k);
  }

  lemma CollectKeeps(x: WD, g: Grammar, lines: seq<T.Bytes>, k: Key)
    requires ExitOnce(x.d, k) && GoodMemory(x.w.p)
    ensures var y := Collect(x, g, lines);
            ExitOnce(y.d, k) && GoodMemory(y.w.p) && y.w.p.ready == x.w.p.ready
  {
    FillAllNoExits(x.d, Parsed(g, lines), k);
    FeedAllKeepsGood(x.w.p, Parsed(g, lines));
    FeedAllBrings(x.w.p, Parsed(g, lines));
  }

  /** What a rotation that read a chunk does to the pairer. */
  lemma GatherMemory(x: WD, g: Grammar, env: Env, lines: seq<T.Bytes>)
    ensures Gathered(x, g, env, lines).w.p == P.Drained(P.FeedAll(x.w.p, Parsed(g, lines)), false)
  {
    var y := Collect(x, g, lines);
    var rows := P.RowsOf(y.w.p, P.Leaving(y.w.p, false), StrategiesSeen(env.trades));
    WriteKeepsCursors(Written(y.w.(p := P.Drained(y.w.p, false)), y.d, {}), rows);
    TrackHands(Release(y, StrategiesSeen(env.trades)), Observation(env));
  }

  lemma GatherKeeps(x: WD, g: Grammar, env: Env, lines: seq<T.Bytes>, k: Key)
    requires ExitOnce(x.d, k) && GoodMemory(x.w.p) && SafeBatch(x.w.p.ready, k.no)
    ensures ExitOnce(Gathered(x, g, env, lines).d, k) && GoodMemory(Gathered(x, g, env, lines).w.p)
  {
    var y := Collect(x, g, lines);
    CollectKeeps(x, g, lines, k);
    var z := Release(y, StrategiesSeen(env.trades));
    ReleaseKeepsExitOnce(y, StrategiesSeen(env.trades), k);
    GatherMemory(x, g, env, lines);
    TrackNoExits(z, Observation(env), k);
  }

  lemma ReconcileKeeps(x: WD, now: Time, trades: Option<seq<R.TradeRow>>, upTo: Time, k: Key)
    requires ExitOnce(x.d, k)
    ensures ExitOnce(Reconciled(x, now, trades, upTo).d, k) && Reconciled(x, now, trades, upTo).w.p == x.w.p
  {
    var w := x.w.(lastReconcile := Some(now));
    ReconcileHands(x, now, trades, upTo);
    if trades.Some? {
      WriteAllNoExits(Written(w, x.d, {}), R.HistoryRows(trades.value, w.journalKeys, P.ExternalNotices(w.p), upTo), k);
    }
  }

  lemma FinishMemory(x: WD, g: Grammar, env: Env, lines: seq<T.Bytes>, end: T.Cursor)
    ensures Finish(x, g, env, lines, end).0.w.p == P.Drained(P.FeedAll(x.w.p, Parsed(g, lines)), false)
  {
    GatherMemory(x, g, env, lines);
    var (y, ok) := Commit(Gathered(x, g, env, lines), end, LastLineTs(g, lines));
    if ok && ReconcileDue(y.w, env.now, x.w.prevTs, lines) {
      ReconcileHands(y, env.now, env.dayTrades, x.w.prevTs.value);
    }
  }

  lemma FinishKeeps(x: WD, g: Grammar, env: Env, lines: seq<T.Bytes>, end: T.Cursor, k: Key)
    requires ExitOnce(x.d, k) && GoodMemory(x.w.p) && SafeBatch(x.w.p.ready, k.no)
    ensures var y := Finish(x, g, env, lines, end).0; ExitOnce(y.d, k) && GoodMemory(y.w.p)
  {
    GatherKeeps(x, g, env, lines, k);
    var (y, ok) := Commit(Gathered(x, g, env, lines), end, LastLineTs(g, lines));
    if ok && ReconcileDue(y.w, env.now, x.w.prevTs, lines) {
      ReconcileKeeps(y, env.now, env.dayTrades, x.w.prevTs.value, k);
    }
  }

  lemma ReadyKeepsMemory(x: WD, env: Env)
    ensures Ready(x, env).p == x.w.p
    ensures Shown(Ready(x, env), env).p.incoming == x.w.p.incoming && Shown(Ready(x, env), env).p.ready == x.w.p.ready
  {
  }

  lemma ReadKeeps(x: WD, g: Grammar, env: Env, k: Key)
    requires ExitOnce(x.d, k) && GoodMemory(x.w.p) && SafeBatch(x.w.p.ready, k.no)
    ensures var y := ReadOn(x, g, env).0; ExitOnce(y.d, k) && GoodMemory(y.w.p)
  {
    var chunk := T.ReadChunk(env.dir, x.w.cursor, T.MAX_READ_BYTES);
    if chunk.Chunk? { FinishKeeps(x, g, env, chunk.lines, chunk.cursor, k); }
  }

  lemma RotateKeeps(x: WD, g: Grammar, env: Env, k: Key)
    requires ExitOnce(x.d, k) && GoodMemory(x.w.p) && SafeBatch(x.w.p.ready, k.no)
    ensures var y := Rotate(x, g, env).0; ExitOnce(y.d, k) && GoodMemory(y.w.p)
  {
    if x.w.booted || !env.bootFails {
      ReadyKeepsMemory(x, env);
      ReadKeeps(WD(Shown(Ready(x, env), env), x.d), g, env, k);
    }
  }

  /** Every batch a rotation releases is safe for the sell order. */
  ghost predicate QuietBatches(s: Run, rotate: (WD, Env) -> WD, steps: seq<Step>, no: string)
    requires s.log != []
  {
    forall n :: 0 <= n < |steps| ==> QuietAt(s, rotate, steps, no, n)
  }

  ghost predicate QuietAt(s: Run, rotate: (WD, Env) -> WD, steps: seq<Step>, no: string, n: int)
    requires s.log != [] && 0 <= n < |steps|
  {
    steps[n].Rotation? ==> SafeBatch(RunAll(s, rotate, steps[..n]).w.p.ready, no)
  }

  lemma PrefixQuiet(s: Run, rotate: (WD, Env) -> WD, steps: seq<Step>, no: string, n: nat)
    requires s.log != [] && n <= |steps| && QuietBatches(s, rotate, steps, no)
    ensures QuietBatches(s, rotate, steps[..n], no)
  {
    forall m | 0 <= m < n ensures QuietAt(s, rotate, steps[..n], no, m) {
      assert QuietAt(s, rotate, steps, no, m) && steps[..n][..m] == steps[..m];
    }
  }

  ghost predicate KeepsExitOnce(rotate: (WD, Env) -> WD, k: Key) {
    forall x: WD, env: Env :: ExitOnce(x.d, k) && GoodMemory(x.w.p) && SafeBatch(x.w.p.ready, k.no) ==>
      ExitOnce(rotate(x, env).d, k) && GoodMemory(rotate(x, env).w.p)
  }

  lemma WorkerKeepsExitOnce(g: Grammar, k: Key)
    ensures KeepsExitOnce(WorkerRotation(g), k)
  {
    forall x: WD, env: Env | ExitOnce(x.d, k) && GoodMemory(x.w.p) && SafeBatch(x.w.p.ready, k.no)
      ensures var y := WorkerRotation(g)(x, env); ExitOnce(y.d, k) && GoodMemory(y.w.p)
    {
      RotateKeeps(x, g, env, k);
    }
  }

  lemma {:induction false} RunKeepsExitOnce(s: Run, rotate: (WD, Env) -> WD, steps: seq<Step>, k: Key)
    requires s.log != [] && KeepsExitOnce(rotate, k)
    requires QuietBatches(s, rotate, steps, k.no) && ExitOnce(s.d, k) && GoodMemory(s.w.p)
    ensures ExitOnce(RunAll(s, rotate, steps).d, k) && GoodMemory(RunAll(s, rotate, steps).w.p)
  {
    if steps != [] {
      var n := |steps| - 1;
      PrefixQuiet(s, rotate, steps, k.no, n);
      RunKeepsExitOnce(s, rotate, steps[..n], k);
      assert QuietAt(s, rotate, steps, k.no, n);
      var before := RunAll(s, rotate, steps[..n]);
      if steps[n].Rotation? {
        var x := WD(before.w, before.d.(faults := steps[n].faults, dying := steps[n].dies));
        assert ExitOnce(x.d, k);
      }
    }
  }

  /** In every run, with failures and deaths anywhere and chunks read again, at most one exit event is
      recorded per day and sell order, as long as every released batch is safe for it. */
  lemma QuietBatchesExitOnce(log: T.Log, g: Grammar, steps: seq<Step>, k: Key)
    requires log != [] && QuietBatches(Begin(log), WorkerRotation(g), steps, k.no)
    ensures ExitCount(RunAll(Begin(log), WorkerRotation(g), steps).d.stops, k) <= 1
  {
    WorkerKeepsExitOnce(g, k);
    RunKeepsExitOnce(Begin(log), WorkerRotation(g), steps, k);
  }

  // ---- the day's completions and rows ----------------------------------------------------------

  /** Completions and rows counted today are unique, measured, and remembered as counted. */
  ghost predicate DayOk(w: WState) {
    && R.UniqueDones(w.dones) && (forall i :: 0 <= i < |w.dones| ==> R.DonePair(w.dones[i]) in w.doneSides)
    && R.UniqueRows(w.rows) && R.AllMeasured(w.rows)
    && (forall i :: 0 <= i < |w.rows| ==> R.RowPair(w.rows[i]) in w.counted)
  }

  lemma CountDoneKeepsDay(w: WState, ev: Event)
    requires DayOk(w)
    ensures DayOk(CountDone(w, ev))
  {
  }

  lemma NotedKeepsDay(w: WState, row: Row)
    requires DayOk(w)
    ensures DayOk(Noted(w, row))
  {
  }

  lemma {:induction false} CountDonesKeepsDay(w: WState, evs: seq<Event>)
    requires DayOk(w)
    ensures DayOk(CountDones(w, evs))
  {
    if evs != [] {
      CountDonesKeepsDay(w, evs[..|evs| - 1]);
      CountDoneKeepsDay(CountDones(w, evs[..|evs| - 1]), evs[|evs| - 1]);
    }
  }

  lemma {:induction false} WriteAllKeepsDay(x: Written, rows: seq<Row>)
    requires DayOk(x.w)
    ensures DayOk(WriteAll(x, rows).w)
  {
    if rows != [] {
      WriteAllKeepsDay(x, rows[..|rows| - 1]);
      NotedKeepsDay(WriteAll(x, rows[..|rows| - 1]).w, rows[|rows| - 1]);
    }
  }

  lemma GatherKeepsDay(x: WD, g: Grammar, env: Env, lines: seq<T.Bytes>)
    requires DayOk(x.w)
    ensures DayOk(Gathered(x, g, env, lines).w)
  {
    CountDonesKeepsDay(x.w, Parsed(g, lines));
    var y := Collect(x, g, lines);
    assert DayOk(y.w);
    WriteAllKeepsDay(Written(y.w.(p := P.Drained(y.w.p, false)), y.d, {}),
                     P.RowsOf(y.w.p, P.Leaving(y.w.p, false), StrategiesSeen(env.trades)));
    var z := Release(y, StrategiesSeen(env.trades));
    assert DayOk(z.w);
  }

  lemma FinishKeepsDay(x: WD, g: Grammar, env: Env, lines: seq<T.Bytes>, end: T.Cursor)
    requires DayOk(x.w)
    ensures DayOk(Finish(x, g, env, lines, end).0.w)
  {
    GatherKeepsDay(x, g, env, lines);
    var (y, ok) := Commit(Gathered(x, g, env, lines), end, LastLineTs(g, lines));
    assert DayOk(y.w);
    if ok && ReconcileDue(y.w, env.now, x.w.prevTs, lines) && env.dayTrades.Some? {
      var w := y.w.(lastReconcile := Some(env.now));
      WriteAllKeepsDay(Written(w, y.d, {}),
                       R.HistoryRows(env.dayTrades.value, w.journalKeys, P.ExternalNotices(w.p), x.w.prevTs.value));
    }
  }

  lemma ReadKeepsDay(x: WD, g: Grammar, env: Env)
    requires DayOk(x.w)
    ensures DayOk(ReadOn(x, g, env).0.w)
  {
    var chunk := T.ReadChunk(env.dir, x.w.cursor, T.MAX_READ_BYTES);
    if chunk.Chunk? { FinishKeepsDay(x, g, env, chunk.lines, chunk.cursor); }
  }

  lemma ReadyKeepsDay(x: WD, env: Env)
    requires DayOk(x.w)
    ensures DayOk(Ready(x, env)) && DayOk(Shown(Ready(x, env), env))
  {
  }

  lemma RotateKeepsDay(x: WD, g: Grammar, env: Env)
    requires DayOk(x.w)
    ensures DayOk(Rotate(x, g, env).0.w)
  {
    if x.w.booted || !env.bootFails {
      ReadyKeepsDay(x, env);
      ReadKeepsDay(WD(Shown(Ready(x, env), env), x.d), g, env);
    }
  }

  ghost predicate KeepsDay(rotate: (WD, Env) -> WD) {
    forall x: WD, env: Env :: DayOk(x.w) ==> DayOk(rotate(x, env).w)
  }

  lemma WorkerKeepsDay(g: Grammar)
    ensures KeepsDay(WorkerRotation(g))
  {
    forall x: WD, env: Env | DayOk(x.w) ensures DayOk(WorkerRotation(g)(x, env).w) {
      RotateKeepsDay(x, g, env);
    }
  }

  lemma {:induction false} RunKeepsDay(s: Run, rotate: (WD, Env) -> WD, steps: seq<Step>)
    requires s.log != [] && KeepsDay(rotate) && DayOk(s.w)
    ensures DayOk(RunAll(s, rotate, steps).w)
  {
    if steps != [] { RunKeepsDay(s, rotate, steps[..|steps| - 1]); }
  }

  /** At any point of any run, whatever was read twice: if the completions and rows of the day name the
      same orders, the counts of both sides agree at every cutoff, and the comparison is ok exactly when
      no row kept is a sell without a reason. */
  lemma ComparisonIsFair(log: T.Log, g: Grammar, steps: seq<Step>, upTo: Time)
    requires log != []
    requires var w := RunAll(Begin(log), WorkerRotation(g), steps).w; R.SamePairs(w.dones, w.rows)
    ensures var w := RunAll(Begin(log), WorkerRotation(g), steps).w;
            var c := Compared(w, upTo);
            && c.sellDone == c.sellRows && c.buyDone == c.buyRows
            && (c.ok <==> forall r :: r in R.KeptRows(w.rows, R.DoneTimes(w.dones), upTo - R.MIN_AGE) ==> !R.Unknown(r))
  {
    WorkerKeepsDay(g);
    RunKeepsDay(Begin(log), WorkerRotation(g), steps);
    var w := RunAll(Begin(log), WorkerRotation(g), steps).w;
    R.IdentitiesHold(w.dones, w.rows, upTo - R.MIN_AGE);
  }

  // ---- the rows a tracker restarts from ----------------------------------------------------------

  /** While times of recording never go back, the latest row per holding is the last one recorded. */
  lemma {:induction false} LatestIsLastRecorded(stops: seq<StopEvent>)
    requires forall i, j :: 0 <= i < j < |stops| ==> stops[i].observedAt <= stops[j].observedAt
    ensures LastStops(stops) == S.Overlay(map[], stops)
    ensures forall key :: key in LastStops(stops) ==> exists i :: 0 <= i < |stops| && stops[i] == LastStops(stops)[key]
  {
    if stops != [] {
      var n := |stops| - 1;
      LatestIsLastRecorded(stops[..n]);
      assert forall i :: 0 <= i < n ==> stops[..n][i] == stops[i];
    }
  }
}
