/** The worker as an object driving a pairer, a stop tracker and the tables, proved against Worker. */
module WorkerObject {
  import opened Basics
  import opened Journal
  import opened JournalDb
  import opened PairerObject
  import opened Worker
  import P = Pairing
  import R = Reconcile
  import S = Stops
  import T = Tailer

  class JournalWorker {
    const db: JournalTables
    const pairer: Pairer
    var tracker: S.StopTracker
    var booted: bool
    var cursor: Option<T.Cursor>
    var prevEnd: Option<T.Cursor>
    var prevTs: Option<Time>
    var lastReconcile: Option<Time>
    var lastResult: Option<R.Check>
    var day: Option<int>
    var dones: seq<R.DoneEvent>
    var rows: seq<R.DayRow>
    var journalKeys: set<Key>
    var doneSides: set<R.Pair>
    var counted: set<R.Pair>

    function State(): WState
      reads this, pairer, tracker
    {
      WState(booted, pairer.State(), tracker.State(), cursor, prevEnd, prevTs, lastReconcile, lastResult, day, dones,
             rows, journalKeys, doneSides, counted)
    }

    constructor (db: JournalTables)
      ensures State() == Start() && this.db == db && fresh(pairer) && fresh(tracker)
    {
      this.db := db;
      pairer := new Pairer(LogHarvest);
      tracker := new S.StopTracker(map[]);
      booted, cursor, prevEnd, prevTs := false, None, None, None;
      lastReconcile, lastResult, day := None, None, None;
      dones, rows, journalKeys, doneSides, counted := [], [], {}, {}, {};
    }

    method BootUp()
      modifies this`booted, this`cursor, this`prevEnd, this`tracker
      ensures State() == Booted(old(State()), db.State()) && fresh(tracker)
    {
      var last := LastStops(db.stops);
      cursor, prevEnd := db.cursor, db.cursor;
      tracker := new S.StopTracker(last);
      booted := true;
    }

    method Roll(now: Time)
      modifies this`day, this`dones, this`rows, this`journalKeys, this`doneSides, this`counted, this`lastResult
      ensures State() == RollDay(old(State()), now)
    {
      if Some(Date(now)) != day {
        day := Some(Date(now));
        dones, rows, journalKeys := [], [], {};
        doneSides, counted := {}, {};
        lastResult := None;
      }
    }

    // ---- writing -------------------------------------------------------------------------

    method NoteRow(row: Row)
      modifies this`journalKeys, this`counted, this`rows
      ensures State() == Noted(old(State()), row)
    {
      journalKeys := journalKeys + {row.key};
      if IsEmpty(row.source) {
        return;
      }
      var pair := (row.key.no, row.key.side);
      if pair !in counted {
        counted := counted + {pair};
        rows := rows + [DayRowOf(row)];
      }
    }

    /** Insert the row, or promote the one that is there; the answer says whether it is fresh. */
    method StoreRow(row: Row) returns (noError: bool, isFresh: bool)
      modifies db
      ensures (db.State(), noError, isFresh) == WriteRow(old(db.State()), row)
    {
      var inserted := db.InsertOrder(row);
      if inserted.None? {
        return false, false;
      }
      if inserted.value || IsEmpty(row.source) {
        return true, inserted.value && !IsEmpty(row.source);
      }
      var promoted := db.PromoteOrder(row);
      return promoted.Some?, promoted == Some(true);
    }

    method WriteRows(news: seq<Row>) returns (sells: set<string>)
      modifies this`journalKeys, this`counted, this`rows, db
      ensures Written(State(), db.State(), sells) == WriteAll(Written(old(State()), old(db.State()), {}), news)
    {
      sells := {};
      for i := 0 to |news|
        invariant Written(State(), db.State(), sells) == WriteAll(Written(old(State()), old(db.State()), {}), news[..i])
      {
        assert news[..i + 1][..i] == news[..i];
        var noError, isFresh := StoreRow(news[i]);
        if noError {
          NoteRow(news[i]);
        }
        if isFresh && news[i].key.side == Sell {
          sells := sells + {news[i].key.no};
        }
      }
      assert news[..|news|] == news;
    }

    method WriteStops(evs: seq<StopEvent>)
      modifies db
      ensures db.State() == AddStops(old(db.State()), evs)
    {
      for i := 0 to |evs|
        invariant db.State() == AddStops(old(db.State()), evs[..i])
      {
        assert evs[..i + 1][..i] == evs[..i];
        db.InsertStop(evs[i]);
      }
      assert evs[..|evs|] == evs;
    }

    method WriteExits(stops: seq<StopEvent>, sells: set<string>)
      modifies db
      ensures db.State() == AddStops(old(db.State()), OfFresh(stops, sells))
    {
      var kept: seq<StopEvent> := [];
      for i := 0 to |stops|
        invariant kept == OfFresh(stops[..i], sells)
        invariant db.State() == AddStops(old(db.State()), kept)
      {
        assert stops[..i + 1][..i] == stops[..i];
        if stops[i].sellNo.None? || stops[i].sellNo.value !in sells {
          continue;
        }
        db.InsertStop(stops[i]);
        assert (kept + [stops[i]])[..|kept|] == kept;
        kept := kept + [stops[i]];
      }
      assert stops[..|stops|] == stops;
    }

    // ---- the phases ----------------------------------------------------------------------

    method CountEvents(evs: seq<Event>)
      modifies this`doneSides, this`dones, db
      ensures State() == CountDones(old(State()), evs)
      ensures db.State() == FillAll(old(db.State()), evs)
    {
      for i := 0 to |evs|
        invariant State() == CountDones(old(State()), evs[..i])
        invariant db.State() == FillAll(old(db.State()), evs[..i])
      {
        assert evs[..i + 1][..i] == evs[..i];
        var ev := evs[i];
        if ev.OrderDone? {
          var pair := (ev.orderNo, ev.doneSide);
          if pair in doneSides {
            continue;
          }
          doneSides := doneSides + {pair};
          dones := dones + [R.DoneEvent(ev.doneSide, ev.orderNo, ev.ts)];
        } else if ev.OrderNotice? && ev.rctf == "0" && ev.division.Some? {
          db.FillOrderDivision(Key(Date(ev.ts), ev.orderNo, ev.noticeSide), ev.division.value);
        }
      }
      assert evs[..|evs|] == evs;
    }

    method CollectLines(g: Grammar, lines: seq<T.Bytes>)
      modifies this`doneSides, this`dones, pairer, db
      ensures WD(State(), db.State()) == Collect(WD(old(State()), old(db.State())), g, lines)
    {
      var evs := Parsed(g, lines);
      CountEvents(evs);
      pairer.FeedEvents(evs);
      CountIgnoresPairer(old(State()), evs);
    }

    method ReleaseRows(trades: map<string, string>)
      modifies this`journalKeys, this`counted, this`rows, pairer, db
      ensures WD(State(), db.State()) == Release(WD(old(State()), old(db.State())), trades)
    {
      var orders, stops := pairer.Drain(false, trades);
      assert State() == old(State()).(p := P.Drained(old(State()).p, false));
      var sells := WriteRows(orders);
      WriteExits(stops, sells);
    }

    method TrackStops(o: S.Obs)
      modifies tracker, db
      ensures WD(State(), db.State()) == Track(WD(old(State()), old(db.State())), o)
    {
      var evs := tracker.See(o);
      WriteStops(evs);
    }

    method CommitChunk(end: T.Cursor, ts: Option<Time>) returns (ok: bool)
      modifies this`prevEnd, this`cursor, this`prevTs, db
      ensures (WD(State(), db.State()), ok) == Commit(WD(old(State()), old(db.State())), end, ts)
    {
      var target := if prevEnd.Some? then prevEnd.value else T.Cursor(end.inode, 0);
      ok := db.Save(target);
      if !ok {
        return;
      }
      prevEnd := Some(end);
      if ts.Some? {
        prevTs := ts;
      }
      cursor := Some(end);
    }

    method CompareCounts(upTo: Time)
      modifies this`lastResult
      ensures State() == old(State()).(lastResult := Some(Compared(old(State()), upTo)))
    {
      var keptDone, keptRows := R.CutoffSplit(dones, rows, upTo - R.MIN_AGE);
      lastResult := Some(R.Identities(keptDone, keptRows));
    }

    method ReconcileRows(now: Time, trades: Option<seq<R.TradeRow>>, upTo: Time)
      modifies this`lastReconcile, this`journalKeys, this`counted, this`rows, this`lastResult, db
      ensures WD(State(), db.State()) == Reconciled(WD(old(State()), old(db.State())), now, trades, upTo)
    {
      lastReconcile := Some(now);
      if trades.None? {
        return;
      }
      var news := R.RowsFromTradeHistory(trades.value, journalKeys, pairer.ExternalNoticeOrders(), upTo);
      assert pairer.ExternalNoticeOrders() == P.ExternalNotices(State().p);
      var sells := WriteRows(news);
      CompareCounts(upTo);
    }

    method FinishChunk(g: Grammar, env: Env, lines: seq<T.Bytes>, end: T.Cursor) returns (status: Status)
      modifies this`doneSides, this`dones, this`journalKeys, this`counted, this`rows, this`prevEnd, this`cursor,
               this`prevTs, this`lastReconcile, this`lastResult, pairer, tracker, db
      ensures (WD(State(), db.State()), status) == Finish(WD(old(State()), old(db.State())), g, env, lines, end)
    {
      var upTo := prevTs;
      Gather(g, env, lines);
      GatheredKeepsPrevTs(WD(old(State()), old(db.State())), g, env, lines);
      var ok := CommitChunk(end, LastLineTs(g, lines));
      if !ok {
        return Raised;
      }
      if ReconcileDue(State(), env.now, upTo, lines) {
        ReconcileRows(env.now, env.dayTrades, upTo.value);
      }
      return if Observation(env).g1.None? then Degraded else Active;
    }

    method Gather(g: Grammar, env: Env, lines: seq<T.Bytes>)
      modifies this`doneSides, this`dones, this`journalKeys, this`counted, this`rows, pairer, tracker, db
      ensures WD(State(), db.State()) == Gathered(WD(old(State()), old(db.State())), g, env, lines)
    {
      CollectLines(g, lines);
      ReleaseRows(StrategiesSeen(env.trades));
      TrackStops(Observation(env));
    }

    /** Started up if need be, and in the right day. */
    method GetReady(env: Env)
      modifies this`booted, this`cursor, this`prevEnd, this`tracker, this`day, this`dones, this`rows, this`journalKeys,
               this`doneSides, this`counted, this`lastResult
      ensures State() == Ready(WD(old(State()), old(db.State())), env)
      ensures tracker == old(tracker) || fresh(tracker)
    {
      if !booted {
        BootUp();
      }
      Roll(env.now);
    }

    method RotateOnce(g: Grammar, env: Env) returns (status: Status)
      modifies this, pairer, tracker, db
      ensures (WD(State(), db.State()), status) == Rotate(WD(old(State()), old(db.State())), g, env)
      ensures tracker == old(tracker) || fresh(tracker)
    {
      if !booted && env.bootFails {
        return Raised;
      }
      GetReady(env);
      if env.g0.Some? && (!env.g0.value.running || env.g0.value.phase == "idle") {
        return Idle;
      }
      status := LookAndRead(g, env);
    }

    /** Takes the snapshots, then reads the log. */
    method LookAndRead(g: Grammar, env: Env) returns (status: Status)
      modifies this`doneSides, this`dones, this`journalKeys, this`counted, this`rows, this`prevEnd, this`cursor,
               this`prevTs, this`lastReconcile, this`lastResult, pairer, tracker, db
      ensures (WD(State(), db.State()), status) == ReadOn(WD(Shown(old(State()), env), old(db.State())), g, env)
    {
      var o := Observation(env);
      pairer.TakeSnapshot(o.g0, o.g1, o.at);
      status := ReadLog(g, env);
    }

    method ReadLog(g: Grammar, env: Env) returns (status: Status)
      modifies this`doneSides, this`dones, this`journalKeys, this`counted, this`rows, this`prevEnd, this`cursor,
               this`prevTs, this`lastReconcile, this`lastResult, pairer, tracker, db
      ensures (WD(State(), db.State()), status) == ReadOn(WD(old(State()), old(db.State())), g, env)
    {
      match T.ReadChunk(env.dir, cursor, T.MAX_READ_BYTES)
      case Missing => status := Raised;
      case Chunk(lines, end) => status := FinishChunk(g, env, lines, end);
    }
  }

  lemma {:induction false} CountIgnoresPairer(w: WState, evs: seq<Event>)
    ensures CountDones(w, evs).p == w.p
  {
    if evs != [] { CountIgnoresPairer(w, evs[..|evs| - 1]); }
  }

  lemma {:induction false} WritingKeepsPrevTs(x: Written, rows: seq<Row>)
    ensures WriteAll(x, rows).w.prevTs == x.w.prevTs
  {
    if rows != [] { WritingKeepsPrevTs(x, rows[..|rows| - 1]); }
  }

  lemma {:induction false} CountingKeepsPrevTs(w: WState, evs: seq<Event>)
    ensures CountDones(w, evs).prevTs == w.prevTs
  {
    if evs != [] { CountingKeepsPrevTs(w, evs[..|evs| - 1]); }
  }

  lemma GatheredKeepsPrevTs(x: WD, g: Grammar, env: Env, lines: seq<T.Bytes>)
    ensures Gathered(x, g, env, lines).w.prevTs == x.w.prevTs
  {
    CountingKeepsPrevTs(x.w, Parsed(g, lines));
    var y := Collect(x, g, lines);
    WritingKeepsPrevTs(Written(y.w.(p := P.Drained(y.w.p, false)), y.d, {}),
                       P.RowsOf(y.w.p, P.Leaving(y.w.p, false), StrategiesSeen(env.trades)));
  }
}
