/** Whole runs of the worker: the log grows and rotates, saves fail, the process dies and restarts. */
module WorkerRuns {
  import opened Basics
  import opened Journal
  import opened JournalDb
  import opened Worker
  import P = Pairing
  import M = PairingPurge
  import R = Reconcile
  import S = Stops
  import T = Tailer

  // ---- lines and the orders they name ------------------------------------------------------

  /** The complete lines of a stretch of log. */
  function Lines(b: T.Bytes): seq<T.Bytes> { var pieces := T.Split(b); pieces[..|pieces| - 1] }

  /** A stretch that ends at a line boundary. */
  predicate Whole(b: T.Bytes) { b == [] || b[|b| - 1] == T.NEWLINE }

  /** The key of the order a line names: accept, manual sell and sell fallback lines name theirs. */
  function OwnKey(ev: Event): Option<Key> {
    if ev.BuyAccept? then Some(Key(Date(ev.ts), ev.orderNo, Buy))
    else if M.NamesOrder(ev) then Some(Key(Date(ev.ts), ev.orderNo, Sell))
    else None
  }

  function OwnKeys(evs: seq<Event>): set<Key> {
    if evs == [] then {}
    else
      var k := OwnKey(evs[|evs| - 1]);
      OwnKeys(evs[..|evs| - 1]) + (if k.Some? then {k.value} else {})
  }

  /** The orders named in a stretch of log. */
  function NamedIn(g: Grammar, b: T.Bytes): set<Key> { OwnKeys(Parsed(g, Lines(b))) }

  /** The keys of the rows that come from log lines; rows filled in from the trade history do not count. */
  function KeysOf(rows: seq<Row>): set<Key> { set r | r in rows && !IsEmpty(r.source) :: r.key }

  function AnchorKeys(anchors: seq<P.Anchor>): set<Key> { set a | a in anchors :: a.Key() }

  lemma FirstNewlineAt(l: T.Bytes, rest: T.Bytes)
    requires T.NEWLINE !in l
    ensures T.FirstNewline(l + [T.NEWLINE] + rest) == |l|
  {
    var b := l + [T.NEWLINE] + rest;
    forall k | 0 <= k < |l| ensures b[k] != T.NEWLINE {
      assert b[k] == l[k];
    }
    var i := T.FirstNewline(b);
    forall k | 0 <= k < i ensures b[k] != T.NEWLINE {
      assert b[..i][k] == b[k];
    }
    assert b[|l|] == T.NEWLINE;
  }

  /** Splitting joined lines gives them back, with nothing after the last newline. */
  lemma {:induction false} SplitUnlines(lines: seq<T.Bytes>)
    requires T.NewlineFree(lines)
    ensures T.Split(T.Unlines(lines)) == lines + [[]]
  {
    if lines != [] {
      var b, rest := T.Unlines(lines), T.Unlines(lines[1..]);
      FirstNewlineAt(lines[0], rest);
      assert b[..|lines[0]|] == lines[0] && b[|lines[0]| + 1..] == rest;
      SplitUnlines(lines[1..]);
      assert lines == [lines[0]] + lines[1..];
    }
  }

  lemma LinesOfUnlines(lines: seq<T.Bytes>)
    requires T.NewlineFree(lines)
    ensures Lines(T.Unlines(lines)) == lines
  {
    SplitUnlines(lines);
  }

  lemma {:induction false} UnlinesIsWhole(lines: seq<T.Bytes>)
    ensures Whole(T.Unlines(lines))
  {
    if lines != [] { UnlinesIsWhole(lines[1..]); }
  }

  /** A whole stretch is its lines joined. */
  lemma WholeIsUnlines(b: T.Bytes)
    requires Whole(b)
    ensures T.Unlines(Lines(b)) == b && T.NewlineFree(Lines(b))
  {
    T.SplitJoins(b);
    T.SplitIsNewlineFree(b);
    var r := T.Split(b);
    var last := r[|r| - 1];
    assert T.NEWLINE !in last;
  }

  /** Reading on from a line boundary adds the lines read. */
  lemma LinesExtend(b: T.Bytes, lines: seq<T.Bytes>)
    requires Whole(b) && T.NewlineFree(lines)
    ensures Lines(b + T.Unlines(lines)) == Lines(b) + lines && Whole(b + T.Unlines(lines))
  {
    WholeIsUnlines(b);
    T.UnlinesConcat(Lines(b), lines);
    LinesOfUnlines(Lines(b) + lines);
    UnlinesIsWhole(Lines(b) + lines);
  }

  lemma {:induction false} ParsedConcat(g: Grammar, a: seq<T.Bytes>, b: seq<T.Bytes>)
    ensures Parsed(g, a + b) == Parsed(g, a) + Parsed(g, b)
  {
    if b == [] {
      assert a + b == a;
    } else {
      assert (a + b)[..|a + b| - 1] == a + b[..|b| - 1];
      ParsedConcat(g, a, b[..|b| - 1]);
    }
  }

  lemma {:induction false} OwnKeysConcat(a: seq<Event>, b: seq<Event>)
    ensures OwnKeys(a + b) == OwnKeys(a) + OwnKeys(b)
  {
    if b == [] {
      assert a + b == a;
    } else {
      assert (a + b)[..|a + b| - 1] == a + b[..|b| - 1];
      OwnKeysConcat(a, b[..|b| - 1]);
    }
  }

  lemma NamedExtend(g: Grammar, b: T.Bytes, lines: seq<T.Bytes>)
    requires Whole(b) && T.NewlineFree(lines)
    ensures NamedIn(g, b + T.Unlines(lines)) == NamedIn(g, b) + OwnKeys(Parsed(g, lines))
    ensures Whole(b + T.Unlines(lines))
  {
    LinesExtend(b, lines);
    ParsedConcat(g, Lines(b), lines);
    OwnKeysConcat(Parsed(g, Lines(b)), Parsed(g, lines));
  }

  // ---- the tables during a rotation ----------------------------------------------------------

  /** What any statements do to the tables: nothing offered is unoffered, the saved cursor stays, and a
      process still alive at the end was alive before. */
  ghost predicate Later(d: Db, d': Db) {
    && KeysOf(d.offered) <= KeysOf(d'.offered) && d'.cursor == d.cursor && d'.dying == d.dying
    && (Alive(d') ==> Alive(d)) && (NeverSent !in d.faults ==> NeverSent !in d'.faults)
  }

  lemma OfferedMore(a: seq<Row>, r: Row)
    ensures KeysOf(a) <= KeysOf(a + [r]) && (!IsEmpty(r.source) ==> r.key in KeysOf(a + [r]))
  {
    assert r in a + [r];
    forall x | x in a && !IsEmpty(x.source) ensures x.key in KeysOf(a + [r]) {
      assert x in a + [r];
    }
  }

  lemma InsertLater(d: Db, row: Row)
    ensures Later(d, Insert(d, row).0)
    ensures Alive(d) && NeverSent !in d.faults && !IsEmpty(row.source) ==> row.key in KeysOf(Insert(d, row).0.offered)
  {
    OfferedMore(d.offered, row);
  }

  lemma WriteRowLater(d: Db, row: Row)
    ensures Later(d, WriteRow(d, row).0)
    ensures Alive(d) && NeverSent !in d.faults && !IsEmpty(row.source) ==> row.key in KeysOf(WriteRow(d, row).0.offered)
  {
    InsertLater(d, row);
  }

  /** Writing offers every row of a log line, if the process lives. */
  lemma {:induction false} WriteAllLater(x: Written, rows: seq<Row>)
    ensures Later(x.d, WriteAll(x, rows).d)
    ensures Alive(WriteAll(x, rows).d) && NeverSent !in x.d.faults
            ==> KeysOf(rows) <= KeysOf(WriteAll(x, rows).d.offered)
  {
    if rows != [] {
      var pre, row := rows[..|rows| - 1], rows[|rows| - 1];
      WriteAllLater(x, pre);
      WriteRowLater(WriteAll(x, pre).d, row);
      assert rows == pre + [row];
      assert KeysOf(rows) == KeysOf(pre) + KeysOf([row]);
    }
  }

  lemma {:induction false} FillAllLater(d: Db, evs: seq<Event>)
    ensures Later(d, FillAll(d, evs))
  {
    if evs != [] { FillAllLater(d, evs[..|evs| - 1]); }
  }

  lemma {:induction false} AddStopsLater(d: Db, evs: seq<StopEvent>)
    ensures Later(d, AddStops(d, evs))
  {
    if evs != [] { AddStopsLater(d, evs[..|evs| - 1]); }
  }

  /** The row of an anchor has its key, and a live pairer's rows come from log lines. */
  lemma RowOfAnchor(m: P.Memory, a: P.Anchor, trades: map<string, string>)
    requires m.source == LogHarvest
    ensures var row := P.Finalize(m, a, trades); row.key == a.Key() && !IsEmpty(row.source)
  {
  }

  lemma RowsKeys(m: P.Memory, pending: seq<P.Anchor>, trades: map<string, string>)
    requires m.source == LogHarvest
    ensures KeysOf(P.RowsOf(m, pending, trades)) == AnchorKeys(pending)
  {
    var rows := P.RowsOf(m, pending, trades);
    forall i | 0 <= i < |pending| ensures rows[i].key == pending[i].Key() && !IsEmpty(rows[i].source) {
      RowOfAnchor(m, pending[i], trades);
    }
    KeysAreAnchors(rows, pending);
  }

  lemma KeysAreAnchors(rows: seq<Row>, pending: seq<P.Anchor>)
    requires |rows| == |pending|
    requires forall i :: 0 <= i < |rows| ==> rows[i].key == pending[i].Key() && !IsEmpty(rows[i].source)
    ensures KeysOf(rows) == AnchorKeys(pending)
  {
    forall a | a in pending ensures a.Key() in KeysOf(rows) {
      var i :| 0 <= i < |pending| && pending[i] == a;
      assert rows[i] in rows;
    }
    forall r | r in rows ensures r.key in AnchorKeys(pending) {
      var i :| 0 <= i < |rows| && rows[i] == r;
      assert pending[i] in pending;
    }
  }

  // ---- the pairer during a rotation ----------------------------------------------------------

  lemma PurgeKeepsIncoming(m: P.Memory, ts: Time)
    ensures var m' := P.Purge(m, ts); m'.incoming == m.incoming && m'.ready == m.ready && m'.source == m.source
  {
    M.PurgeKeepsCore(m, ts);
  }

  /** What hearing a line does to the anchors. */
  ghost predicate Brings(m: P.Memory, m': P.Memory, ev: Event) {
    && m.incoming <= m'.incoming && m'.ready == m.ready && m'.source == m.source
    && (OwnKey(ev).Some? ==> |m'.incoming| > 0 && m'.incoming[|m'.incoming| - 1].Key() == OwnKey(ev).value)
  }

  lemma NamingBringsKey(m: P.Memory, ev: Event)
    requires M.NamesOrder(ev)
    ensures Brings(m, P.Hear(m, ev), ev)
  {
  }

  lemma ClaimBrings(m: P.Memory, ev: Event)
    requires M.Claims(ev)
    ensures Brings(m, P.Hear(m, ev), ev)
  {
  }

  lemma HearBrings(m: P.Memory, ev: Event)
    ensures Brings(m, P.Hear(m, ev), ev)
  {
    if M.NamesOrder(ev) {
      NamingBringsKey(m, ev);
    } else if M.Claims(ev) {
      ClaimBrings(m, ev);
    } else {
      M.OtherListens(m, ev);
    }
  }

  /** Every order a line names stands as an anchor after it is fed. */
  lemma FeedBrings(m: P.Memory, ev: Event)
    ensures var m' := P.Feed(m, ev);
            && m.incoming <= m'.incoming && m'.ready == m.ready && m'.source == m.source
            && OwnKeys([ev]) <= AnchorKeys(m'.incoming)
  {
    PurgeKeepsIncoming(m, ev.ts);
    HearBrings(P.Purge(m, ev.ts), ev);
    var m' := P.Feed(m, ev);
    assert [ev][..0] == [];
    if OwnKey(ev).Some? { assert m'.incoming[|m'.incoming| - 1] in m'.incoming; }
  }

  lemma AnchorKeysGrow(a: seq<P.Anchor>, b: seq<P.Anchor>)
    requires a <= b
    ensures AnchorKeys(a) <= AnchorKeys(b)
  {
    forall x | x in a ensures x in b {
      var i :| 0 <= i < |a| && a[i] == x;
      assert b[i] == x;
    }
  }

  lemma {:induction false} FeedAllBrings(m: P.Memory, evs: seq<Event>)
    ensures var m' := P.FeedAll(m, evs);
            && m.incoming <= m'.incoming && m'.ready == m.ready && m'.source == m.source
            && OwnKeys(evs) <= AnchorKeys(m'.incoming)
  {
    if evs != [] {
      var pre, ev := evs[..|evs| - 1], evs[|evs| - 1];
      FeedAllBrings(m, pre);
      var m1 := P.FeedAll(m, pre);
      FeedBrings(m1, ev);
      AnchorKeysGrow(m1.incoming, P.Feed(m1, ev).incoming);
      OwnKeysConcat(pre, [ev]);
      assert evs == pre + [ev];
    }
  }

  // ---- one rotation --------------------------------------------------------------------------

  /** What the phases up to the save do: the orders the lines name are held; the orders held before
      have been offered, if the process lives. */
  ghost predicate Handed(x: WD, y: WD, evs: seq<Event>) {
    && Later(x.d, y.d)
    && (Alive(y.d) && NeverSent !in x.d.faults ==> AnchorKeys(x.w.p.ready) <= KeysOf(y.d.offered))
    && OwnKeys(evs) <= AnchorKeys(y.w.p.ready) && y.w.p.incoming == [] && y.w.p.source == x.w.p.source
    && y.w.cursor == x.w.cursor && y.w.prevEnd == x.w.prevEnd && y.w.booted == x.w.booted
  }

  ghost predicate SameCursors(w: WState, w': WState) {
    w'.cursor == w.cursor && w'.prevEnd == w.prevEnd && w'.booted == w.booted
  }

  lemma {:induction false} CountKeepsCursors(w: WState, evs: seq<Event>)
    ensures SameCursors(w, CountDones(w, evs))
  {
    if evs != [] { CountKeepsCursors(w, evs[..|evs| - 1]); }
  }

  lemma {:induction false} WriteKeepsCursors(x: Written, rows: seq<Row>)
    ensures SameCursors(x.w, WriteAll(x, rows).w) && WriteAll(x, rows).w.p == x.w.p
  {
    if rows != [] { WriteKeepsCursors(x, rows[..|rows| - 1]); }
  }

  lemma CollectHands(x: WD, g: Grammar, lines: seq<T.Bytes>)
    requires x.w.p.incoming == []
    ensures var y := Collect(x, g, lines);
            && Later(x.d, y.d) && SameCursors(x.w, y.w) && y.w.p.source == x.w.p.source
            && y.w.p.ready == x.w.p.ready && OwnKeys(Parsed(g, lines)) <= AnchorKeys(y.w.p.incoming)
  {
    var evs := Parsed(g, lines);
    CountKeepsCursors(x.w, evs);
    FillAllLater(x.d, evs);
    FeedAllBrings(x.w.p, evs);
  }

  lemma ReleaseHands(x: WD, trades: map<string, string>)
    requires x.w.p.source == LogHarvest
    ensures var y := Release(x, trades);
            && Later(x.d, y.d) && SameCursors(x.w, y.w) && y.w.p == P.Drained(x.w.p, false)
            && (Alive(y.d) && NeverSent !in x.d.faults ==> AnchorKeys(x.w.p.ready) <= KeysOf(y.d.offered))
  {
    var leaving := P.Leaving(x.w.p, false);
    var rows := P.RowsOf(x.w.p, leaving, trades);
    var start := Written(x.w.(p := P.Drained(x.w.p, false)), x.d, {});
    var out := WriteAll(start, rows);
    WriteAllLater(start, rows);
    WriteKeepsCursors(start, rows);
    RowsKeys(x.w.p, leaving, trades);
    AddStopsLater(out.d, OfFresh(P.StopsOf(leaving), out.sells));
  }

  lemma TrackHands(x: WD, o: S.Obs)
    ensures var y := Track(x, o); Later(x.d, y.d) && y.w == x.w.(t := y.w.t)
  {
    AddStopsLater(x.d, S.Observe(x.w.t, o).1);
  }

  lemma GatherHands(x: WD, g: Grammar, env: Env, lines: seq<T.Bytes>)
    requires x.w.p.incoming == [] && x.w.p.source == LogHarvest
    ensures Handed(x, Gathered(x, g, env, lines), Parsed(g, lines))
  {
    var y := Collect(x, g, lines);
    CollectHands(x, g, lines);
    var z := Release(y, StrategiesSeen(env.trades));
    ReleaseHands(y, StrategiesSeen(env.trades));
    TrackHands(z, Observation(env));
  }

  /** What a rotation that read a chunk leaves behind, from the worker `w` that read it. */
  ghost predicate Rotated(w: WState, d: Db, y: WD, evs: seq<Event>, end: T.Cursor) {
    && KeysOf(d.offered) <= KeysOf(y.d.offered)
    && y.w.booted == w.booted && y.w.p.incoming == [] && y.w.p.source == w.p.source
    // the saved cursor either stays or becomes the end of the chunk before this one, with its orders offered
    && (y.d.cursor == d.cursor || (y.d.cursor == Some(Target(w, end)) && AnchorKeys(w.p.ready) <= KeysOf(y.d.offered)))
    // a living worker either keeps its place or moves on, having offered what it held and holding what it read
    && (!d.dying ==>
          && AnchorKeys(w.p.ready) <= KeysOf(y.d.offered)
          && ((y.w.cursor == w.cursor && y.w.prevEnd == w.prevEnd)
              || (y.w.cursor == y.w.prevEnd == Some(end) && OwnKeys(evs) <= AnchorKeys(y.w.p.ready)
                  && y.d.cursor == Some(Target(w, end)))))
  }

  lemma ReconcileHands(x: WD, now: Time, trades: Option<seq<R.TradeRow>>, upTo: Time)
    ensures var y := Reconciled(x, now, trades, upTo);
            Later(x.d, y.d) && SameCursors(x.w, y.w) && y.w.p == x.w.p
  {
    var w := x.w.(lastReconcile := Some(now));
    if trades.Some? {
      var rows := R.HistoryRows(trades.value, w.journalKeys, P.ExternalNotices(w.p), upTo);
      WriteAllLater(Written(w, x.d, {}), rows);
      WriteKeepsCursors(Written(w, x.d, {}), rows);
    }
  }

  /** The save itself: an error leaves the worker where it was; only a statement that was sent moves
      the saved cursor. */
  lemma CommitSaves(x: WD, end: T.Cursor, ts: Option<Time>)
    ensures var (y, ok) := Commit(x, end, ts);
            && y.d.offered == x.d.offered && y.d.dying == x.d.dying && y.w.p == x.w.p && y.w.booted == x.w.booted
            && (y.d.cursor == x.d.cursor || y.d.cursor == Some(Target(x.w, end)))
            && (!ok ==> y.w == x.w)
            && (ok ==> y.d.cursor == Some(Target(x.w, end)) && y.w.cursor == y.w.prevEnd == Some(end))
            && (!Alive(x.d) ==> y.d.cursor == x.d.cursor && !ok)
  {
  }

  lemma FinishRotates(w: WState, d: Db, g: Grammar, env: Env, lines: seq<T.Bytes>, end: T.Cursor)
    requires w.p.incoming == [] && w.p.source == LogHarvest && NeverSent !in d.faults
    ensures Rotated(w, d, Finish(WD(w, d), g, env, lines, end).0, Parsed(g, lines), end)
  {
    var x := Gathered(WD(w, d), g, env, lines);
    GatherHands(WD(w, d), g, env, lines);
    var (y, ok) := Commit(x, end, LastLineTs(g, lines));
    CommitSaves(x, end, LastLineTs(g, lines));
    if ok && ReconcileDue(y.w, env.now, w.prevTs, lines) { ReconcileHands(y, env.now, env.dayTrades, w.prevTs.value); }
  }

  // ---- runs ----------------------------------------------------------------------------------

  datatype Step =
    | Append(bytes: T.Bytes)
    | RotateLog(inode: int)
    | Rotation(env: Env, faults: seq<Fault>, dies: bool)
    | Crash

  /** The log, the tables, the worker, and where in the log the first saved cursor stood. */
  datatype Run = Run(log: T.Log, d: Db, w: WState, origin: Option<nat>)

  /** Where the next read starts. */
  function ReadFrom(s: Run): Option<T.Cursor> { if s.w.booted then s.w.cursor else s.d.cursor }

  /** The log rotates only when both cursors have reached the live file, and the directory shows the
      file the reader is in. */
  ghost predicate Enabled(s: Run, step: Step) {
    match step
    case Append(_) => true
    case RotateLog(inode) =>
      && (forall f :: f in s.log ==> f.inode != inode)
      && (s.d.cursor.Some? ==> T.In(s.log, s.d.cursor.value, |s.log| - 1))
      && (ReadFrom(s).Some? ==> T.In(s.log, ReadFrom(s).value, |s.log| - 1))
    case Rotation(env, faults, _) => NeverSent !in faults && T.Shows(s.log, env.dir, ReadFrom(s))
    case Crash => true
  }

  /** The journal begins where the first saved cursor stands, and that never moves. */
  function NextOrigin(s: Run, d': Db): Option<nat> {
    if s.origin.Some? || d'.cursor.None? || !T.Recent(s.log, d'.cursor.value) then s.origin
    else Some(T.Pos(s.log, d'.cursor.value))
  }

  /** The rotation of a worker, as a step of a run. */
  function WorkerRotation(g: Grammar): (WD, Env) -> WD { (x: WD, env: Env) => Rotate(x, g, env).0 }

  function Next(s: Run, rotate: (WD, Env) -> WD, step: Step): (r: Run)
    requires s.log != []
    ensures r.log != []
  {
    match step
    case Append(bytes) => s.(log := T.Appended(s.log, bytes))
    case RotateLog(inode) => s.(log := s.log + [T.File(inode, [])])
    case Rotation(env, faults, dies) =>
      var y := rotate(WD(s.w, s.d.(faults := faults, dying := dies)), env);
      Run(s.log, y.d, if dies then Start() else y.w, NextOrigin(s, y.d))
    case Crash => s.(w := Start())
  }

  lemma NextRotates(s: Run, g: Grammar, env: Env, faults: seq<Fault>, dies: bool)
    requires s.log != []
    ensures var y := Rotate(WD(s.w, s.d.(faults := faults, dying := dies)), g, env).0;
            Next(s, WorkerRotation(g), Rotation(env, faults, dies))
            == Run(s.log, y.d, if dies then Start() else y.w, NextOrigin(s, y.d))
  {
  }

  /** A rotation that is neither idle nor fails to start up reads the log. */
  lemma NextReads(s: Run, g: Grammar, env: Env, faults: seq<Fault>, dies: bool)
    requires s.log != [] && (s.w.booted || !env.bootFails) && !IsIdle(env.g0)
    ensures var d := s.d.(faults := faults, dying := dies);
            var y := ReadOn(WD(Shown(Ready(WD(s.w, d), env), env), d), g, env).0;
            Next(s, WorkerRotation(g), Rotation(env, faults, dies))
            == Run(s.log, y.d, if dies then Start() else y.w, NextOrigin(s, y.d))
  {
  }

  function RunAll(s: Run, rotate: (WD, Env) -> WD, steps: seq<Step>): (r: Run)
    requires s.log != []
    ensures r.log != []
  {
    if steps == [] then s else Next(RunAll(s, rotate, steps[..|steps| - 1]), rotate, steps[|steps| - 1])
  }

  ghost predicate AllEnabled(s: Run, rotate: (WD, Env) -> WD, steps: seq<Step>)
    requires s.log != []
  {
    forall n :: 0 <= n < |steps| ==> EnabledAt(s, rotate, steps, n)
  }

  ghost predicate EnabledAt(s: Run, rotate: (WD, Env) -> WD, steps: seq<Step>, n: int)
    requires s.log != [] && 0 <= n < |steps|
  {
    Enabled(RunAll(s, rotate, steps[..n]), steps[n])
  }

  /** A saved cursor has been taken up by the worker that runs, if one runs. A save that took effect but
      raised leaves a saved cursor the worker does not have. */
  predicate TakenUp(s: Run) { s.d.cursor.Some? ==> ReadFrom(s).Some? }

  /** The log rotates only while the saved cursor, if there is one, is taken up. */
  predicate Careful(s: Run, rotate: (WD, Env) -> WD, steps: seq<Step>)
    requires s.log != []
  {
    forall n :: 0 <= n < |steps| ==> CarefulAt(s, rotate, steps, n)
  }

  predicate CarefulAt(s: Run, rotate: (WD, Env) -> WD, steps: seq<Step>, n: int)
    requires s.log != [] && 0 <= n < |steps|
  {
    steps[n].RotateLog? ==> TakenUp(RunAll(s, rotate, steps[..n]))
  }

  // ---- what every run keeps --------------------------------------------------------------------

  /** The log between the origin and a cursor. */
  function Passed(s: Run, c: T.Cursor): T.Bytes
    requires T.Recent(s.log, c)
  {
    if s.origin.Some? && s.origin.value <= T.Pos(s.log, c) <= |T.Stream(s.log)|
    then T.Stream(s.log)[s.origin.value..T.Pos(s.log, c)] else []
  }

  /** A cursor at a line boundary, with every order named between the origin and it in `keys`. */
  ghost predicate Covered(s: Run, g: Grammar, c: T.Cursor, keys: set<Key>) {
    && T.Recent(s.log, c) && s.origin.Some? && s.origin.value <= T.Pos(s.log, c) <= |T.Stream(s.log)|
    && Whole(Passed(s, c)) && NamedIn(g, Passed(s, c)) <= keys
  }

  /** The start of the live file. */
  function LiveStart(log: T.Log): T.Cursor
    requires log != []
  {
    T.Cursor(log[|log| - 1].inode, 0)
  }

  /** A worker that reads, or will read, from the start of the live file: any saved cursor stands there
      too, and the journal begins there. */
  ghost predicate AtLiveStart(s: Run)
    requires s.log != []
  {
    s.d.cursor.Some? ==> s.d.cursor.value == LiveStart(s.log) && s.origin == Some(T.Start(s.log, |s.log| - 1))
  }

  ghost predicate Safe(s: Run, g: Grammar) {
    && T.GoodLog(s.log)
    && (s.d.cursor.None? ==> s.origin.None?)
    && (s.d.cursor.Some? ==> Covered(s, g, s.d.cursor.value, KeysOf(s.d.offered)))
    && (!s.w.booted ==> s.w == Start())
    && (s.w.booted ==>
          && s.w.prevEnd == s.w.cursor && s.w.p.incoming == [] && s.w.p.source == LogHarvest
          && (s.w.cursor.None? ==> AtLiveStart(s))
          && (s.w.cursor.Some? ==>
                s.d.cursor.Some? && Covered(s, g, s.w.cursor.value, KeysOf(s.d.offered) + AnchorKeys(s.w.p.ready))))
  }

  lemma AppendCovers(s: Run, g: Grammar, bytes: T.Bytes, c: T.Cursor, keys: set<Key>)
    requires T.GoodLog(s.log) && Covered(s, g, c, keys)
    ensures Covered(s.(log := T.Appended(s.log, bytes)), g, c, keys)
  {
    T.AppendKeeps(s.log, bytes);
    T.AppendKeepsPos(s.log, bytes, c);
    var log' := T.Appended(s.log, bytes);
    assert Passed(s.(log := log'), c) == Passed(s, c);
  }

  lemma AppendKeepsLiveStart(log: T.Log, bytes: T.Bytes)
    requires T.GoodLog(log)
    ensures var log' := T.Appended(log, bytes);
            log' != [] && LiveStart(log') == LiveStart(log) && T.Start(log', |log'| - 1) == T.Start(log, |log| - 1)
  {
    T.AppendKeepsPos(log, bytes, LiveStart(log));
  }

  lemma RotateLogCovers(s: Run, g: Grammar, inode: int, c: T.Cursor, keys: set<Key>)
    requires T.GoodLog(s.log) && Covered(s, g, c, keys)
    requires T.In(s.log, c, |s.log| - 1) && forall f :: f in s.log ==> f.inode != inode
    ensures Covered(s.(log := s.log + [T.File(inode, [])]), g, c, keys)
  {
    T.RotateKeeps(s.log, inode);
    T.RotateKeepsPos(s.log, inode, c);
  }

  /** Reading on extends what is covered by the orders the lines name. */
  lemma ReadCovers(s: Run, g: Grammar, c: T.Cursor, keys: set<Key>, lines: seq<T.Bytes>, end: T.Cursor, more: set<Key>)
    requires Covered(s, g, c, keys) && T.Advances(s.log, c, lines, end)
    requires OwnKeys(Parsed(g, lines)) <= more
    ensures Covered(s, g, end, keys + more)
  {
    T.JoinSlices(T.Stream(s.log), s.origin.value, T.Pos(s.log, c), T.Pos(s.log, end));
    assert Passed(s, end) == Passed(s, c) + T.Unlines(lines);
    NamedExtend(g, Passed(s, c), lines);
  }

  lemma CoveredMore(s: Run, g: Grammar, c: T.Cursor, keys: set<Key>, more: set<Key>)
    requires Covered(s, g, c, keys) && keys <= more
    ensures Covered(s, g, c, more)
  {
  }

  /** Nothing is named in an empty stretch. */
  lemma OriginCovered(s: Run, g: Grammar, keys: set<Key>)
    requires T.GoodLog(s.log) && s.origin == Some(T.Start(s.log, |s.log| - 1))
    ensures Covered(s, g, LiveStart(s.log), keys)
  {
    var c := LiveStart(s.log);
    T.PosLive(s.log, c);
    T.StreamSlice(s.log, |s.log| - 1, 0, 0);
    assert Passed(s, c) == [];
    LinesOfUnlines([]);
  }

  // ---- a rotation keeps it -----------------------------------------------------------------------

  /** What the worker has when it reads: its own state, or a fresh one started from the saved cursor. */
  ghost predicate Readied(s: Run, w: WState) {
    && w.booted && w.cursor == w.prevEnd == ReadFrom(s) && w.p.incoming == [] && w.p.source == LogHarvest
    && w.p.ready == (if s.w.booted then s.w.p.ready else [])
  }

  /** The tables at the start of a rotation. */
  ghost predicate Opened(s: Run, d: Db, dies: bool) {
    d.cursor == s.d.cursor && d.offered == s.d.offered && d.dying == dies
  }

  lemma ReadyIsReadied(s: Run, g: Grammar, env: Env, d: Db)
    requires Safe(s, g) && d.cursor == s.d.cursor
    ensures Readied(s, Ready(WD(s.w, d), env))
  {
  }

  lemma ShownIsReadied(s: Run, w: WState, env: Env)
    requires Readied(s, w)
    ensures Readied(s, Shown(w, env))
  {
  }

  lemma ReadyWorker(s: Run, g: Grammar, env: Env, d: Db)
    requires Safe(s, g) && d.cursor == s.d.cursor
    ensures Readied(s, Ready(WD(s.w, d), env)) && Readied(s, Shown(Ready(WD(s.w, d), env), env))
  {
    ReadyIsReadied(s, g, env, d);
    ShownIsReadied(s, Ready(WD(s.w, d), env), env);
  }

  /** Where the worker reads from is covered by what is offered and what it holds. */
  lemma ReadFromCovered(s: Run, g: Grammar, ready: seq<P.Anchor>)
    requires Safe(s, g) && ReadFrom(s).Some? && ready == (if s.w.booted then s.w.p.ready else [])
    ensures Covered(s, g, ReadFrom(s).value, KeysOf(s.d.offered) + AnchorKeys(ready))
  {
    if !s.w.booted {
      CoveredMore(s, g, s.d.cursor.value, KeysOf(s.d.offered), KeysOf(s.d.offered) + AnchorKeys(ready));
    }
  }

  /** A rotation from a cursor keeps both cursors covered. */
  lemma ResumedIsSafe(s: Run, g: Grammar, w: WState, d: Db, y: WD, lines: seq<T.Bytes>, end: T.Cursor, dies: bool)
    requires Safe(s, g) && Opened(s, d, dies) && Readied(s, w) && ReadFrom(s).Some?
    requires Rotated(w, d, y, Parsed(g, lines), end) && T.Advances(s.log, w.cursor.value, lines, end)
    ensures Safe(Run(s.log, y.d, if dies then Start() else y.w, s.origin), g)
  {
    var c, s' := w.cursor.value, Run(s.log, y.d, if dies then Start() else y.w, s.origin);
    ReadFromCovered(s, g, w.p.ready);
    var kept := KeysOf(s.d.offered) + AnchorKeys(w.p.ready);
    if y.d.cursor == d.cursor {
      CoveredMore(s', g, y.d.cursor.value, KeysOf(s.d.offered), KeysOf(y.d.offered));
    } else {
      CoveredMore(s', g, c, kept, KeysOf(y.d.offered));
    }
    if !dies {
      CoveredMore(s', g, c, kept, KeysOf(y.d.offered));
      if y.w.cursor == w.cursor {
        CoveredMore(s', g, c, kept, KeysOf(y.d.offered) + AnchorKeys(y.w.p.ready));
      } else {
        ReadCovers(s', g, c, KeysOf(y.d.offered), lines, end, AnchorKeys(y.w.p.ready));
      }
    }
  }

  /** A rotation without a cursor begins at the start of the live file. */
  lemma BegunIsSafe(s: Run, g: Grammar, w: WState, d: Db, y: WD, lines: seq<T.Bytes>, end: T.Cursor, dies: bool)
    requires Safe(s, g) && Opened(s, d, dies) && Readied(s, w) && ReadFrom(s).None?
    requires Rotated(w, d, y, Parsed(g, lines), end)
    requires T.Advances(s.log, LiveStart(s.log), lines, end) && Target(w, end) == LiveStart(s.log)
    ensures Safe(Run(s.log, y.d, if dies then Start() else y.w, NextOrigin(s, y.d)), g)
  {
    var c, s' := LiveStart(s.log), Run(s.log, y.d, if dies then Start() else y.w, NextOrigin(s, y.d));
    T.PosLive(s.log, c);
    if y.d.cursor.Some? {
      assert y.d.cursor.value == c && s'.origin == Some(T.Start(s.log, |s.log| - 1));
      OriginCovered(s', g, KeysOf(y.d.offered));
      if !dies && y.w.cursor.Some? { ReadCovers(s', g, c, KeysOf(y.d.offered), lines, end, AnchorKeys(y.w.p.ready)); }
    }
  }

  lemma FirstReadStaysLive(s: Run, dir: T.Dir)
    requires T.GoodLog(s.log) && T.Shows(s.log, dir, None)
    ensures var r := T.ReadChunk(dir, None, T.MAX_READ_BYTES); r.Chunk? && r.cursor.inode == LiveStart(s.log).inode
  {
  }

  lemma RotationIsSafe(s: Run, g: Grammar, env: Env, faults: seq<Fault>, dies: bool)
    requires Safe(s, g) && Enabled(s, Rotation(env, faults, dies))
    ensures Safe(Next(s, WorkerRotation(g), Rotation(env, faults, dies)), g)
  {
    RotateIsSafe(s, g, env, s.d.(faults := faults, dying := dies), dies);
  }

  lemma RotateIsSafe(s: Run, g: Grammar, env: Env, d: Db, dies: bool)
    requires Safe(s, g) && Opened(s, d, dies)
    requires NeverSent !in d.faults && T.Shows(s.log, env.dir, ReadFrom(s))
    ensures var y := Rotate(WD(s.w, d), g, env).0;
            Safe(Run(s.log, y.d, if dies then Start() else y.w, NextOrigin(s, y.d)), g)
  {
    if !s.w.booted && env.bootFails {
      RaisedIsSafe(s, g, d, dies);
    } else if IsIdle(env.g0) {
      ReadyWorker(s, g, env, d);
      IdleIsSafe(s, g, Ready(WD(s.w, d), env), d, dies);
    } else {
      ReadIsSafe(s, g, env, d, dies);
    }
  }

  lemma SameOrigin(s: Run, g: Grammar, d: Db)
    requires Safe(s, g) && d.cursor == s.d.cursor
    ensures NextOrigin(s, d) == s.origin
  {
  }

  /** A start-up that fails changes nothing. */
  lemma RaisedIsSafe(s: Run, g: Grammar, d: Db, dies: bool)
    requires Safe(s, g) && !s.w.booted && Opened(s, d, dies)
    ensures Safe(Run(s.log, d, if dies then Start() else s.w, NextOrigin(s, d)), g)
  {
    SameOrigin(s, g, d);
  }

  lemma ReadIsSafe(s: Run, g: Grammar, env: Env, d: Db, dies: bool)
    requires Safe(s, g) && Opened(s, d, dies)
    requires NeverSent !in d.faults && T.Shows(s.log, env.dir, ReadFrom(s))
    ensures var y := ReadOn(WD(Shown(Ready(WD(s.w, d), env), env), d), g, env).0;
            Safe(Run(s.log, y.d, if dies then Start() else y.w, NextOrigin(s, y.d)), g)
  {
    ReadyWorker(s, g, env, d);
    var w := Shown(Ready(WD(s.w, d), env), env);
    if w.cursor.None? { FirstReadIsSafe(s, g, env, w, d, dies); } else { NextReadIsSafe(s, g, env, w, d, dies); }
  }

  lemma FirstReadIsSafe(s: Run, g: Grammar, env: Env, w: WState, d: Db, dies: bool)
    requires Safe(s, g) && Opened(s, d, dies) && Readied(s, w) && ReadFrom(s).None?
    requires NeverSent !in d.faults && T.Shows(s.log, env.dir, ReadFrom(s))
    ensures var y := ReadOn(WD(w, d), g, env).0;
            Safe(Run(s.log, y.d, if dies then Start() else y.w, NextOrigin(s, y.d)), g)
  {
    var chunk := T.ReadChunk(env.dir, w.cursor, T.MAX_READ_BYTES);
    FirstReadStaysLive(s, env.dir);
    T.FirstReadAdvances(s.log, env.dir, T.MAX_READ_BYTES);
    FinishRotates(w, d, g, env, chunk.lines, chunk.cursor);
    BegunIsSafe(s, g, w, d, ReadOn(WD(w, d), g, env).0, chunk.lines, chunk.cursor, dies);
  }

  lemma NextReadIsSafe(s: Run, g: Grammar, env: Env, w: WState, d: Db, dies: bool)
    requires Safe(s, g) && Opened(s, d, dies) && Readied(s, w) && ReadFrom(s).Some?
    requires NeverSent !in d.faults && T.Shows(s.log, env.dir, ReadFrom(s))
    ensures var y := ReadOn(WD(w, d), g, env).0;
            Safe(Run(s.log, y.d, if dies then Start() else y.w, NextOrigin(s, y.d)), g)
  {
    var chunk := T.ReadChunk(env.dir, w.cursor, T.MAX_READ_BYTES);
    ReadFromCovered(s, g, w.p.ready);
    T.ReadAdvances(s.log, env.dir, w.cursor.value, T.MAX_READ_BYTES);
    FinishRotates(w, d, g, env, chunk.lines, chunk.cursor);
    ResumedIsSafe(s, g, w, d, ReadOn(WD(w, d), g, env).0, chunk.lines, chunk.cursor, dies);
  }

  /** An idle rotation reads nothing; at most it starts the worker up. */
  lemma IdleIsSafe(s: Run, g: Grammar, w: WState, d: Db, dies: bool)
    requires Safe(s, g) && Opened(s, d, dies) && Readied(s, w)
    ensures Safe(Run(s.log, d, if dies then Start() else w, NextOrigin(s, d)), g)
  {
    SameOrigin(s, g, d);
    if ReadFrom(s).Some? {
      ReadFromCovered(s, g, w.p.ready);
      StartedIsSafe(s, g, w, d, dies);
    } else {
      UnstartedIsSafe(s, g, w, d, dies);
    }
  }

  /** The worker started up at the saved cursor, or still running. */
  lemma StartedIsSafe(s: Run, g: Grammar, w: WState, d: Db, dies: bool)
    requires Safe(s, g) && Opened(s, d, dies) && Readied(s, w) && ReadFrom(s).Some?
    requires Covered(s, g, ReadFrom(s).value, KeysOf(s.d.offered) + AnchorKeys(w.p.ready))
    ensures Safe(Run(s.log, d, if dies then Start() else w, s.origin), g)
  {
    var s' := Run(s.log, d, if dies then Start() else w, s.origin);
    CoveredAlike(s, s', g, ReadFrom(s).value, KeysOf(s.d.offered) + AnchorKeys(w.p.ready));
    CoveredAlike(s, s', g, s.d.cursor.value, KeysOf(s.d.offered));
  }

  lemma CoveredAlike(s: Run, s': Run, g: Grammar, c: T.Cursor, keys: set<Key>)
    requires s'.log == s.log && s'.origin == s.origin && Covered(s, g, c, keys)
    ensures Covered(s', g, c, keys)
  {
  }

  lemma UnstartedIsSafe(s: Run, g: Grammar, w: WState, d: Db, dies: bool)
    requires Safe(s, g) && Opened(s, d, dies) && Readied(s, w) && ReadFrom(s).None?
    ensures Safe(Run(s.log, d, if dies then Start() else w, s.origin), g)
  {
    var s' := Run(s.log, d, if dies then Start() else w, s.origin);
    if s.d.cursor.Some? { CoveredAlike(s, s', g, s.d.cursor.value, KeysOf(s.d.offered)); }
  }

  // ---- whole runs --------------------------------------------------------------------------------

  /** Rotations that keep every run safe. */
  ghost predicate KeepsSafe(rotate: (WD, Env) -> WD, g: Grammar) {
    forall s: Run, env: Env, faults: seq<Fault>, dies: bool ::
      Safe(s, g) && Enabled(s, Rotation(env, faults, dies)) ==> Safe(Next(s, rotate, Rotation(env, faults, dies)), g)
  }

  lemma WorkerKeepsSafe(g: Grammar)
    ensures KeepsSafe(WorkerRotation(g), g)
  {
    forall s: Run, env: Env, faults: seq<Fault>, dies: bool | Safe(s, g) && Enabled(s, Rotation(env, faults, dies))
      ensures Safe(Next(s, WorkerRotation(g), Rotation(env, faults, dies)), g)
    {
      RotationIsSafe(s, g, env, faults, dies);
    }
  }

  lemma AppendIsSafe(s: Run, g: Grammar, bytes: T.Bytes)
    requires Safe(s, g)
    ensures Safe(s.(log := T.Appended(s.log, bytes)), g)
  {
    T.AppendKeeps(s.log, bytes);
    AppendKeepsLiveStart(s.log, bytes);
    if s.d.cursor.Some? { AppendCovers(s, g, bytes, s.d.cursor.value, KeysOf(s.d.offered)); }
    if s.w.booted && s.w.cursor.Some? {
      AppendCovers(s, g, bytes, s.w.cursor.value, KeysOf(s.d.offered) + AnchorKeys(s.w.p.ready));
    }
  }

  lemma RotateLogIsSafe(s: Run, g: Grammar, inode: int)
    requires Safe(s, g) && Enabled(s, RotateLog(inode)) && TakenUp(s)
    ensures Safe(s.(log := s.log + [T.File(inode, [])]), g)
  {
    T.RotateKeeps(s.log, inode);
    if s.d.cursor.Some? { RotateLogCovers(s, g, inode, s.d.cursor.value, KeysOf(s.d.offered)); }
    if s.w.booted && s.w.cursor.Some? {
      RotateLogCovers(s, g, inode, s.w.cursor.value, KeysOf(s.d.offered) + AnchorKeys(s.w.p.ready));
    }
  }

  lemma NextIsSafe(s: Run, rotate: (WD, Env) -> WD, g: Grammar, step: Step)
    requires KeepsSafe(rotate, g) && Safe(s, g) && Enabled(s, step) && (step.RotateLog? ==> TakenUp(s))
    ensures Safe(Next(s, rotate, step), g)
  {
    match step
    case Append(bytes) => AppendIsSafe(s, g, bytes);
    case RotateLog(inode) => RotateLogIsSafe(s, g, inode);
    case Rotation(env, faults, dies) =>
    case Crash =>
  }

  lemma PrefixAllowed(s: Run, rotate: (WD, Env) -> WD, steps: seq<Step>, n: nat)
    requires s.log != [] && AllEnabled(s, rotate, steps) && n <= |steps|
    ensures AllEnabled(s, rotate, steps[..n]) && (Careful(s, rotate, steps) ==> Careful(s, rotate, steps[..n]))
  {
    forall m | 0 <= m < n ensures EnabledAt(s, rotate, steps[..n], m) {
      assert EnabledAt(s, rotate, steps, m) && steps[..n][..m] == steps[..m];
    }
    forall m | 0 <= m < n && Careful(s, rotate, steps) ensures CarefulAt(s, rotate, steps[..n], m) {
      assert CarefulAt(s, rotate, steps, m) && steps[..n][..m] == steps[..m];
    }
  }

  lemma {:induction false} RunIsSafe(s: Run, rotate: (WD, Env) -> WD, g: Grammar, steps: seq<Step>)
    requires KeepsSafe(rotate, g) && Safe(s, g) && AllEnabled(s, rotate, steps) && Careful(s, rotate, steps)
    ensures Safe(RunAll(s, rotate, steps), g)
  {
    if steps != [] {
      var n := |steps| - 1;
      PrefixAllowed(s, rotate, steps, n);
      RunIsSafe(s, rotate, g, steps[..n]);
      assert EnabledAt(s, rotate, steps, n) && CarefulAt(s, rotate, steps, n);
      NextIsSafe(RunAll(s, rotate, steps[..n]), rotate, g, steps[n]);
    }
  }

  /** A log nobody has read yet, empty tables, a worker not started. */
  function Begin(log: T.Log): Run { Run(log, Db(map[], [], None, [], false, [], [], []), Start(), None) }

  /** Every accept, manual or sell-fallback line between the first saved cursor and the present one has
      had the row of a log line offered under its key. */
  ghost predicate NothingLost(s: Run, g: Grammar) {
    s.d.cursor.Some? ==>
      && s.origin.Some? && T.Recent(s.log, s.d.cursor.value)
      && s.origin.value <= T.Pos(s.log, s.d.cursor.value) <= |T.Stream(s.log)|
      && NamedIn(g, T.Stream(s.log)[s.origin.value..T.Pos(s.log, s.d.cursor.value)]) <= KeysOf(s.d.offered)
  }

  /** In every run of appends, log rotations, worker rotations with failing statements, and deaths at any
      point, in which the log never rotates while a saved cursor is not taken up, nothing named since the
      first saved cursor is lost. */
  lemma NothingNamedIsLost(log: T.Log, g: Grammar, steps: seq<Step>)
    requires T.GoodLog(log) && AllEnabled(Begin(log), WorkerRotation(g), steps)
    requires Careful(Begin(log), WorkerRotation(g), steps)
    ensures NothingLost(RunAll(Begin(log), WorkerRotation(g), steps), g)
  {
    WorkerKeepsSafe(g);
    RunIsSafe(Begin(log), WorkerRotation(g), g, steps);
  }
}
