/** When a log rotation can lose lines: exactly while a saved cursor has not been taken up. */
module WorkerLoss {
  import opened Basics
  import opened Journal
  import opened JournalDb
  import opened Worker
  import opened WorkerRuns
  import P = Pairing
  import S = Stops
  import T = Tailer

  // ---- once taken up, always taken up ------------------------------------------------------------

  /** There is a saved cursor and the worker, if one runs, has it or a later one. */
  predicate Held(s: Run) { s.d.cursor.Some? && ReadFrom(s).Some? }

  lemma FinishHolds(w: WState, d: Db, g: Grammar, env: Env, lines: seq<T.Bytes>, end: T.Cursor)
    requires w.cursor.Some? && d.cursor.Some? && w.p.incoming == [] && w.booted && w.p.source == LogHarvest
    ensures var y := Finish(WD(w, d), g, env, lines, end).0;
            y.w.cursor.Some? && y.d.cursor.Some? && y.w.booted
  {
    var x := Gathered(WD(w, d), g, env, lines);
    GatherHands(WD(w, d), g, env, lines);
    var (y, ok) := Commit(x, end, LastLineTs(g, lines));
    if ok && ReconcileDue(y.w, env.now, w.prevTs, lines) { ReconcileHands(y, env.now, env.dayTrades, w.prevTs.value); }
  }

  lemma RotateHolds(s: Run, g: Grammar, env: Env, d: Db)
    requires Safe(s, g) && d.cursor == s.d.cursor && Held(s)
    ensures var y := Rotate(WD(s.w, d), g, env).0;
            y.d.cursor.Some? && (y.w.booted ==> y.w.cursor.Some?)
  {
    ReadyWorker(s, g, env, d);
    ReadHolds(Shown(Ready(WD(s.w, d), env), env), d, g, env);
  }

  lemma ReadHolds(w: WState, d: Db, g: Grammar, env: Env)
    requires w.cursor.Some? && d.cursor.Some? && w.p.incoming == [] && w.booted && w.p.source == LogHarvest
    ensures var y := ReadOn(WD(w, d), g, env).0;
            y.w.cursor.Some? && y.d.cursor.Some? && y.w.booted
  {
    var chunk := T.ReadChunk(env.dir, w.cursor, T.MAX_READ_BYTES);
    if chunk.Chunk? { FinishHolds(w, d, g, env, chunk.lines, chunk.cursor); }
  }

  ghost predicate KeepsHeld(rotate: (WD, Env) -> WD, g: Grammar) {
    forall s: Run, env: Env, faults: seq<Fault>, dies: bool ::
      Safe(s, g) && Held(s) ==> Held(Next(s, rotate, Rotation(env, faults, dies)))
  }

  lemma RotationHolds(s: Run, g: Grammar, env: Env, faults: seq<Fault>, dies: bool)
    requires Safe(s, g) && Held(s)
    ensures Held(Next(s, WorkerRotation(g), Rotation(env, faults, dies)))
  {
    var d := s.d.(faults := faults, dying := dies);
    RotateHolds(s, g, env, d);
    HeldAfter(s, Rotate(WD(s.w, d), g, env).0, dies);
    NextRotates(s, g, env, faults, dies);
  }

  lemma HeldAfter(s: Run, y: WD, dies: bool)
    requires y.d.cursor.Some? && (y.w.booted ==> y.w.cursor.Some?)
    ensures Held(Run(s.log, y.d, if dies then Start() else y.w, NextOrigin(s, y.d)))
  {
  }

  lemma WorkerKeepsHeld(g: Grammar)
    ensures KeepsHeld(WorkerRotation(g), g)
  {
    forall s: Run, env: Env, faults: seq<Fault>, dies: bool | Safe(s, g) && Held(s)
      ensures Held(Next(s, WorkerRotation(g), Rotation(env, faults, dies)))
    {
      RotationHolds(s, g, env, faults, dies);
    }
  }

  lemma NextHolds(s: Run, rotate: (WD, Env) -> WD, g: Grammar, step: Step)
    requires KeepsHeld(rotate, g) && Safe(s, g) && Held(s)
    ensures Held(Next(s, rotate, step)) && Next(s, rotate, step).origin == s.origin
  {
  }

  /** Whether a step is careful depends on the steps up to it only. */
  lemma CarefulStep(s: Run, rotate: (WD, Env) -> WD, pre: seq<Step>, steps: seq<Step>, m: nat)
    requires s.log != [] && m < |pre| && m < |steps| && pre[..m] == steps[..m] && pre[m] == steps[m]
    requires CarefulAt(s, rotate, pre, m)
    ensures CarefulAt(s, rotate, steps, m)
  {
  }

  lemma CarefulMore(s: Run, rotate: (WD, Env) -> WD, pre: seq<Step>, steps: seq<Step>)
    requires s.log != [] && |steps| == |pre| + 1 && steps[..|pre|] == pre
    requires Careful(s, rotate, pre) && TakenUp(RunAll(s, rotate, pre))
    ensures Careful(s, rotate, steps)
  {
    forall m | 0 <= m < |steps| ensures CarefulAt(s, rotate, steps, m) {
      if m < |pre| {
        assert pre[..m] == steps[..m];
        CarefulStep(s, rotate, pre, steps, m);
      }
    }
  }

  lemma {:induction false} RunHolds(s: Run, rotate: (WD, Env) -> WD, g: Grammar, steps: seq<Step>)
    requires KeepsSafe(rotate, g) && KeepsHeld(rotate, g) && Safe(s, g) && Held(s) && AllEnabled(s, rotate, steps)
    ensures var s' := RunAll(s, rotate, steps);
            Safe(s', g) && Held(s') && s'.origin == s.origin && Careful(s, rotate, steps)
  {
    if steps != [] {
      var n := |steps| - 1;
      PrefixAllowed(s, rotate, steps, n);
      RunHolds(s, rotate, g, steps[..n]);
      var before := RunAll(s, rotate, steps[..n]);
      assert EnabledAt(s, rotate, steps, n);
      NextIsSafe(before, rotate, g, steps[n]);
      NextHolds(before, rotate, g, steps[n]);
      CarefulMore(s, rotate, steps[..n], steps);
    }
  }

  /** A worker that has taken up the saved cursor never falls behind it again: through failed saves,
      deaths, restarts and log rotations the start of the journal stays, every step is careful, and
      nothing named is lost. */
  lemma OnceTakenUp(s: Run, g: Grammar, steps: seq<Step>)
    requires Safe(s, g) && s.d.cursor.Some? && TakenUp(s) && AllEnabled(s, WorkerRotation(g), steps)
    ensures var s' := RunAll(s, WorkerRotation(g), steps);
            s'.origin == s.origin && s'.d.cursor.Some? && TakenUp(s') && NothingLost(s', g)
    ensures Careful(s, WorkerRotation(g), steps)
  {
    WorkerKeepsSafe(g);
    WorkerKeepsHeld(g);
    RunHolds(s, WorkerRotation(g), g, steps);
  }

  // ---- a rotation of the worker that nothing disturbs ----------------------------------------------

  predicate Quiet(d: Db) { d.faults == [] && !d.dying }

  /** Undisturbed writes offer exactly the rows given. */
  lemma {:induction false} WriteAllOffers(x: Written, rows: seq<Row>)
    requires Quiet(x.d)
    ensures var y := WriteAll(x, rows).d; Quiet(y) && y.offered == x.d.offered + rows
  {
    if rows == [] {
      assert x.d.offered + [] == x.d.offered;
    } else {
      var n := |rows| - 1;
      WriteAllOffers(x, rows[..n]);
      assert x.d.offered + rows == (x.d.offered + rows[..n]) + [rows[n]];
    }
  }

  lemma {:induction false} AddStopsOffers(d: Db, evs: seq<StopEvent>)
    requires Quiet(d)
    ensures Quiet(AddStops(d, evs)) && AddStops(d, evs).offered == d.offered
  {
    if evs != [] { AddStopsOffers(d, evs[..|evs| - 1]); }
  }

  /** Nothing fetched, nothing to look up, and a log directory that shows its live file only. */
  function Blind(live: T.File): Env { Env(0, false, None, None, None, None, T.Dir(Some(live), [])) }

  /** A snapshot of the holdings, and nothing to look up. */
  function Seeing(at: Time, items: G1, live: T.File): Env {
    Env(at, false, Some(InSession()), Some(items), None, None, T.Dir(Some(live), []))
  }

  lemma WindowAtEnd(f: T.File)
    ensures T.ReadWindow(f, |f.bytes|, T.MAX_READ_BYTES) == ([], |f.bytes|)
  {
    assert T.Window(f, |f.bytes|, T.MAX_READ_BYTES) == [];
    assert T.Split([]) == [[]];
  }

  lemma BlindGathers(x: WD, g: Grammar, live: T.File)
    requires Quiet(x.d) && x.w.p.incoming == [] && x.w.p.source == LogHarvest
    ensures var y := Gathered(x, g, Blind(live), []);
            && Quiet(y.d) && y.d.cursor == x.d.cursor && SameCursors(x.w, y.w)
            && y.d.offered == x.d.offered + P.RowsOf(x.w.p, x.w.p.ready, map[])
  {
    GatherHands(x, g, Blind(live), []);
    var y := Collect(x, g, []);
    assert y == x;
    var rows := P.RowsOf(x.w.p, x.w.p.ready, map[]);
    var start := Written(x.w.(p := P.Drained(x.w.p, false)), x.d, {});
    WriteAllOffers(start, rows);
    AddStopsOffers(WriteAll(start, rows).d, OfFresh(P.StopsOf(x.w.p.ready), WriteAll(start, rows).sells));
    var z := Release(y, map[]);
    AddStopsOffers(z.d, S.Observe(z.w.t, Observation(Blind(live))).1);
  }

  /** Undisturbed and without a cursor, a worker that finds an empty live file saves its start, and offers
      only the orders it holds. */
  lemma BlindRotation(s: Run, g: Grammar)
    requires s.log != [] && Readied(s, s.w) && s.w.cursor.None? && s.log[|s.log| - 1].bytes == []
    ensures var live := s.log[|s.log| - 1];
            var y := Rotate(WD(s.w, s.d.(faults := [], dying := false)), g, Blind(live)).0;
            && y.d.cursor == Some(LiveStart(s.log))
            && KeysOf(y.d.offered) == KeysOf(s.d.offered) + AnchorKeys(s.w.p.ready)
  {
    var live, d := s.log[|s.log| - 1], s.d.(faults := [], dying := false);
    var env := Blind(live);
    var w := Shown(Ready(WD(s.w, d), env), env);
    assert Readied(s, w);
    assert T.ReadChunk(env.dir, None, T.MAX_READ_BYTES) == T.Chunk([], LiveStart(s.log));
    var x := Gathered(WD(w, d), g, env, []);
    BlindGathers(WD(w, d), g, live);
    var rows := P.RowsOf(w.p, w.p.ready, map[]);
    RowsKeys(w.p, w.p.ready, map[]);
    KeysConcat(d.offered, rows);
    var (y, ok) := Commit(x, LiveStart(s.log), None);
    assert ok && y.d.cursor == Some(LiveStart(s.log)) && y.d.offered == x.d.offered;
  }

  lemma KeysConcat(a: seq<Row>, b: seq<Row>)
    ensures KeysOf(a + b) == KeysOf(a) + KeysOf(b)
  {
    forall r | r in a + b ensures r in a || r in b {
    }
    forall r | r in a || r in b ensures r in a + b {
      if r in b {
        var i :| 0 <= i < |b| && b[i] == r;
        assert (a + b)[|a| + i] == r;
      }
    }
  }

  // ---- the losing continuation ---------------------------------------------------------------------

  lemma FreshInode(log: T.Log) returns (inode: int)
    ensures forall f :: f in log ==> f.inode < inode
  {
    if log == [] {
      inode := 0;
    } else {
      var n := |log| - 1;
      var before := FreshInode(log[..n]);
      inode := MaxI(before, log[n].inode + 1);
      assert log == log[..n] + [log[n]];
    }
  }

  /** Lines can name an order outside any finite set, as new orders keep coming. */
  ghost predicate Rich(g: Grammar) {
    forall keys: set<Key> :: CanNameNew(g, keys)
  }

  ghost predicate CanNameNew(g: Grammar, keys: set<Key>) { exists l: T.Bytes :: NamesNew(g, l, keys) }

  ghost predicate NamesNew(g: Grammar, l: T.Bytes, keys: set<Key>) {
    T.NEWLINE !in l && !(OwnKeys(Parsed(g, [l])) <= keys)
  }

  /** The log after more bytes and a rotation. */
  function RotatedLog(s: Run, bytes: T.Bytes, inode: int): Run
    requires s.log != []
  {
    s.(log := T.Appended(s.log, bytes) + [T.File(inode, [])])
  }

  /** Whatever is appended before the log rotates now, and whatever careful run follows, nothing named
      since the first saved cursor is lost. */
  ghost predicate MayRotate(s: Run, rotate: (WD, Env) -> WD, g: Grammar)
    requires s.log != []
  {
    forall bytes: T.Bytes, inode: int, more: seq<Step> ::
      Enabled(s.(log := T.Appended(s.log, bytes)), RotateLog(inode))
      && AllEnabled(RotatedLog(s, bytes, inode), rotate, more)
      && Careful(RotatedLog(s, bytes, inode), rotate, more)
      ==> NothingLost(RunAll(RotatedLog(s, bytes, inode), rotate, more), g)
  }

  /** What a line names is named in the stretch that ends with it. */
  lemma LastLineNamed(g: Grammar, whole: T.Bytes, l: T.Bytes)
    requires Whole(whole) && T.NEWLINE !in l
    ensures OwnKeys(Parsed(g, [l])) <= NamedIn(g, whole + T.Unlines([l]))
  {
    NamedExtend(g, whole, [l]);
  }

  lemma AppendKeepsFresh(log: T.Log, bytes: T.Bytes, inode: int)
    requires T.GoodLog(log) && forall f :: f in log ==> f.inode < inode
    ensures forall f :: f in T.Appended(log, bytes) ==> f.inode != inode
  {
    var log' := T.Appended(log, bytes);
    forall f | f in log' ensures f.inode != inode {
      var i :| 0 <= i < |log'| && log'[i] == f;
      assert log[i] in log && log[i].inode == f.inode;
    }
  }

  /** From `start` on the log holds `bytes`, and a new live file, still empty. */
  ghost predicate Stretch(log: T.Log, start: nat, bytes: T.Bytes) {
    && T.GoodLog(log) && log[|log| - 1].bytes == []
    && T.Recent(log, LiveStart(log)) && T.Pos(log, LiveStart(log)) == |T.Stream(log)|
    && start <= |T.Stream(log)| && T.Stream(log)[start..] == bytes
  }

  /** The live file and what is appended to it, after the log rotates: everything before the new file. */
  lemma AppendedStretch(log: T.Log, bytes: T.Bytes, inode: int)
    requires T.GoodLog(log) && forall f :: f in T.Appended(log, bytes) ==> f.inode != inode
    ensures Stretch(T.Appended(log, bytes) + [T.File(inode, [])], T.Start(log, |log| - 1), log[|log| - 1].bytes + bytes)
  {
    var n, mid := |log| - 1, T.Appended(log, bytes);
    T.AppendKeeps(log, bytes);
    AppendKeepsLiveStart(log, bytes);
    NewFileStretch(mid, inode);
    assert mid[n].bytes == log[n].bytes + bytes;
  }

  lemma NewFileStretch(log: T.Log, inode: int)
    requires T.GoodLog(log) && forall f :: f in log ==> f.inode != inode
    ensures Stretch(log + [T.File(inode, [])], T.Start(log, |log| - 1), log[|log| - 1].bytes)
  {
    var n, log' := |log| - 1, log + [T.File(inode, [])];
    T.RotateKeeps(log, inode);
    T.StreamSlice(log, n, 0, |log[n].bytes|);
    assert T.Start(log, n) + |log[n].bytes| == T.Start(log, n + 1) == |T.Stream(log)|;
    T.PosLive(log', LiveStart(log'));
    T.StreamLength(log');
    assert log'[..n + 1] == log;
    ToTheEnd(T.Stream(log), T.Start(log, n));
  }

  lemma ToTheEnd(stream: T.Bytes, i: nat)
    requires i <= |stream|
    ensures stream[i..|stream|] == stream[i..]
  {
  }

  /** With the saved cursor at the start of the live file and none held, the log may rotate. */
  lemma LogCanRotate(s: Run, log: T.Log, inode: int)
    requires s.log != [] && log != [] && LiveStart(log) == LiveStart(s.log)
    requires s.d.cursor == Some(LiveStart(s.log)) && ReadFrom(s).None? && forall f :: f in log ==> f.inode != inode
    ensures Enabled(s.(log := log), RotateLog(inode))
  {
  }

  /** Where a worker that has not taken up the saved cursor would begin, and what lies between. */
  lemma SkippedStretch(s: Run, bytes: T.Bytes, inode: int)
    requires T.GoodLog(s.log) && AtLiveStart(s) && s.d.cursor.Some? && ReadFrom(s).None?
    requires forall f :: f in s.log ==> f.inode < inode
    ensures var s' := RotatedLog(s, bytes, inode);
            && s.origin.Some? && Stretch(s'.log, s.origin.value, s.log[|s.log| - 1].bytes + bytes)
            && s'.log[|s'.log| - 1] == T.File(inode, [])
            && Enabled(s.(log := T.Appended(s.log, bytes)), RotateLog(inode))
  {
    AppendKeepsFresh(s.log, bytes, inode);
    AppendedStretch(s.log, bytes, inode);
    AppendKeepsLiveStart(s.log, bytes);
    LogCanRotate(s, T.Appended(s.log, bytes), inode);
  }

  // ---- the step that loses --------------------------------------------------------------------------

  function BlindStep(live: T.File): Step { Rotation(Blind(live), [], false) }

  /** A running worker without a cursor, before an empty live file. */
  ghost predicate BeforeSkip(s: Run) {
    && s.log != [] && s.log[|s.log| - 1].bytes == [] && Readied(s, s.w) && s.w.cursor.None? && s.origin.Some?
  }

  /** The saved cursor stands at the start of the live file; only the orders held have been offered. */
  ghost predicate AfterSkip(s: Run, s': Run) {
    && s.log != [] && s'.log == s.log && s'.origin == s.origin && s'.d.cursor == Some(LiveStart(s.log))
    && KeysOf(s'.d.offered) == KeysOf(s.d.offered) + AnchorKeys(s.w.p.ready)
  }

  ghost predicate Skips(rotate: (WD, Env) -> WD) {
    forall s: Run :: BeforeSkip(s) ==> AfterSkip(s, Next(s, rotate, BlindStep(s.log[|s.log| - 1])))
  }

  lemma WorkerSkips(g: Grammar)
    ensures Skips(WorkerRotation(g))
  {
    forall s: Run | BeforeSkip(s)
      ensures AfterSkip(s, Next(s, WorkerRotation(g), BlindStep(s.log[|s.log| - 1])))
    {
      BlindRotation(s, g);
      NextRotates(s, g, Blind(s.log[|s.log| - 1]), [], false);
    }
  }

  lemma OneStep(s: Run, rotate: (WD, Env) -> WD, step: Step)
    requires s.log != [] && Enabled(s, step) && !step.RotateLog?
    ensures RunAll(s, rotate, [step]) == Next(s, rotate, step)
    ensures AllEnabled(s, rotate, [step]) && Careful(s, rotate, [step])
  {
    assert [step][..0] == [];
    assert RunAll(s, rotate, []) == s;
  }

  /** A worker without a cursor, undisturbed, begins at the new live file and saves that. */
  lemma SkippingStep(s: Run, rotate: (WD, Env) -> WD)
    requires Skips(rotate) && BeforeSkip(s)
    ensures var steps := [BlindStep(s.log[|s.log| - 1])];
            && AllEnabled(s, rotate, steps) && Careful(s, rotate, steps) && AfterSkip(s, RunAll(s, rotate, steps))
  {
    OneStep(s, rotate, BlindStep(s.log[|s.log| - 1]));
  }

  /** An order named in the stretch up to the saved cursor and offered nowhere. */
  lemma OrderLost(s: Run, g: Grammar, whole: T.Bytes, l: T.Bytes, keys: set<Key>)
    requires s.origin.Some? && Stretch(s.log, s.origin.value, whole + T.Unlines([l])) && Whole(whole)
    requires s.d.cursor == Some(LiveStart(s.log))
    requires NamesNew(g, l, keys) && KeysOf(s.d.offered) == keys
    ensures !NothingLost(s, g)
  {
    LastLineNamed(g, whole, l);
    ToTheEnd(T.Stream(s.log), s.origin.value);
  }

  /** A line that begins after a newline. */
  function OnItsOwn(l: T.Bytes): T.Bytes { [T.NEWLINE] + T.Unlines([l]) }

  lemma OwnLine(b: T.Bytes, l: T.Bytes)
    ensures b + OnItsOwn(l) == (b + [T.NEWLINE]) + T.Unlines([l]) && Whole(b + [T.NEWLINE])
  {
  }

  lemma SkippedIsLost(s: Run, s1: Run, s2: Run, g: Grammar, l: T.Bytes, inode: int)
    requires Safe(s, g) && !TakenUp(s) && forall f :: f in s.log ==> f.inode < inode
    requires NamesNew(g, l, KeysOf(s.d.offered) + AnchorKeys(s.w.p.ready))
    requires s1 == RotatedLog(s, OnItsOwn(l), inode) && AfterSkip(s1, s2)
    ensures !NothingLost(s2, g)
  {
    SkippedStretch(s, OnItsOwn(l), inode);
    var b := s.log[|s.log| - 1].bytes;
    OwnLine(b, l);
    OrderLost(s2, g, b + [T.NEWLINE], l, KeysOf(s.d.offered) + AnchorKeys(s.w.p.ready));
  }

  lemma MayNotRotate(s: Run, rotate: (WD, Env) -> WD, g: Grammar, bytes: T.Bytes, inode: int, more: seq<Step>)
    requires s.log != [] && Enabled(s.(log := T.Appended(s.log, bytes)), RotateLog(inode))
    requires AllEnabled(RotatedLog(s, bytes, inode), rotate, more)
    requires Careful(RotatedLog(s, bytes, inode), rotate, more)
    requires !NothingLost(RunAll(RotatedLog(s, bytes, inode), rotate, more), g)
    ensures !MayRotate(s, rotate, g)
  {
  }

  /** Rotating the log while the saved cursor is not taken up can lose an order. */
  lemma LosingRun(s: Run, rotate: (WD, Env) -> WD, g: Grammar)
    requires Skips(rotate) && Safe(s, g) && !TakenUp(s) && Rich(g)
    ensures !MayRotate(s, rotate, g)
  {
    var inode := FreshInode(s.log);
    assert CanNameNew(g, KeysOf(s.d.offered) + AnchorKeys(s.w.p.ready));
    var l :| NamesNew(g, l, KeysOf(s.d.offered) + AnchorKeys(s.w.p.ready));
    var bytes := OnItsOwn(l);
    var s1, more := RotatedLog(s, bytes, inode), [BlindStep(T.File(inode, []))];
    SkippedStretch(s, bytes, inode);
    SkippingStep(s1, rotate);
    SkippedIsLost(s, s1, RunAll(s1, rotate, more), g, l, inode);
    MayNotRotate(s, rotate, g, bytes, inode, more);
  }

  lemma TakenUpMayRotate(s: Run, rotate: (WD, Env) -> WD, g: Grammar)
    requires KeepsSafe(rotate, g) && Safe(s, g) && TakenUp(s)
    ensures MayRotate(s, rotate, g)
  {
    forall bytes: T.Bytes, inode: int, more: seq<Step> |
      Enabled(s.(log := T.Appended(s.log, bytes)), RotateLog(inode))
      && AllEnabled(RotatedLog(s, bytes, inode), rotate, more)
      && Careful(RotatedLog(s, bytes, inode), rotate, more)
      ensures NothingLost(RunAll(RotatedLog(s, bytes, inode), rotate, more), g)
    {
      AppendIsSafe(s, g, bytes);
      RotateLogIsSafe(s.(log := T.Appended(s.log, bytes)), g, inode);
      RunIsSafe(RotatedLog(s, bytes, inode), rotate, g, more);
    }
  }

  lemma MayRotateIff(s: Run, rotate: (WD, Env) -> WD, g: Grammar)
    requires KeepsSafe(rotate, g) && Skips(rotate) && Safe(s, g) && Rich(g)
    ensures MayRotate(s, rotate, g) <==> TakenUp(s)
  {
    if TakenUp(s) { TakenUpMayRotate(s, rotate, g); } else { LosingRun(s, rotate, g); }
  }

  /** At any point of a careful run, the log may rotate without any loss to come, whatever is appended
      before, exactly when the saved cursor, if there is one, is taken up. */
  lemma MayRotateIffTakenUp(log: T.Log, g: Grammar, steps: seq<Step>)
    requires T.GoodLog(log) && Rich(g)
    requires AllEnabled(Begin(log), WorkerRotation(g), steps) && Careful(Begin(log), WorkerRotation(g), steps)
    ensures var s := RunAll(Begin(log), WorkerRotation(g), steps);
            MayRotate(s, WorkerRotation(g), g) <==> TakenUp(s)
  {
    WorkerKeepsSafe(g);
    WorkerSkips(g);
    RunIsSafe(Begin(log), WorkerRotation(g), g, steps);
    MayRotateIff(RunAll(Begin(log), WorkerRotation(g), steps), WorkerRotation(g), g);
  }

  // ---- the run that loses, from the start ------------------------------------------------------------

  const OLD_FILE := T.File(1, [])
  const NEW_FILE := T.File(2, [])

  /** The first save takes effect but its reply is lost. */
  function FirstStep(): Step { Rotation(Blind(OLD_FILE), [AppliedThenRaised], false) }

  /** What the first save leaves when its reply is lost. */
  ghost predicate FirstRaised(s: Run) {
    && s.log == [OLD_FILE] && s.d.cursor == Some(T.Cursor(1, 0)) && s.origin == Some(0) && s.d.offered == []
    && Readied(s, s.w) && s.w.cursor.None? && s.w.p.ready == []
  }

  /** With nothing read and nothing held, the save is the only statement. */
  lemma OnlySaves(x: WD, g: Grammar)
    requires x.w.p.incoming == [] && x.w.p.ready == [] && x.d.faults == [AppliedThenRaised]
    ensures Finish(x, g, Blind(OLD_FILE), [], T.Cursor(1, 0)).0
            == WD(x.w, x.d.(cursor := Some(Target(x.w, T.Cursor(1, 0))), faults := []))
  {
    assert Collect(x, g, []) == x;
    assert P.RowsOf(x.w.p, [], map[]) == [] && P.Drained(x.w.p, false) == x.w.p;
    assert Release(x, map[]) == x;
    assert Gathered(x, g, Blind(OLD_FILE), []) == x;
  }

  lemma FirstReads(x: WD, g: Grammar)
    requires x.w.cursor == None
    ensures ReadOn(x, g, Blind(OLD_FILE)) == Finish(x, g, Blind(OLD_FILE), [], T.Cursor(1, 0))
  {
    assert T.ReadChunk(Blind(OLD_FILE).dir, None, T.MAX_READ_BYTES) == T.Chunk([], T.Cursor(1, 0));
  }

  lemma FirstSave(g: Grammar)
    ensures FirstRaised(Next(Begin([OLD_FILE]), WorkerRotation(g), FirstStep()))
  {
    var d := Begin([OLD_FILE]).d.(faults := [AppliedThenRaised]);
    var w := Shown(Ready(WD(Start(), d), Blind(OLD_FILE)), Blind(OLD_FILE));
    NextReads(Begin([OLD_FILE]), g, Blind(OLD_FILE), [AppliedThenRaised], false);
    FirstReads(WD(w, d), g);
    OnlySaves(WD(w, d), g);
    FirstTable(d.(cursor := Some(T.Cursor(1, 0)), faults := []), w);
  }

  lemma FirstTable(d: Db, w: WState)
    requires d.cursor == Some(T.Cursor(1, 0)) && d.offered == [] && w.booted && w.cursor == w.prevEnd == None
    requires w.p.incoming == [] && w.p.ready == [] && w.p.source == LogHarvest
    ensures FirstRaised(Run([OLD_FILE], d, w, NextOrigin(Begin([OLD_FILE]), d)))
  {
    T.PosLive([OLD_FILE], T.Cursor(1, 0));
  }

  lemma SecondFile(s: Run, b: T.Bytes)
    requires s.log == [OLD_FILE]
    ensures var log := RotatedLog(s, b, 2).log;
            && log == [T.File(1, b), NEW_FILE] && T.Stream(log) == b
            && T.Recent(log, T.Cursor(2, 0)) && T.Pos(log, T.Cursor(2, 0)) == |b|
  {
    var log := [T.File(1, b), NEW_FILE];
    assert log[..1] == [T.File(1, b)] && [T.File(1, b)][..0] == [];
    assert T.Stream([T.File(1, b)]) == b;
    assert T.Start(log, 1) == T.Start(log, 0) + |b|;
  }

  lemma RunSnoc(s: Run, rotate: (WD, Env) -> WD, steps: seq<Step>, step: Step, s': Run)
    requires s.log != [] && AllEnabled(s, rotate, steps) && RunAll(s, rotate, steps) == s' && Enabled(s', step)
    ensures RunAll(s, rotate, steps + [step]) == Next(s', rotate, step) && AllEnabled(s, rotate, steps + [step])
  {
    var all := steps + [step];
    assert all[..|steps|] == steps;
    forall m | 0 <= m < |all| ensures EnabledAt(s, rotate, all, m) {
      if m < |steps| { assert EnabledAt(s, rotate, steps, m) && all[..m] == steps[..m]; }
    }
  }

  lemma TwoMore(s: Run, rotate: (WD, Env) -> WD, steps: seq<Step>, a: Step, b: Step, s1: Run, s2: Run)
    requires s.log != [] && AllEnabled(s, rotate, steps) && RunAll(s, rotate, steps) == s1
    requires Enabled(s1, a) && s2 == Next(s1, rotate, a) && Enabled(s2, b)
    ensures RunAll(s, rotate, steps + [a] + [b]) == Next(s2, rotate, b) && AllEnabled(s, rotate, steps + [a] + [b])
  {
    RunSnoc(s, rotate, steps, a, s1);
    RunSnoc(s, rotate, steps + [a], b, s2);
  }

  function LosingSteps(b: T.Bytes): seq<Step> {
    [] + [FirstStep()] + [Append(b)] + [RotateLog(2)] + [BlindStep(NEW_FILE)]
  }

  lemma FirstSaveSkips(rotate: (WD, Env) -> WD, b: T.Bytes)
    requires Skips(rotate) && FirstRaised(Next(Begin([OLD_FILE]), rotate, FirstStep()))
    ensures AllEnabled(Begin([OLD_FILE]), rotate, LosingSteps(b))
    ensures var s := RunAll(Begin([OLD_FILE]), rotate, LosingSteps(b));
            && s.log == [T.File(1, b), NEW_FILE] && s.origin == Some(0) && s.d.cursor == Some(T.Cursor(2, 0))
            && KeysOf(s.d.offered) == {}
  {
    var s0 := Begin([OLD_FILE]);
    var s1 := Next(s0, rotate, FirstStep());
    SecondFile(s1, b);
    TwoMore(s0, rotate, [], FirstStep(), Append(b), s0, s1);
    SkipsFrom(rotate, b, s1, s1.(log := T.Appended(s1.log, b)), RotatedLog(s1, b, 2));
  }

  /** From the lost reply on: the log rotates and the worker begins at the new file. */
  lemma SkipsFrom(rotate: (WD, Env) -> WD, b: T.Bytes, s1: Run, s2: Run, s3: Run)
    requires Skips(rotate) && FirstRaised(s1) && s2 == s1.(log := T.Appended(s1.log, b)) && s3 == RotatedLog(s1, b, 2)
    requires s3.log == [T.File(1, b), NEW_FILE]
    requires var steps := [] + [FirstStep()] + [Append(b)];
             AllEnabled(Begin([OLD_FILE]), rotate, steps) && RunAll(Begin([OLD_FILE]), rotate, steps) == s2
    ensures AllEnabled(Begin([OLD_FILE]), rotate, LosingSteps(b))
    ensures var s := RunAll(Begin([OLD_FILE]), rotate, LosingSteps(b));
            && s.log == s3.log && s.origin == Some(0) && s.d.cursor == Some(T.Cursor(2, 0))
            && KeysOf(s.d.offered) == {}
  {
    var steps := [] + [FirstStep()] + [Append(b)];
    TwoMore(Begin([OLD_FILE]), rotate, steps, RotateLog(2), BlindStep(NEW_FILE), s2, s3);
    assert BeforeSkip(s3) && s3.log[|s3.log| - 1] == NEW_FILE;
  }

  /** The whole run: the first save takes effect but raises, bytes are appended, the log rotates, and the
      next rotation is undisturbed. The saved cursor moves past all of them, and no order was offered. */
  lemma FirstSaveLoses(g: Grammar, b: T.Bytes)
    ensures AllEnabled(Begin([OLD_FILE]), WorkerRotation(g), LosingSteps(b))
    ensures var s := RunAll(Begin([OLD_FILE]), WorkerRotation(g), LosingSteps(b));
            && s.log == [T.File(1, b), NEW_FILE] && s.origin == Some(0) && s.d.cursor == Some(T.Cursor(2, 0))
            && KeysOf(s.d.offered) == {}
            && (NothingLost(s, g) <==> NamedIn(g, b) == {})
  {
    WorkerSkips(g);
    FirstSave(g);
    FirstSaveSkips(WorkerRotation(g), b);
    SecondFile(Begin([OLD_FILE]), b);
    assert b[0..|b|] == b;
  }
}
