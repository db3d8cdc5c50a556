/** Two runs after which the stop table and the running tracker differ: an insertion is swallowed, and an exit
    row comes last. */
module StopsLag {
  import opened Basics
  import opened Journal
  import opened JournalDb
  import opened Worker
  import opened WorkerLoss
  import opened WorkerOnce
  import opened WorkerRuns
  import opened WorkerStops
  import E = WorkerEod
  import P = Pairing
  import PG = PairingPurge
  import S = Stops
  import T = Tailer
  import TR = TwiceRecorded

  // ---- a swallowed insertion -----------------------------------------------------------------------------

  /** A snapshot that shows one holding with a stop price. */
  function ItemWith(k: K, stop: real): Item { BareItem(k.0, k.1).(stopPrice := Some(stop)) }

  function SeenWith(k: K, stop: real, faults: seq<Fault>): Step {
    Rotation(Seeing(0, [ItemWith(k, stop)], OLD_FILE), faults, false)
  }

  function RowWith(stop: real): StopRow { StopRow(Some(stop), None, None, false, None) }

  /** The tracker has recorded the stop price. */
  predicate RecordedAt(t: S.Tracker, k: K, stop: real) {
    t.phase == S.Steady && k in t.known && k !in t.arm && k !in t.posNo && k in t.last && t.last[k] == RowWith(stop)
  }

  lemma SeesStop(t: S.Tracker, k: K, stop: real)
    requires t == S.FromRows(map[]) || exists before: real :: RecordedAt(t, k, before) && stop < before
    ensures var (t', evs) := S.Observe(t, Observation(SeenWith(k, stop, []).env));
            && RecordedAt(t', k, stop) && |evs| == 1
            && HoldingOf(evs[0]) == k && evs[0].row == RowWith(stop) && evs[0].observedAt == 0
  {
    var o := Observation(SeenWith(k, stop, []).env);
    assert t.(phase := S.Steady) == t && S.ContextOf(t, o) == E.Plain(0);
    E.OneSeen(t, ItemWith(k, stop), E.Plain(0));
  }

  /** A rotation that sees it: the tracker records it, and the table gets what is not swallowed. */
  lemma SeenTurns(w: WState, d: Db, g: Grammar, env: Env)
    requires E.Resting(w) && env.dir == T.Dir(Some(OLD_FILE), [])
    ensures var y := ReadOn(WD(w, d), g, env).0;
            && y.w.booted && y.w.t == S.Observe(w.t, Observation(env)).0
            && y.d.stops == AddStops(d, S.Observe(w.t, Observation(env)).1).stops
  {
    E.LookReads(WD(w, d), g, env);
    E.LookGathers(WD(w, d), g, env);
    FinishTracks(WD(w, d), g, env, [], T.Cursor(1, 0));
    E.EndEods(Gathered(WD(w, d), g, env, []), w.prevTs, g, env, [], T.Cursor(1, 0));
  }

  /** After the first look: one row, and a worker at rest whose tracker has it. */
  ghost predicate FirstSeen(s: Run, k: K) {
    && s.log == [OLD_FILE] && E.Resting(s.w) && RecordedAt(s.w.t, k, 100.0)
    && |s.d.stops| == 1 && HoldingOf(s.d.stops[0]) == k && s.d.stops[0].row == RowWith(100.0)
    && s.d.stops[0].observedAt == 0 && s.d.orders == map[] && s.w.p.source == LogHarvest && !s.d.dying
    && s.d.cursor == Some(T.Cursor(1, 0))
  }

  lemma SeesFirst(g: Grammar, k: K)
    ensures FirstSeen(Next(Begin([OLD_FILE]), WorkerRotation(g), SeenWith(k, 100.0, E.Fines(3))), k)
  {
    var env, d := SeenWith(k, 100.0, []).env, Begin([OLD_FILE]).d.(faults := E.Fines(3));
    var w := Shown(Ready(WD(Start(), d), env), env);
    SeesStop(w.t, k, 100.0);
    E.LookReads(WD(w, d), g, env);
    E.LookFinishes(WD(w, d), g, env);
    NextReads(Begin([OLD_FILE]), g, env, E.Fines(3), false);
  }

  /** After a lower stop whose row is swallowed: the tracker has it, the table has the old one. */
  ghost predicate Lags(s: Run, k: K) {
    s.w.booted && RecordedAt(s.w.t, k, 90.0) && k in LastStops(s.d.stops)
    && LastStops(s.d.stops)[k].row == RowWith(100.0)
  }

  lemma SwallowedLags(s: Run, y: WD, evs: seq<StopEvent>, k: K)
    requires FirstSeen(s, k) && |evs| == 1 && y.w.booted && RecordedAt(y.w.t, k, 90.0)
    requires y.d.stops == AddStops(s.d.(faults := [NotApplied], dying := false), evs).stops
    ensures Lags(Run(s.log, y.d, y.w, NextOrigin(s, y.d)), k)
  {
    assert evs == [evs[0]] && s.d.stops == [] + [s.d.stops[0]];
    OneStop(s.d.(faults := [NotApplied], dying := false), evs[0]);
    LatestAfter([], s.d.stops[0], k);
  }

  lemma SeesSecond(s: Run, g: Grammar, k: K)
    requires FirstSeen(s, k)
    ensures Lags(Next(s, WorkerRotation(g), SeenWith(k, 90.0, [NotApplied])), k)
  {
    var env, d := SeenWith(k, 90.0, []).env, s.d.(faults := [NotApplied], dying := false);
    var w := Shown(Ready(WD(s.w, d), env), env);
    assert E.Resting(w) && w.t == s.w.t;
    SeesStop(w.t, k, 90.0);
    SeenTurns(w, d, g, env);
    NextReads(s, g, env, [NotApplied], false);
    SwallowedLags(s, ReadOn(WD(w, d), g, env).0, S.Observe(w.t, Observation(env)).1, k);
  }

  lemma LagsBehind(s: Run, k: K)
    requires Lags(s, k)
    ensures S.Get(S.FromRows(LastStops(s.d.stops)).last, k) == Some(RowWith(100.0))
    ensures !S.StandsFor(RowWith(100.0), S.Current(s.w.t.arm, ItemWith(k, 90.0)))
  {
  }

  function SwallowedSteps(k: K): seq<Step> {
    [] + [SeenWith(k, 100.0, E.Fines(3))] + [SeenWith(k, 90.0, [NotApplied])]
  }

  lemma SwallowedPlays(rotate: (WD, Env) -> WD, k: K, s1: Run)
    requires s1 == Next(Begin([OLD_FILE]), rotate, SeenWith(k, 100.0, E.Fines(3))) && FirstSeen(s1, k)
    ensures AllEnabled(Begin([OLD_FILE]), rotate, SwallowedSteps(k))
    ensures RunAll(Begin([OLD_FILE]), rotate, SwallowedSteps(k)) == Next(s1, rotate, SeenWith(k, 90.0, [NotApplied]))
  {
    var s0, first, second := Begin([OLD_FILE]), SeenWith(k, 100.0, E.Fines(3)), SeenWith(k, 90.0, [NotApplied]);
    TwoMore(s0, rotate, [], first, second, s0, s1);
  }

  /** The run: a stop price is recorded, then a lower one whose insertion is swallowed. A tracker started
      from the table has the old stop, which does not stand for the row shown. */
  lemma SwallowedRowLags(g: Grammar, k: K)
    ensures var s := RunAll(Begin([OLD_FILE]), WorkerRotation(g), SwallowedSteps(k));
            && AllEnabled(Begin([OLD_FILE]), WorkerRotation(g), SwallowedSteps(k))
            && RecordedAt(s.w.t, k, 90.0) && S.Get(S.FromRows(LastStops(s.d.stops)).last, k) == Some(RowWith(100.0))
            && !S.StandsFor(RowWith(100.0), S.Current(s.w.t.arm, ItemWith(k, 90.0)))
  {
    var s1 := Next(Begin([OLD_FILE]), WorkerRotation(g), SeenWith(k, 100.0, E.Fines(3)));
    SeesFirst(g, k);
    SeesSecond(s1, g, k);
    LagsBehind(Next(s1, WorkerRotation(g), SeenWith(k, 90.0, [NotApplied])), k);
    SwallowedPlays(WorkerRotation(g), k, s1);
  }

  // ---- an exit row ---------------------------------------------------------------------------------------

  function ExitOf(k: K, ts: Time, no: string): StopEvent {
    StopEvent(k.0, k.1, None, None, ts, ExitStop, RowWith(100.4), Some(no))
  }

  /** The pairer's last snapshot shows the holding with a stop that has risen a little. */
  predicate SawRise(m: P.Memory, k: K) {
    && m.source == LogHarvest && m.incoming == [] && m.itemsHist != []
    && m.itemsHist[|m.itemsHist| - 1] == P.Snap(0, P.ItemsByKey([ItemWith(k, 100.4)]))
  }

  /** A batch of one sell, whose exit event bears the risen stop. */
  predicate HoldsExit(m: P.Memory, k: K, ts: Time, no: string) {
    && m.source == LogHarvest && m.incoming == [] && |m.ready| == 1
    && m.ready[0].SellAnchor? && m.ready[0].no == no && m.ready[0].ts == ts
    && m.ready[0].stop == Some(ExitOf(k, ts, no))
  }

  lemma RiseIsShown(m: P.Memory, k: K, ts: Time, no: string)
    requires SawRise(m, k) && 0 <= ts
    ensures P.ShownAt(m, k.0, k.1, ts, no).stop == Some(ExitOf(k, ts, no))
  {
    ItemsOfOne(ItemWith(k, 100.4));
  }

  lemma SellIsBrought(m: P.Memory, k: K, ts: Time, no: string, signal: string)
    requires SawRise(m, k) && 0 <= ts
    ensures var m' := P.Hear(m, SellAccept(ts, no, k.0, k.1, signal));
            && m'.source == m.source && |m'.incoming| == 1 && m'.incoming[0].SellAnchor? && m'.incoming[0].no == no
            && m'.incoming[0].ts == ts && m'.incoming[0].stop == Some(ExitOf(k, ts, no))
  {
    RiseIsShown(P.Named(m, no), k, ts, no);
  }

  lemma SellIsHeard(m: P.Memory, k: K, ts: Time, no: string, signal: string)
    requires SawRise(m, k) && 0 <= ts
    ensures HoldsExit(P.Drained(P.FeedAll(m, [SellAccept(ts, no, k.0, k.1, signal)]), false), k, ts, no)
  {
    var ev := SellAccept(ts, no, k.0, k.1, signal);
    assert [ev][..0] == [];
    PG.PurgeKeepsCore(m, ts);
    SellIsBrought(P.Purge(m, ts), k, ts, no, signal);
  }

  lemma ItemsOfOne(item: Item)
    ensures P.ItemsByKey([item]) == map[item.Key() := item]
  {
    assert [item][..0] == [];
  }

  /** A small rise is not recorded. */
  lemma RiseIsSilent(t: S.Tracker, k: K)
    requires RecordedAt(t, k, 100.0)
    ensures var (t', evs) := S.Observe(t, Observation(SeenWith(k, 100.4, []).env));
            RecordedAt(t', k, 100.0) && evs == []
  {
    var o := Observation(SeenWith(k, 100.4, []).env);
    assert t.(phase := S.Steady) == t && S.ContextOf(t, o) == E.Plain(0);
    E.OneSeen(t, ItemWith(k, 100.4), E.Plain(0));
    assert (100.4 - 100.0) / 100.0 * 100.0 < 0.5;
  }

  /** Reading one line that sells, with nothing held: the pairer holds the sell, the tables keep their rows. */
  lemma SellIsRead(x: WD, g: Grammar, env: Env, l: T.Bytes, end: T.Cursor, k: K, ts: Time, no: string, signal: string)
    requires Quiet(x.d) && x.w.p.ready == [] && SawRise(x.w.p, k) && 0 <= ts && x.w.prevTs == None
    requires g.parse(l) == Some(SellAccept(ts, no, k.0, k.1, signal))
    requires RecordedAt(x.w.t, k, 100.0) && Observation(env) == Observation(SeenWith(k, 100.4, []).env)
    requires env.trades.None?
    ensures var y := Finish(x, g, env, [l], end).0;
            && HoldsExit(y.w.p, k, ts, no) && RecordedAt(y.w.t, k, 100.0) && y.w.booted == x.w.booted
            && Quiet(y.d) && y.d.stops == x.d.stops && y.d.orders == x.d.orders && y.w.cursor == Some(end)
  {
    OneParsed(g, l);
    SellIsHeard(x.w.p, k, ts, no, signal);
    FinishMemory(x, g, env, [l], end);
    RiseIsSilent(x.w.t, k);
    FinishTracks(x, g, env, [l], end);
    SellGathers(x, g, env, l);
  }

  lemma OneParsed(g: Grammar, l: T.Bytes)
    requires g.parse(l).Some?
    ensures Parsed(g, [l]) == [g.parse(l).value]
  {
    assert [l][..0] == [];
  }

  lemma SellGathers(x: WD, g: Grammar, env: Env, l: T.Bytes)
    requires g.parse(l).Some? && g.parse(l).value.SellAccept? && x.w.p.ready == [] && env.trades.None?
    requires S.Observe(x.w.t, Observation(env)).1 == []
    ensures Gathered(x, g, env, [l]).d == x.d
  {
    var ev := g.parse(l).value;
    OneParsed(g, l);
    assert [ev][..0] == [] && FillAll(x.d, [ev]) == x.d;
    FeedAllBrings(x.w.p, [ev]);
    E.CountSameTracker(x.w, [ev]);
    var y := Collect(x, g, [l]);
    assert P.RowsOf(y.w.p, [], map[]) == [];
    assert Release(y, map[]).d == y.d && Release(y, map[]).w.t == y.w.t;
  }

  lemma NewRowWritten(x: Written, row: Row)
    requires Quiet(x.d) && x.d.orders == map[] && x.sells == {} && row.key.side == Sell && !IsEmpty(row.source)
    ensures var y := WriteAll(x, [row]);
            y.sells == {row.key.no} && Quiet(y.d) && y.d.stops == x.d.stops && y.w.t == x.w.t
  {
    assert [row][..0] == [];
  }

  lemma OneExitKept(a: P.Anchor, ev: StopEvent, no: string)
    requires a.SellAnchor? && a.stop == Some(ev) && ev.sellNo == Some(no)
    ensures OfFresh(P.StopsOf([a]), {no}) == [ev]
  {
    assert [a][..0] == [] && P.StopsOf([a]) == [ev] && [ev][..0] == [];
  }

  /** Releasing it: the row is new, so the exit event is recorded. */
  lemma SellIsReleased(x: WD, k: K, ts: Time, no: string)
    requires Quiet(x.d) && x.d.orders == map[] && HoldsExit(x.w.p, k, ts, no)
    ensures var y := Release(x, map[]); y.d.stops == x.d.stops + [ExitOf(k, ts, no)] && y.w.t == x.w.t
  {
    var a := x.w.p.ready[0];
    var row := P.Finalize(x.w.p, a, map[]);
    assert x.w.p.ready == [a] && P.RowsOf(x.w.p, [a], map[]) == [row];
    RowOfAnchor(x.w.p, a, map[]);
    var start := Written(x.w.(p := P.Drained(x.w.p, false)), x.d, {});
    NewRowWritten(start, row);
    OneExitKept(a, ExitOf(k, ts, no), no);
    OneStop(WriteAll(start, [row]).d, ExitOf(k, ts, no));
  }

  /** A look at the log only, with the sell held: its exit row joins the table. */
  lemma ExitIsWritten(x: WD, g: Grammar, file: T.File, end: T.Cursor, k: K, ts: Time, no: string)
    requires Quiet(x.d) && x.d.orders == map[] && HoldsExit(x.w.p, k, ts, no)
    ensures var y := Finish(x, g, Blind(file), [], end).0;
            y.d.stops == x.d.stops + [ExitOf(k, ts, no)] && y.w.t == x.w.t && y.w.booted == x.w.booted
  {
    assert Collect(x, g, []) == x;
    SellIsReleased(x, k, ts, no);
    var z := Release(x, map[]);
    assert Track(z, Observation(Blind(file))) == z;
    FinishTracks(x, g, Blind(file), [], end);
    E.EndEods(Gathered(x, g, Blind(file), []), x.w.prevTs, g, Blind(file), [], end);
  }

  // ---- the run with the exit row -----------------------------------------------------------------------

  /** A snapshot with the stop risen a little, over the file with the line. */
  function SeenRisen(k: K, l: T.Bytes): Step {
    Rotation(Seeing(0, [ItemWith(k, 100.4)], TR.FileOf([l])), [], false)
  }

  function SeenNothing(l: T.Bytes): Step { Rotation(Blind(TR.FileOf([l])), [], false) }

  /** The line is one sell of the holding. */
  predicate SellLine(g: Grammar, l: T.Bytes, k: K, ts: Time, no: string, signal: string) {
    && T.NEWLINE !in l && |l| + 1 <= T.MAX_READ_BYTES && 0 <= ts
    && g.parse(l) == Some(SellAccept(ts, no, k.0, k.1, signal))
  }

  lemma ReadsLine(l: T.Bytes, c: Option<T.Cursor>)
    requires T.NEWLINE !in l && |l| + 1 <= T.MAX_READ_BYTES
    ensures var (dir, end) := (Blind(TR.FileOf([l])).dir, TR.End([l]));
            && (TR.AtStart(c) ==> T.ReadChunk(dir, c, T.MAX_READ_BYTES) == T.Chunk([l], end))
            && T.ReadChunk(dir, Some(end), T.MAX_READ_BYTES) == T.Chunk([], end)
  {
    if TR.AtStart(c) { TR.ReadsFile([l], c); }
    WindowAtEnd(TR.FileOf([l]));
  }

  /** The table has the first row; the line, and then the sell, are still to come. */
  ghost predicate OneRow(d: Db, k: K) {
    && |d.stops| == 1 && HoldingOf(d.stops[0]) == k && d.stops[0].observedAt == 0 && d.orders == map[]
  }

  ghost predicate BeforeLine(s: Run, k: K, l: T.Bytes) {
    && s.log == [TR.FileOf([l])] && E.Resting(s.w) && RecordedAt(s.w.t, k, 100.0) && OneRow(s.d, k)
    && s.w.p.source == LogHarvest
  }

  ghost predicate AfterLine(s: Run, k: K, l: T.Bytes, ts: Time, no: string) {
    && s.log == [TR.FileOf([l])] && s.w.booted && RecordedAt(s.w.t, k, 100.0) && OneRow(s.d, k)
    && HoldsExit(s.w.p, k, ts, no) && s.w.cursor == Some(TR.End([l]))
  }

  ghost predicate AfterExit(s: Run, k: K, ts: Time, no: string) {
    && s.w.booted && RecordedAt(s.w.t, k, 100.0)
    && k in LastStops(s.d.stops) && LastStops(s.d.stops)[k] == ExitOf(k, ts, no)
  }

  lemma RiseReady(w: WState, d: Db, k: K, l: T.Bytes)
    requires E.Resting(w) && w.p.source == LogHarvest
    ensures var env := SeenRisen(k, l).env;
            var w' := Shown(Ready(WD(w, d), env), env);
            E.Resting(w') && SawRise(w'.p, k) && w'.t == w.t
  {
  }

  /** Reading the line, from a worker ready to. */
  lemma LineTurns(w: WState, d: Db, g: Grammar, k: K, l: T.Bytes, ts: Time, no: string, signal: string)
    requires SellLine(g, l, k, ts, no, signal) && E.Resting(w) && SawRise(w.p, k) && RecordedAt(w.t, k, 100.0)
    requires Quiet(d)
    ensures var y := ReadOn(WD(w, d), g, SeenRisen(k, l).env).0;
            && HoldsExit(y.w.p, k, ts, no) && RecordedAt(y.w.t, k, 100.0) && y.w.booted
            && y.d.stops == d.stops && y.d.orders == d.orders && y.w.cursor == Some(TR.End([l]))
  {
    ReadsLine(l, w.cursor);
    SellIsRead(WD(w, d), g, SeenRisen(k, l).env, l, TR.End([l]), k, ts, no, signal);
  }

  /** Reading nothing more, from a worker that holds the sell. */
  lemma ExitTurns(w: WState, d: Db, g: Grammar, k: K, l: T.Bytes, ts: Time, no: string)
    requires T.NEWLINE !in l && |l| + 1 <= T.MAX_READ_BYTES && w.booted && w.cursor == Some(TR.End([l])) && Quiet(d)
    requires HoldsExit(w.p, k, ts, no) && d.orders == map[]
    ensures var y := ReadOn(WD(w, d), g, SeenNothing(l).env).0;
            y.d.stops == d.stops + [ExitOf(k, ts, no)] && y.w.t == w.t && y.w.booted
  {
    ReadsLine(l, None);
    ExitIsWritten(WD(w, d), g, TR.FileOf([l]), TR.End([l]), k, ts, no);
  }

  lemma LineIsSeen(s: Run, g: Grammar, k: K, l: T.Bytes, ts: Time, no: string, signal: string)
    requires SellLine(g, l, k, ts, no, signal) && BeforeLine(s, k, l)
    ensures AfterLine(Next(s, WorkerRotation(g), SeenRisen(k, l)), k, l, ts, no)
  {
    var env, d := SeenRisen(k, l).env, s.d.(faults := [], dying := false);
    var w := Shown(Ready(WD(s.w, d), env), env);
    RiseReady(s.w, d, k, l);
    LineTurns(w, d, g, k, l, ts, no, signal);
    NextReads(s, g, env, [], false);
    LineLeaves(s, ReadOn(WD(w, d), g, env).0, k, l, ts, no);
  }

  lemma LineLeaves(s: Run, y: WD, k: K, l: T.Bytes, ts: Time, no: string)
    requires BeforeLine(s, k, l) && HoldsExit(y.w.p, k, ts, no) && RecordedAt(y.w.t, k, 100.0) && y.w.booted
    requires y.d.stops == s.d.stops && y.d.orders == s.d.orders && y.w.cursor == Some(TR.End([l]))
    ensures AfterLine(Run(s.log, y.d, y.w, NextOrigin(s, y.d)), k, l, ts, no)
  {
  }

  lemma ExitIsSeen(s: Run, g: Grammar, k: K, l: T.Bytes, ts: Time, no: string, signal: string)
    requires SellLine(g, l, k, ts, no, signal) && AfterLine(s, k, l, ts, no)
    ensures AfterExit(Next(s, WorkerRotation(g), SeenNothing(l)), k, ts, no)
  {
    var env, d := SeenNothing(l).env, s.d.(faults := [], dying := false);
    var w := Shown(Ready(WD(s.w, d), env), env);
    assert w.p == s.w.p && w.t == s.w.t && w.cursor == s.w.cursor && w.booted;
    ExitTurns(w, d, g, k, l, ts, no);
    NextReads(s, g, env, [], false);
    ExitComesLast(s.d.stops, k, ts, no);
  }

  lemma ExitComesLast(stops: seq<StopEvent>, k: K, ts: Time, no: string)
    requires |stops| == 1 && HoldingOf(stops[0]) == k && stops[0].observedAt == 0 && 0 <= ts
    ensures var rows := LastStops(stops + [ExitOf(k, ts, no)]); k in rows && rows[k] == ExitOf(k, ts, no)
  {
    assert stops == [] + [stops[0]];
    LatestAfter([], stops[0], k);
    LatestAfter(stops, ExitOf(k, ts, no), k);
  }

  function ExitSteps(k: K, l: T.Bytes): seq<Step> {
    [] + [SeenWith(k, 100.0, E.Fines(3))] + [Append(T.Unlines([l]))] + [SeenRisen(k, l)] + [SeenNothing(l)]
  }

  /** Both looks at the file may take place. */
  lemma MaySee(s: Run, k: K, l: T.Bytes)
    requires s.log == [TR.FileOf([l])]
    ensures Enabled(s, SeenRisen(k, l)) && Enabled(s, SeenNothing(l))
  {
  }

  lemma MayLookFirst(k: K)
    ensures Enabled(Begin([OLD_FILE]), SeenWith(k, 100.0, E.Fines(3)))
  {
  }

  lemma FirstTwo(rotate: (WD, Env) -> WD, k: K, l: T.Bytes, s1: Run)
    requires s1 == Next(Begin([OLD_FILE]), rotate, SeenWith(k, 100.0, E.Fines(3)))
    ensures var steps := [] + [SeenWith(k, 100.0, E.Fines(3))] + [Append(T.Unlines([l]))];
            && AllEnabled(Begin([OLD_FILE]), rotate, steps)
            && RunAll(Begin([OLD_FILE]), rotate, steps) == s1.(log := T.Appended(s1.log, T.Unlines([l])))
  {
    var s0, first := Begin([OLD_FILE]), SeenWith(k, 100.0, E.Fines(3));
    MayLookFirst(k);
    TwoMore(s0, rotate, [], first, Append(T.Unlines([l])), s0, s1);
  }

  lemma ExitPlays(rotate: (WD, Env) -> WD, k: K, l: T.Bytes, pre: seq<Step>, s2: Run, s3: Run)
    requires AllEnabled(Begin([OLD_FILE]), rotate, pre) && RunAll(Begin([OLD_FILE]), rotate, pre) == s2
    requires s2.log == s3.log == [TR.FileOf([l])] && s3 == Next(s2, rotate, SeenRisen(k, l))
    ensures var steps := pre + [SeenRisen(k, l)] + [SeenNothing(l)];
            && AllEnabled(Begin([OLD_FILE]), rotate, steps)
            && RunAll(Begin([OLD_FILE]), rotate, steps) == Next(s3, rotate, SeenNothing(l))
  {
    MaySee(s2, k, l);
    MaySee(s3, k, l);
    TwoMore(Begin([OLD_FILE]), rotate, pre, SeenRisen(k, l), SeenNothing(l), s2, s3);
  }

  lemma AppendedLine(s: Run, k: K, l: T.Bytes)
    requires FirstSeen(s, k)
    ensures BeforeLine(s.(log := T.Appended(s.log, T.Unlines([l]))), k, l)
  {
    assert [] + T.Unlines([l]) == T.Unlines([l]);
    assert T.Appended(s.log, T.Unlines([l])) == [TR.FileOf([l])];
  }

  /** The run: a stop price is recorded, it rises a little, which is not recorded, and the holding is sold. The
      exit row bears the risen stop and is the latest, so a tracker started from the table has that as its
      record, where the running one still has the first. */
  lemma ExitRowLeads(g: Grammar, k: K, l: T.Bytes, ts: Time, no: string, signal: string)
    requires SellLine(g, l, k, ts, no, signal)
    ensures var s := RunAll(Begin([OLD_FILE]), WorkerRotation(g), ExitSteps(k, l));
            && AllEnabled(Begin([OLD_FILE]), WorkerRotation(g), ExitSteps(k, l))
            && ExitIsLatest(s.d.stops, k) && RecordedAt(s.w.t, k, 100.0)
            && S.Get(S.FromRows(LastStops(s.d.stops)).last, k) == Some(RowWith(100.4))
  {
    var s1 := Next(Begin([OLD_FILE]), WorkerRotation(g), SeenWith(k, 100.0, E.Fines(3)));
    SeesFirst(g, k);
    var s2 := s1.(log := T.Appended(s1.log, T.Unlines([l])));
    AppendedLine(s1, k, l);
    LineIsSeen(s2, g, k, l, ts, no, signal);
    var s3 := Next(s2, WorkerRotation(g), SeenRisen(k, l));
    ExitIsSeen(s3, g, k, l, ts, no, signal);
    FirstTwo(WorkerRotation(g), k, l, s1);
    ExitPlays(WorkerRotation(g), k, l, [] + [SeenWith(k, 100.0, E.Fines(3))] + [Append(T.Unlines([l]))], s2, s3);
  }
}
