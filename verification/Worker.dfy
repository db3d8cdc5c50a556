/** One rotation of the journal worker, as functions of its own state, the tables and what it is shown. */
module Worker {
  import opened Basics
  import opened Journal
  import opened JournalDb
  import P = Pairing
  import R = Reconcile
  import S = Stops
  import T = Tailer

  const RECONCILE_EVERY := 60 * SECOND
  const CATCHUP_MARGIN := 64 * 1024

  /** What the line grammar makes of a line: its event, and its time stamp. */
  datatype Grammar = Grammar(parse: T.Bytes -> Option<Event>, lineTs: T.Bytes -> Option<Time>)

  /** What one rotation is shown: the clock, whether starting up fails, the two snapshots (None when the
      fetch fails), the two looks at the trade history (None when they fail), and the log directory. */
  datatype Env = Env(now: Time, bootFails: bool, g0: Option<G0>, g1: Option<G1>, trades: Option<seq<R.TradeRow>>,
                     dayTrades: Option<seq<R.TradeRow>>, dir: T.Dir)

  /** Everything a crash loses. */
  datatype WState = WState(
    booted: bool, p: P.Memory, t: S.Tracker, cursor: Option<T.Cursor>, prevEnd: Option<T.Cursor>, prevTs: Option<Time>,
    lastReconcile: Option<Time>, lastResult: Option<R.Check>, day: Option<int>, dones: seq<R.DoneEvent>,
    rows: seq<R.DayRow>, journalKeys: set<Key>, doneSides: set<R.Pair>, counted: set<R.Pair>)

  datatype Status = Idle | Active | Degraded | Raised

  function Start(): WState {
    WState(false, P.Empty(LogHarvest), S.FromRows(map[]), None, None, None, None, None, None, [], [], {}, {}, {})
  }

  function Booted(w: WState, d: Db): WState {
    w.(booted := true, cursor := d.cursor, prevEnd := d.cursor, t := S.FromRows(LastStops(d.stops)))
  }

  function RollDay(w: WState, now: Time): WState {
    if w.day == Some(Date(now)) then w
    else w.(day := Some(Date(now)), dones := [], rows := [], journalKeys := {}, doneSides := {}, counted := {},
            lastResult := None)
  }

  // ---- reading lines ---------------------------------------------------------------------

  function Parsed(g: Grammar, lines: seq<T.Bytes>): seq<Event> {
    if lines == [] then []
    else
      var ev := g.parse(lines[|lines| - 1]);
      Parsed(g, lines[..|lines| - 1]) + (if ev.Some? then [ev.value] else [])
  }

  /** Time of the last line that has one. */
  function LastLineTs(g: Grammar, lines: seq<T.Bytes>): Option<Time> {
    if lines == [] then None
    else
      var ts := g.lineTs(lines[|lines| - 1]);
      if ts.Some? then ts else LastLineTs(g, lines[..|lines| - 1])
  }

  predicate CatchingUp(lines: seq<T.Bytes>) { T.Consumed(lines) >= T.MAX_READ_BYTES - CATCHUP_MARGIN }

  /** A completion is counted once per order and side. */
  function CountDone(w: WState, ev: Event): WState {
    if ev.OrderDone? && (ev.orderNo, ev.doneSide) !in w.doneSides
    then w.(doneSides := w.doneSides + {(ev.orderNo, ev.doneSide)},
            dones := w.dones + [R.DoneEvent(ev.doneSide, ev.orderNo, ev.ts)])
    else w
  }

  function CountDones(w: WState, evs: seq<Event>): WState {
    if evs == [] then w else CountDone(CountDones(w, evs[..|evs| - 1]), evs[|evs| - 1])
  }

  predicate Divides(ev: Event) { ev.OrderNotice? && ev.rctf == "0" && ev.division.Some? }

  function FillFrom(d: Db, ev: Event): Db {
    if Divides(ev) then Fill(d, Key(Date(ev.ts), ev.orderNo, ev.noticeSide), ev.division.value) else d
  }

  function FillAll(d: Db, evs: seq<Event>): Db {
    if evs == [] then d else FillFrom(FillAll(d, evs[..|evs| - 1]), evs[|evs| - 1])
  }

  // ---- writing rows ----------------------------------------------------------------------

  function CodeOf(row: Row): Option<string> {
    if ReasonCode in row.cells && row.cells[ReasonCode].Text? then Some(row.cells[ReasonCode].text) else None
  }

  function DayRowOf(row: Row): R.DayRow {
    R.DayRow(row.key.side, Some(row.key.no), row.source, CodeOf(row), row.notedAt)
  }

  /** A row that raised no error is known; a measured one is counted once per order and side. */
  function Noted(w: WState, row: Row): WState {
    var pair, w1 := (row.key.no, row.key.side), w.(journalKeys := w.journalKeys + {row.key});
    if IsEmpty(row.source) || pair in w.counted then w1
    else w1.(counted := w.counted + {pair}, rows := w.rows + [DayRowOf(row)])
  }

  datatype Written = Written(w: WState, d: Db, sells: set<string>)

  /** Write one row; a fresh sell's number is remembered for its exit event. */
  function WriteOne(x: Written, row: Row): Written {
    var (d, noError, isFresh) := WriteRow(x.d, row);
    Written(if noError then Noted(x.w, row) else x.w, d,
            if isFresh && row.key.side == Sell then x.sells + {row.key.no} else x.sells)
  }

  function WriteAll(x: Written, rows: seq<Row>): Written {
    if rows == [] then x else WriteOne(WriteAll(x, rows[..|rows| - 1]), rows[|rows| - 1])
  }

  function AddStops(d: Db, evs: seq<StopEvent>): Db {
    if evs == [] then d else AddStop(AddStops(d, evs[..|evs| - 1]), evs[|evs| - 1])
  }

  /** Exit events of sells freshly written in this rotation. */
  function OfFresh(stops: seq<StopEvent>, sells: set<string>): seq<StopEvent> {
    if stops == [] then []
    else
      var ev := stops[|stops| - 1];
      OfFresh(stops[..|stops| - 1], sells) + (if ev.sellNo.Some? && ev.sellNo.value in sells then [ev] else [])
  }

  function Strategies(trades: seq<R.TradeRow>): map<string, string> {
    if trades == [] then map[]
    else
      var before, t := Strategies(trades[..|trades| - 1]), trades[|trades| - 1];
      if t.strategy == "" then before else before[t.no := t.strategy]
  }

  function StrategiesSeen(trades: Option<seq<R.TradeRow>>): map<string, string> {
    if trades.Some? then Strategies(trades.value) else map[]
  }

  // ---- the phases of a rotation ------------------------------------------------------------

  datatype WD = WD(w: WState, d: Db)

  /** Count completions, fill divisions, feed the pairer. */
  function Collect(x: WD, g: Grammar, lines: seq<T.Bytes>): WD {
    var evs := Parsed(g, lines);
    WD(CountDones(x.w, evs).(p := P.FeedAll(x.w.p, evs)), FillAll(x.d, evs))
  }

  /** Let go the anchors held one rotation, write their rows and the exit events of the fresh sells. */
  function Release(x: WD, trades: map<string, string>): WD {
    var leaving := P.Leaving(x.w.p, false);
    var out := WriteAll(Written(x.w.(p := P.Drained(x.w.p, false)), x.d, {}), P.RowsOf(x.w.p, leaving, trades));
    WD(out.w, AddStops(out.d, OfFresh(P.StopsOf(leaving), out.sells)))
  }

  function Track(x: WD, o: S.Obs): WD {
    var (t, evs) := S.Observe(x.w.t, o);
    WD(x.w.(t := t), AddStops(x.d, evs))
  }

  /** The cursor saved is the end of the chunk before this one. */
  function Target(w: WState, end: T.Cursor): T.Cursor {
    if w.prevEnd.Some? then w.prevEnd.value else T.Cursor(end.inode, 0)
  }

  /** A failed save raises: the worker keeps its old cursor and will read the chunk again. */
  function Commit(x: WD, end: T.Cursor, ts: Option<Time>): (WD, bool) {
    var (d, ok) := SaveCursor(x.d, Target(x.w, end));
    (WD(if ok
        then x.w.(prevEnd := Some(end), cursor := Some(end), prevTs := if ts.Some? then ts else x.w.prevTs)
        else x.w, d), ok)
  }

  predicate ReconcileDue(w: WState, now: Time, upTo: Option<Time>, lines: seq<T.Bytes>) {
    upTo.Some? && !CatchingUp(lines) && (w.lastReconcile.Some? ==> now - w.lastReconcile.value >= RECONCILE_EVERY)
  }

  function Compared(w: WState, upTo: Time): R.Check {
    var cutoff := upTo - R.MIN_AGE;
    R.Identities(R.KeptDones(w.dones, R.RowTimes(w.rows), cutoff), R.KeptRows(w.rows, R.DoneTimes(w.dones), cutoff))
  }

  function Reconciled(x: WD, now: Time, trades: Option<seq<R.TradeRow>>, upTo: Time): WD {
    var w := x.w.(lastReconcile := Some(now));
    if trades.None? then WD(w, x.d)
    else
      var rows := R.HistoryRows(trades.value, w.journalKeys, P.ExternalNotices(w.p), upTo);
      var out := WriteAll(Written(w, x.d, {}), rows);
      WD(out.w.(lastResult := Some(Compared(out.w, upTo))), out.d)
  }

  function Observation(env: Env): S.Obs { S.Obs(env.now, env.g0, if env.g0.None? then None else env.g1, {}) }

  /** Everything up to the save. */
  function Gathered(x: WD, g: Grammar, env: Env, lines: seq<T.Bytes>): WD {
    Track(Release(Collect(x, g, lines), StrategiesSeen(env.trades)), Observation(env))
  }

  function Finish(x: WD, g: Grammar, env: Env, lines: seq<T.Bytes>, end: T.Cursor): (WD, Status) {
    var (y, ok) := Commit(Gathered(x, g, env, lines), end, LastLineTs(g, lines));
    if !ok then (y, Raised)
    else (if ReconcileDue(y.w, env.now, x.w.prevTs, lines)
          then Reconciled(y, env.now, env.dayTrades, x.w.prevTs.value)
          else y,
          if Observation(env).g1.None? then Degraded else Active)
  }

  predicate IsIdle(g0: Option<G0>) { g0.Some? && (!g0.value.running || g0.value.phase == "idle") }

  /** The worker ready to read: started up if need be, and in the right day. */
  function Ready(x: WD, env: Env): WState { RollDay(if x.w.booted then x.w else Booted(x.w, x.d), env.now) }

  function Shown(w: WState, env: Env): WState {
    var o := Observation(env);
    w.(p := P.FeedSnapshot(w.p, o.g0, o.g1, o.at))
  }

  /** What a rotation that reads does: the chunk read decides the rest. */
  function ReadOn(x: WD, g: Grammar, env: Env): (WD, Status) {
    match T.ReadChunk(env.dir, x.w.cursor, T.MAX_READ_BYTES)
    case Missing => (x, Raised)
    case Chunk(lines, end) => Finish(x, g, env, lines, end)
  }

  function Rotate(x: WD, g: Grammar, env: Env): (WD, Status) {
    if !x.w.booted && env.bootFails then (x, Raised)
    else
      var w := Ready(x, env);
      if IsIdle(env.g0) then (WD(w, x.d), Idle) else ReadOn(WD(Shown(w, env), x.d), g, env)
  }
}
