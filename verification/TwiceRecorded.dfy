/** Exit events recorded twice: exactly which chunks of log can make it happen, and the run that does. */
module TwiceRecorded {
  import opened Basics
  import opened Journal
  import opened JournalDb
  import opened Readings
  import opened Worker
  import opened WorkerLoss
  import opened WorkerOnce
  import opened WorkerRuns
  import opened WorkerTwice
  import P = Pairing
  import S = Stops
  import T = Tailer

  // ---- runs that read nothing but given lines --------------------------------------------------------

  /** Every rotation of the run reads nothing or the given lines. */
  ghost predicate ReadsOnly(s: Run, rotate: (WD, Env) -> WD, steps: seq<Step>, lines: seq<T.Bytes>)
    requires s.log != []
  {
    forall n :: 0 <= n < |steps| ==> ReadsOnlyAt(s, rotate, steps, lines, n)
  }

  ghost predicate ReadsOnlyAt(s: Run, rotate: (WD, Env) -> WD, steps: seq<Step>, lines: seq<T.Bytes>, n: int)
    requires s.log != [] && 0 <= n < |steps|
  {
    steps[n].Rotation? ==> ReadsOne(RunAll(s, rotate, steps[..n]), steps[n].env, lines)
  }

  predicate ReadsOne(s: Run, env: Env, lines: seq<T.Bytes>) { NoneOr(ReadLines(WD(s.w, s.d), env), lines) }

  predicate NoneOr(read: seq<T.Bytes>, lines: seq<T.Bytes>) { read == [] || read == lines }

  /** The pairer has read the lines some number of times, and nothing else. */
  ghost predicate InReadings(m: P.Memory, evs: seq<Event>) { exists r: nat :: HasRead(m, evs, r) }

  lemma DrainStays(m: P.Memory, g: Grammar, read: seq<T.Bytes>, lines: seq<T.Bytes>)
    requires InReadings(m, Parsed(g, lines)) && NoneOr(read, lines)
    ensures InReadings(P.Drained(P.FeedAll(m, Parsed(g, read)), false), Parsed(g, lines))
  {
    var r: nat :| HasRead(m, Parsed(g, lines), r);
    if read == lines {
      ReadsAgain(m, Parsed(g, lines), r);
    } else {
      assert Parsed(g, read) == [];
      ReadsNothing(m, Parsed(g, lines), r, None, None, 0);
    }
  }

  lemma ReadStays(x: WD, g: Grammar, env: Env, lines: seq<T.Bytes>)
    requires x.w.booted && InReadings(x.w.p, Parsed(g, lines)) && NoneOr(ReadLines(x, env), lines)
    ensures InReadings(ReadOn(x, g, env).0.w.p, Parsed(g, lines))
  {
    var chunk := T.ReadChunk(env.dir, x.w.cursor, T.MAX_READ_BYTES);
    if chunk.Chunk? {
      FinishMemory(x, g, env, chunk.lines, chunk.cursor);
      DrainStays(x.w.p, g, chunk.lines, lines);
    }
  }

  lemma ReadyStays(x: WD, env: Env, evs: seq<Event>)
    requires InReadings(x.w.p, evs)
    ensures var w := Shown(Ready(x, env), env);
            && w.booted && InReadings(w.p, evs) && InReadings(Ready(x, env).p, evs)
            && ReadLines(WD(w, x.d), env) == ReadLines(x, env)
  {
    var r: nat :| HasRead(x.w.p, evs, r);
    var o := Observation(env);
    ReadsNothing(x.w.p, evs, r, o.g0, o.g1, o.at);
  }

  lemma RotateStays(x: WD, g: Grammar, env: Env, lines: seq<T.Bytes>)
    requires InReadings(x.w.p, Parsed(g, lines)) && NoneOr(ReadLines(x, env), lines)
    ensures InReadings(Rotate(x, g, env).0.w.p, Parsed(g, lines))
  {
    if x.w.booted || !env.bootFails {
      ReadyStays(x, env, Parsed(g, lines));
      ReadStays(WD(Shown(Ready(x, env), env), x.d), g, env, lines);
    }
  }

  ghost predicate KeepsReading(rotate: (WD, Env) -> WD, g: Grammar, lines: seq<T.Bytes>) {
    forall x: WD, env: Env :: InReadings(x.w.p, Parsed(g, lines)) && NoneOr(ReadLines(x, env), lines) ==>
      InReadings(rotate(x, env).w.p, Parsed(g, lines))
  }

  lemma WorkerKeepsReading(g: Grammar, lines: seq<T.Bytes>)
    ensures KeepsReading(WorkerRotation(g), g, lines)
  {
    forall x: WD, env: Env | InReadings(x.w.p, Parsed(g, lines)) && NoneOr(ReadLines(x, env), lines)
      ensures InReadings(WorkerRotation(g)(x, env).w.p, Parsed(g, lines))
    {
      RotateStays(x, g, env, lines);
    }
  }

  lemma NextStays(s: Run, rotate: (WD, Env) -> WD, g: Grammar, lines: seq<T.Bytes>, step: Step)
    requires s.log != [] && KeepsReading(rotate, g, lines) && InReadings(s.w.p, Parsed(g, lines))
    requires step.Rotation? ==> ReadsOne(s, step.env, lines)
    ensures InReadings(Next(s, rotate, step).w.p, Parsed(g, lines))
  {
    NothingRead(Parsed(g, lines));
    if step.Rotation? {
      var x := WD(s.w, s.d.(faults := step.faults, dying := step.dies));
      assert ReadLines(x, step.env) == ReadLines(WD(s.w, s.d), step.env);
    }
  }

  lemma PrefixReadsOnly(s: Run, rotate: (WD, Env) -> WD, steps: seq<Step>, lines: seq<T.Bytes>, n: nat)
    requires s.log != [] && n <= |steps| && ReadsOnly(s, rotate, steps, lines)
    ensures ReadsOnly(s, rotate, steps[..n], lines)
  {
    forall m | 0 <= m < n ensures ReadsOnlyAt(s, rotate, steps[..n], lines, m) {
      assert ReadsOnlyAt(s, rotate, steps, lines, m) && steps[..n][..m] == steps[..m];
    }
  }

  lemma {:induction false} RunStays(s: Run, rotate: (WD, Env) -> WD, g: Grammar, lines: seq<T.Bytes>, steps: seq<Step>)
    requires s.log != [] && KeepsReading(rotate, g, lines) && InReadings(s.w.p, Parsed(g, lines))
    requires ReadsOnly(s, rotate, steps, lines)
    ensures InReadings(RunAll(s, rotate, steps).w.p, Parsed(g, lines))
  {
    if steps != [] {
      var n := |steps| - 1;
      PrefixReadsOnly(s, rotate, steps, lines, n);
      RunStays(s, rotate, g, lines, steps[..n]);
      assert ReadsOnlyAt(s, rotate, steps, lines, n);
      NextStays(RunAll(s, rotate, steps[..n]), rotate, g, lines, steps[n]);
    }
  }

  lemma SafeIsQuiet(s: Run, rotate: (WD, Env) -> WD, g: Grammar, lines: seq<T.Bytes>, steps: seq<Step>, no: string)
    requires s.log != [] && KeepsReading(rotate, g, lines) && InReadings(s.w.p, Parsed(g, lines))
    requires ReadsOnly(s, rotate, steps, lines) && AlwaysSafe(Parsed(g, lines), no)
    ensures QuietBatches(s, rotate, steps, no)
  {
    forall n | 0 <= n < |steps| ensures QuietAt(s, rotate, steps, no, n) {
      PrefixReadsOnly(s, rotate, steps, lines, n);
      RunStays(s, rotate, g, lines, steps[..n]);
      var m := RunAll(s, rotate, steps[..n]).w.p;
      var r: nat :| HasRead(m, Parsed(g, lines), r);
      ReadingIsSafe(m, Parsed(g, lines), r, no);
    }
  }

  // ---- rotations whose first statements fail ---------------------------------------------------------

  function Failing(n: nat): seq<Fault> { seq(n, _ => NotApplied) }

  lemma OneLessFailing(n: nat, rest: seq<Fault>)
    ensures Failing(n + 1) + rest == Failing(n) + ([NotApplied] + rest)
    ensures Failing(0) + rest == rest
  {
  }

  /** How many statements the division notices of a chunk take. */
  function Fills(evs: seq<Event>): nat {
    if evs == [] then 0 else Fills(evs[..|evs| - 1]) + (if Divides(evs[|evs| - 1]) then 1 else 0)
  }

  lemma {:induction false} FillAllFails(d: Db, evs: seq<Event>, rest: seq<Fault>)
    requires d.faults == Failing(Fills(evs)) + rest
    ensures FillAll(d, evs) == d.(faults := rest)
  {
    if evs == [] {
      OneLessFailing(0, rest);
    } else {
      var before := evs[..|evs| - 1];
      if Divides(evs[|evs| - 1]) {
        OneLessFailing(Fills(before), rest);
        FillAllFails(d, before, [NotApplied] + rest);
        assert ([NotApplied] + rest)[1..] == rest;
      } else {
        FillAllFails(d, before, rest);
      }
    }
  }

  /** What failing writes leave of the tables. */
  ghost predicate Unwritten(x: Written, y: Written, rest: seq<Fault>) {
    && y.d.faults == rest && y.d.orders == x.d.orders && y.d.stops == x.d.stops && y.d.dying == x.d.dying
    && y.d.cursor == x.d.cursor && y.sells == x.sells
  }

  lemma {:induction false} WriteAllFails(x: Written, rows: seq<Row>, rest: seq<Fault>)
    requires x.d.faults == Failing(|rows|) + rest
    ensures Unwritten(x, WriteAll(x, rows), rest)
  {
    if rows == [] {
      OneLessFailing(0, rest);
    } else {
      OneLessFailing(|rows| - 1, rest);
      WriteAllFails(x, rows[..|rows| - 1], [NotApplied] + rest);
      assert ([NotApplied] + rest)[1..] == rest;
    }
  }

  lemma {:induction false} WriteAllConcat(x: Written, a: seq<Row>, b: seq<Row>)
    ensures WriteAll(x, a + b) == WriteAll(WriteAll(x, a), b)
  {
    if b == [] {
      assert a + b == a;
    } else {
      assert (a + b)[..|a + b| - 1] == a + b[..|b| - 1];
      WriteAllConcat(x, a, b[..|b| - 1]);
    }
  }

  /** Insertions that fail leave the rows as they were. */
  lemma {:induction false} AddStopsFails(d: Db, evs: seq<StopEvent>, n: nat)
    requires d.faults == Failing(|evs| + n)
    ensures var d' := AddStops(d, evs);
            && d'.faults == Failing(n) && d'.orders == d.orders && d'.stops == d.stops && d'.dying == d.dying
            && d'.cursor == d.cursor
  {
    if evs != [] {
      AddStopsFails(d, evs[..|evs| - 1], n + 1);
      assert Failing(n + 1)[1..] == Failing(n);
    }
  }

  lemma {:induction false} NothingFresh(stops: seq<StopEvent>)
    ensures OfFresh(stops, {}) == []
  {
    if stops != [] { NothingFresh(stops[..|stops| - 1]); }
  }

  lemma {:induction false} AtMostOneEach(t: S.Tracker, items: G1, c: S.Context)
    ensures |S.ObserveItems(t, items, c).1| <= |items|
  {
    if items != [] { AtMostOneEach(t, items[..|items| - 1], c); }
  }

  lemma EventsAtMost(t: S.Tracker, o: S.Obs)
    ensures |S.Observe(t, o).1| <= if o.g1.Some? then |o.g1.value| else 0
  {
    if S.Processed(t, o) { AtMostOneEach(t.(phase := S.Steady), o.g1.value, S.ContextOf(t, o)); }
  }

  // ---- a rotation in which every statement fails -------------------------------------------------------

  /** What a reading in which every statement fails leaves: only the pairer and the tracker move. */
  ghost predicate OnlyRead(x: WD, y: WD, evs: seq<Event>) {
    && y.w.p == P.Drained(P.FeedAll(x.w.p, evs), false) && SameCursors(x.w, y.w) && y.w.prevTs == x.w.prevTs
    && y.d.orders == x.d.orders && y.d.stops == x.d.stops && y.d.cursor == x.d.cursor
  }

  lemma CollectFails(x: WD, g: Grammar, lines: seq<T.Bytes>, rest: seq<Fault>)
    requires x.d.faults == Failing(Fills(Parsed(g, lines))) + rest
    ensures var y := Collect(x, g, lines);
            && y.d == x.d.(faults := rest) && SameCursors(x.w, y.w) && y.w.prevTs == x.w.prevTs
            && y.w.p == P.FeedAll(x.w.p, Parsed(g, lines))
  {
    CountKeepsCursors(x.w, Parsed(g, lines));
    CountKeepsTime(x.w, Parsed(g, lines));
    FillAllFails(x.d, Parsed(g, lines), rest);
  }

  lemma {:induction false} CountKeepsTime(w: WState, evs: seq<Event>)
    ensures CountDones(w, evs).prevTs == w.prevTs
  {
    if evs != [] { CountKeepsTime(w, evs[..|evs| - 1]); }
  }

  lemma {:induction false} WriteKeepsTime(x: Written, rows: seq<Row>)
    ensures WriteAll(x, rows).w.prevTs == x.w.prevTs
  {
    if rows != [] { WriteKeepsTime(x, rows[..|rows| - 1]); }
  }

  lemma ReleaseAllFails(x: WD, n: nat)
    requires x.d.faults == Failing(|x.w.p.ready| + n)
    ensures var y := Release(x, map[]);
            && y.w.p == P.Drained(x.w.p, false) && SameCursors(x.w, y.w) && y.w.prevTs == x.w.prevTs
            && y.d.faults == Failing(n) && y.d.orders == x.d.orders && y.d.stops == x.d.stops
            && y.d.cursor == x.d.cursor
  {
    var leaving := P.Leaving(x.w.p, false);
    var rows := P.RowsOf(x.w.p, leaving, map[]);
    var start := Written(x.w.(p := P.Drained(x.w.p, false)), x.d, {});
    assert Failing(|rows| + n) == Failing(|rows|) + Failing(n);
    WriteAllFails(start, rows, Failing(n));
    WriteKeepsCursors(start, rows);
    WriteKeepsTime(start, rows);
    NothingFresh(P.StopsOf(leaving));
  }

  lemma TrackFails(x: WD, o: S.Obs, n: nat)
    requires x.d.faults == Failing(n) && n > if o.g1.Some? then |o.g1.value| else 0
    ensures var y := Track(x, o);
            && y.w == x.w.(t := y.w.t) && y.d.orders == x.d.orders && y.d.stops == x.d.stops
            && y.d.cursor == x.d.cursor && NextFault(y.d) == NotApplied
  {
    var evs := S.Observe(x.w.t, o).1;
    EventsAtMost(x.w.t, o);
    AddStopsFails(x.d, evs, n - |evs|);
  }

  function ItemCount(env: Env): nat { if env.g0.Some? && env.g1.Some? then |env.g1.value| else 0 }

  lemma GatherFails(x: WD, g: Grammar, env: Env, lines: seq<T.Bytes>, n: nat)
    requires env.trades.None? && n > |x.w.p.ready| + ItemCount(env)
    requires x.d.faults == Failing(Fills(Parsed(g, lines))) + Failing(n)
    ensures var y := Gathered(x, g, env, lines); OnlyRead(x, y, Parsed(g, lines)) && NextFault(y.d) == NotApplied
  {
    var evs := Parsed(g, lines);
    var y := Collect(x, g, lines);
    CollectFails(x, g, lines, Failing(n));
    FeedAllBrings(x.w.p, evs);
    ReleaseAllFails(y, n - |x.w.p.ready|);
    TrackFails(Release(y, map[]), Observation(env), n - |x.w.p.ready|);
  }

  lemma AllFails(x: WD, g: Grammar, env: Env, lines: seq<T.Bytes>, end: T.Cursor, n: nat)
    requires env.trades.None? && n > |x.w.p.ready| + ItemCount(env)
    requires x.d.faults == Failing(Fills(Parsed(g, lines))) + Failing(n)
    ensures OnlyRead(x, Finish(x, g, env, lines, end).0, Parsed(g, lines))
  {
    GatherFails(x, g, env, lines, n);
  }

  // ---- a rotation that writes one row of the batch -------------------------------------------------------

  /** The faults that let only row `i` of so many be written. */
  function OnlyRow(i: nat, rows: nat): seq<Fault>
    requires i < rows
  {
    Failing(i) + ([Fine] + (Failing(rows - i - 1) + []))
  }

  lemma OneRowWritten(x: Written, rows: seq<Row>, i: nat)
    requires i < |rows| && x.d.faults == OnlyRow(i, |rows|) && x.d.orders == map[] && x.sells == {}
    requires rows[i].key.side == Sell && !IsEmpty(rows[i].source) && !x.d.dying
    ensures var y := WriteAll(x, rows);
            && Quiet(y.d) && y.d.orders == map[rows[i].key := rows[i]] && y.d.stops == x.d.stops
            && y.d.cursor == x.d.cursor && y.sells == {rows[i].key.no}
  {
    var pre, row, post := rows[..i], rows[i], rows[i + 1..];
    assert rows == pre + ([row] + post);
    WriteAllFails(x, pre, [Fine] + (Failing(|post|) + []));
    WriteAllConcat(x, pre, [row] + post);
    var x1 := WriteAll(x, pre);
    RowWritten(x1, row, Failing(|post|) + []);
    WriteAllConcat(x1, [row], post);
    WriteAllFails(WriteAll(x1, [row]), post, []);
  }

  lemma RowWritten(x: Written, row: Row, rest: seq<Fault>)
    requires x.d.faults == [Fine] + rest && x.d.orders == map[] && x.sells == {}
    requires row.key.side == Sell && !IsEmpty(row.source)
    ensures var y := WriteAll(x, [row]);
            && y.d.faults == rest && y.d.orders == map[row.key := row] && y.d.stops == x.d.stops
            && y.d.dying == x.d.dying && y.d.cursor == x.d.cursor && y.sells == {row.key.no}
  {
    assert [row][..0] == [] && x.d.faults[1..] == rest;
  }

  /** Only the key's own row is in the table, and the batch's exit events of the key have been recorded. */
  ghost predicate WroteOne(d: Db, d': Db, batch: seq<P.Anchor>, k: Key) {
    && Quiet(d') && Keyed(d'.orders) && d'.orders.Keys == {k}
    && ExitCount(d'.stops, k) == ExitCount(d.stops, k) + StopsFor(batch, k)
  }

  lemma ReleaseWritesOne(x: WD, i: nat)
    requires i < |x.w.p.ready| && x.w.p.ready[i].SellAnchor? && GoodAnchors(x.w.p.ready) && x.w.p.source == LogHarvest
    requires x.d.faults == OnlyRow(i, |x.w.p.ready|) && x.d.orders == map[] && !x.d.dying
    ensures WroteOne(x.d, Release(x, map[]).d, x.w.p.ready, x.w.p.ready[i].Key())
    ensures Release(x, map[]).d.cursor == x.d.cursor
  {
    var batch, k := P.Leaving(x.w.p, false), x.w.p.ready[i].Key();
    var rows := P.RowsOf(x.w.p, batch, map[]);
    var start := Written(x.w.(p := P.Drained(x.w.p, false)), x.d, {});
    RowOfAnchor(x.w.p, batch[i], map[]);
    OneRowWritten(start, rows, i);
    ExitsRecorded(WriteAll(start, rows), batch, k);
  }

  lemma ExitsRecorded(x: Written, batch: seq<P.Anchor>, k: Key)
    requires Quiet(x.d) && GoodAnchors(batch) && k.no in x.sells
    ensures var d' := AddStops(x.d, OfFresh(P.StopsOf(batch), x.sells));
            && Quiet(d') && d'.orders == x.d.orders && d'.cursor == x.d.cursor
            && ExitCount(d'.stops, k) == ExitCount(x.d.stops, k) + StopsFor(batch, k)
  {
    var exits := OfFresh(P.StopsOf(batch), x.sells);
    BatchExits(batch, x.sells, k);
    QuietStops(x.d, exits, k);
    AddStopsLater(x.d, exits);
  }

  /** A rotation that sees nothing but the log: lines and drain, no snapshot, no look-up. */
  lemma BlindIsRelease(x: WD, g: Grammar, file: T.File, lines: seq<T.Bytes>)
    ensures Gathered(x, g, Blind(file), lines) == Release(Collect(x, g, lines), map[])
  {
    var y := Release(Collect(x, g, lines), map[]);
    assert Track(y, Observation(Blind(file))) == y;
  }

  lemma BlindCommits(x: WD, g: Grammar, file: T.File, lines: seq<T.Bytes>, end: T.Cursor)
    requires Quiet(Gathered(x, g, Blind(file), lines).d) && x.w.prevTs == None
    ensures var (before, y) := (Gathered(x, g, Blind(file), lines), Finish(x, g, Blind(file), lines, end).0);
            y.d == before.d.(cursor := Some(Target(before.w, end)))
  {
  }

  /** What the release of a whole batch records, from a table with one key. */
  ghost predicate WroteRest(d: Db, d': Db, batch: seq<P.Anchor>, k: Key) {
    ExitCount(d'.stops, k)
    == ExitCount(d.stops, k) + (if FreshSell(d.orders, batch, k.no) then StopsFor(batch, k) else 0)
  }

  lemma BlindKeepsPrevEnd(x: WD, g: Grammar, file: T.File, lines: seq<T.Bytes>)
    ensures Gathered(x, g, Blind(file), lines).w.prevEnd == x.w.prevEnd
  {
    var y := Collect(x, g, lines);
    CountKeepsCursors(x.w, Parsed(g, lines));
    BlindIsRelease(x, g, file, lines);
    var rows := P.RowsOf(y.w.p, P.Leaving(y.w.p, false), map[]);
    WriteKeepsCursors(Written(y.w.(p := P.Drained(y.w.p, false)), y.d, {}), rows);
  }

  lemma FinishWritesOne(x: WD, g: Grammar, file: T.File, lines: seq<T.Bytes>, end: T.Cursor, i: nat)
    requires i < |x.w.p.ready| && x.w.p.ready[i].SellAnchor? && GoodMemory(x.w.p) && x.w.p.source == LogHarvest
    requires x.d.faults == Failing(Fills(Parsed(g, lines))) + OnlyRow(i, |x.w.p.ready|)
    requires x.d.orders == map[] && !x.d.dying && x.w.prevTs == None
    ensures var y := Finish(x, g, Blind(file), lines, end).0;
            WroteOne(x.d, y.d, x.w.p.ready, x.w.p.ready[i].Key()) && y.d.cursor == Some(Target(x.w, end))
  {
    var y := Collect(x, g, lines);
    CollectFails(x, g, lines, OnlyRow(i, |x.w.p.ready|));
    FeedAllBrings(x.w.p, Parsed(g, lines));
    ReleaseWritesOne(y, i);
    BlindIsRelease(x, g, file, lines);
    BlindKeepsPrevEnd(x, g, file, lines);
    BlindCommits(x, g, file, lines, end);
  }

  lemma FinishWritesRest(x: WD, g: Grammar, file: T.File, lines: seq<T.Bytes>, end: T.Cursor, k: Key)
    requires GoodMemory(x.w.p) && x.w.p.source == LogHarvest && Keyed(x.d.orders)
    requires x.d.faults == Failing(Fills(Parsed(g, lines))) + [] && !x.d.dying && x.w.prevTs == None
    ensures WroteRest(x.d, Finish(x, g, Blind(file), lines, end).0.d, x.w.p.ready, k)
  {
    var y := Collect(x, g, lines);
    CollectFails(x, g, lines, []);
    FeedAllBrings(x.w.p, Parsed(g, lines));
    ReleaseIsQuiet(y, k);
    BatchRecordsExactly(y, map[], k);
    BlindIsRelease(x, g, file, lines);
    BlindCommits(x, g, file, lines, end);
  }

  lemma ReleaseIsQuiet(x: WD, k: Key)
    requires Quiet(x.d) && Keyed(x.d.orders)
    ensures Quiet(Release(x, map[]).d)
  {
    var leaving := P.Leaving(x.w.p, false);
    var rows := P.RowsOf(x.w.p, leaving, map[]);
    var start := Written(x.w.(p := P.Drained(x.w.p, false)), x.d, {});
    var out := WriteAll(start, rows);
    QuietWrites(start, rows, k.no, k);
    QuietStops(out.d, OfFresh(P.StopsOf(leaving), out.sells), k);
  }

  // ---- the steps of the run ------------------------------------------------------------------------------

  function FileOf(lines: seq<T.Bytes>): T.File { T.File(1, T.Unlines(lines)) }

  function End(lines: seq<T.Bytes>): T.Cursor { T.Cursor(1, |T.Unlines(lines)|) }

  /** The lines are whole, and one read takes them all. */
  ghost predicate OneChunk(lines: seq<T.Bytes>) { T.NewlineFree(lines) && T.Consumed(lines) <= T.MAX_READ_BYTES }

  /** No cursor, or one at the start of the file. */
  predicate AtStart(c: Option<T.Cursor>) { c == None || c == Some(T.Cursor(1, 0)) }

  lemma WindowOfFile(lines: seq<T.Bytes>)
    requires OneChunk(lines)
    ensures T.ReadWindow(FileOf(lines), 0, T.MAX_READ_BYTES) == (lines, |T.Unlines(lines)|)
  {
    var f := FileOf(lines);
    T.UnlinesLength(lines);
    assert T.Window(f, 0, T.MAX_READ_BYTES) == f.bytes;
    SplitUnlines(lines);
    assert (lines + [[]])[..|lines|] == lines;
  }

  lemma ReadsFile(lines: seq<T.Bytes>, c: Option<T.Cursor>)
    requires OneChunk(lines) && AtStart(c)
    ensures T.ReadChunk(Blind(FileOf(lines)).dir, c, T.MAX_READ_BYTES) == T.Chunk(lines, End(lines))
  {
    WindowOfFile(lines);
  }

  /** A worker that keeps reading the lines from the start of the file. */
  ghost predicate Rereads(w: WState, evs: seq<Event>, r: nat) {
    w.booted && w.p == Reading(evs, r) && w.cursor == w.prevEnd && AtStart(w.cursor) && w.prevTs == None
  }

  lemma ReadingFails(w: WState, d: Db, g: Grammar, env: Env, lines: seq<T.Bytes>, r: nat, n: nat)
    requires OneChunk(lines) && Rereads(w, Parsed(g, lines), r) && env.dir == Blind(FileOf(lines)).dir
    requires env.trades.None? && n > |w.p.ready| + ItemCount(env)
    requires d.faults == Failing(Fills(Parsed(g, lines))) + Failing(n)
    ensures var y := ReadOn(WD(w, d), g, env).0;
            && Rereads(y.w, Parsed(g, lines), r + 1)
            && y.d.orders == d.orders && y.d.stops == d.stops && y.d.cursor == d.cursor
  {
    ReadsFile(lines, w.cursor);
    AllFails(WD(w, d), g, env, lines, End(lines), n);
  }

  lemma {:induction false} ReadingIsGood(evs: seq<Event>, r: nat)
    ensures GoodMemory(Reading(evs, r)) && Reading(evs, r).source == LogHarvest
  {
    if r > 0 {
      ReadingIsGood(evs, r - 1);
      FeedAllKeepsGood(Reading(evs, r - 1), evs);
      FeedAllBrings(Reading(evs, r - 1), evs);
    }
  }

  /** Before a life of the worker. */
  ghost predicate Unborn(s: Run, lines: seq<T.Bytes>) {
    s.log == [FileOf(lines)] && s.w == Start() && AtStart(s.d.cursor)
  }

  /** In a life of the worker, after so many readings. */
  ghost predicate Living(s: Run, evs: seq<Event>, lines: seq<T.Bytes>, r: nat) {
    s.log == [FileOf(lines)] && Rereads(s.w, evs, r) && AtStart(s.d.cursor)
  }

  /** The first reading of a life, after a snapshot of the holdings; every statement fails. */
  function FirstTry(evs: seq<Event>, lines: seq<T.Bytes>): Step {
    Rotation(Seeing(Earliest(evs), Holdings(evs), FileOf(lines)),
             Failing(Fills(evs)) + Failing(|Holdings(evs)| + 1), false)
  }

  /** A later reading; every statement fails. */
  function Try(evs: seq<Event>, lines: seq<T.Bytes>, r: nat): Step {
    Rotation(Blind(FileOf(lines)), Failing(Fills(evs)) + Failing(|Reading(evs, r).ready| + 1), false)
  }

  /** One row of the batch is written. */
  function WriteOnly(evs: seq<Event>, lines: seq<T.Bytes>, r: nat, i: nat): Step
    requires i < |Reading(evs, r).ready|
  {
    Rotation(Blind(FileOf(lines)), Failing(Fills(evs)) + OnlyRow(i, |Reading(evs, r).ready|), false)
  }

  /** The whole batch is written. */
  function WriteBatch(evs: seq<Event>, lines: seq<T.Bytes>): Step {
    Rotation(Blind(FileOf(lines)), Failing(Fills(evs)) + [], false)
  }

  lemma FirstReady(d: Db, evs: seq<Event>, lines: seq<T.Bytes>)
    requires AtStart(d.cursor)
    ensures var env := FirstTry(evs, lines).env;
            Rereads(Shown(Ready(WD(Start(), d), env), env), evs, 0)
  {
  }

  lemma BlindReady(w: WState, d: Db, evs: seq<Event>, lines: seq<T.Bytes>, r: nat)
    requires Rereads(w, evs, r)
    ensures var env := Blind(FileOf(lines)); Rereads(Shown(Ready(WD(w, d), env), env), evs, r)
  {
  }

  lemma FirstTryLives(s: Run, g: Grammar, lines: seq<T.Bytes>)
    requires OneChunk(lines) && Unborn(s, lines)
    ensures var s' := Next(s, WorkerRotation(g), FirstTry(Parsed(g, lines), lines));
            Living(s', Parsed(g, lines), lines, 1) && s'.d.orders == s.d.orders && s'.d.stops == s.d.stops
  {
    var evs := Parsed(g, lines);
    var step := FirstTry(evs, lines);
    var d := s.d.(faults := step.faults, dying := false);
    FirstReady(d, evs, lines);
    ReadingFails(Shown(Ready(WD(s.w, d), step.env), step.env), d, g, step.env, lines, 0, |Holdings(evs)| + 1);
    NextReads(s, g, step.env, step.faults, false);
  }

  lemma TryLives(s: Run, g: Grammar, lines: seq<T.Bytes>, r: nat)
    requires OneChunk(lines) && Living(s, Parsed(g, lines), lines, r)
    ensures var s' := Next(s, WorkerRotation(g), Try(Parsed(g, lines), lines, r));
            Living(s', Parsed(g, lines), lines, r + 1) && s'.d.orders == s.d.orders && s'.d.stops == s.d.stops
  {
    var evs := Parsed(g, lines);
    var step := Try(evs, lines, r);
    var d := s.d.(faults := step.faults, dying := false);
    BlindReady(s.w, d, evs, lines, r);
    ReadingFails(Shown(Ready(WD(s.w, d), step.env), step.env), d, g, step.env, lines, r, |Reading(evs, r).ready| + 1);
    NextReads(s, g, step.env, step.faults, false);
  }

  /** What a rotation without a snapshot does: it reads the lines once more. */
  lemma BlindReads(s: Run, g: Grammar, lines: seq<T.Bytes>, r: nat, faults: seq<Fault>) returns (x: WD)
    requires OneChunk(lines) && Living(s, Parsed(g, lines), lines, r)
    ensures Rereads(x.w, Parsed(g, lines), r) && x.d == s.d.(faults := faults, dying := false)
    ensures var y := Finish(x, g, Blind(FileOf(lines)), lines, End(lines)).0;
            Next(s, WorkerRotation(g), Rotation(Blind(FileOf(lines)), faults, false))
            == Run(s.log, y.d, y.w, NextOrigin(s, y.d))
  {
    var env := Blind(FileOf(lines));
    var d := s.d.(faults := faults, dying := false);
    x := WD(Shown(Ready(WD(s.w, d), env), env), d);
    BlindReady(s.w, d, Parsed(g, lines), lines, r);
    ReadsFile(lines, x.w.cursor);
    NextReads(s, g, env, faults, false);
  }

  lemma WriteOnlyWrites(s: Run, g: Grammar, lines: seq<T.Bytes>, r: nat, i: nat)
    requires OneChunk(lines) && Living(s, Parsed(g, lines), lines, r) && s.d.orders == map[]
    requires var batch := Reading(Parsed(g, lines), r).ready; i < |batch| && batch[i].SellAnchor?
    ensures var batch := Reading(Parsed(g, lines), r).ready;
            var s' := Next(s, WorkerRotation(g), WriteOnly(Parsed(g, lines), lines, r, i));
            s'.log == s.log && WroteOne(s.d, s'.d, batch, batch[i].Key()) && AtStart(s'.d.cursor)
  {
    var x := BlindReads(s, g, lines, r, WriteOnly(Parsed(g, lines), lines, r, i).faults);
    ReadingIsGood(Parsed(g, lines), r);
    FinishWritesOne(x, g, FileOf(lines), lines, End(lines), i);
  }

  lemma WriteBatchWrites(s: Run, g: Grammar, lines: seq<T.Bytes>, r: nat, k: Key)
    requires OneChunk(lines) && Living(s, Parsed(g, lines), lines, r) && Keyed(s.d.orders)
    ensures var s' := Next(s, WorkerRotation(g), WriteBatch(Parsed(g, lines), lines));
            s'.log == s.log && WroteRest(s.d, s'.d, Reading(Parsed(g, lines), r).ready, k)
  {
    var x := BlindReads(s, g, lines, r, WriteBatch(Parsed(g, lines), lines).faults);
    ReadingIsGood(Parsed(g, lines), r);
    FinishWritesRest(x, g, FileOf(lines), lines, End(lines), k);
  }

  // ---- the whole run -----------------------------------------------------------------------------------

  /** Rotations that do what the worker's do in these four situations. */
  ghost predicate TriesAlike(rotate: (WD, Env) -> WD, g: Grammar, lines: seq<T.Bytes>) {
    var evs := Parsed(g, lines);
    && (forall s: Run :: Unborn(s, lines) ==> Tried(s, Next(s, rotate, FirstTry(evs, lines)), evs, lines, 1))
    && (forall s: Run, r: nat :: Living(s, evs, lines, r) ==>
          Tried(s, Next(s, rotate, Try(evs, lines, r)), evs, lines, r + 1))
  }

  ghost predicate Tried(s: Run, s': Run, evs: seq<Event>, lines: seq<T.Bytes>, r: nat) {
    Living(s', evs, lines, r) && s'.d.orders == s.d.orders && s'.d.stops == s.d.stops
  }

  ghost predicate WritesAlike(rotate: (WD, Env) -> WD, g: Grammar, lines: seq<T.Bytes>) {
    var evs := Parsed(g, lines);
    && (forall s: Run, r: nat, i: nat :: CanWrite(s, evs, lines, r, i) ==>
          Wrote(s, Next(s, rotate, WriteOnly(evs, lines, r, i)), evs, r, i))
    && (forall s: Run, r: nat, k: Key :: Living(s, evs, lines, r) && Keyed(s.d.orders) ==>
          WroteRest(s.d, Next(s, rotate, WriteBatch(evs, lines)).d, Reading(evs, r).ready, k))
  }

  ghost predicate CanWrite(s: Run, evs: seq<Event>, lines: seq<T.Bytes>, r: nat, i: nat) {
    && Living(s, evs, lines, r) && s.d.orders == map[]
    && i < |Reading(evs, r).ready| && Reading(evs, r).ready[i].SellAnchor?
  }

  ghost predicate Wrote(s: Run, s': Run, evs: seq<Event>, r: nat, i: nat) {
    && s'.log == s.log && AtStart(s'.d.cursor) && i < |Reading(evs, r).ready|
    && WroteOne(s.d, s'.d, Reading(evs, r).ready, Reading(evs, r).ready[i].Key())
  }

  lemma WorkerTriesAlike(g: Grammar, lines: seq<T.Bytes>)
    requires OneChunk(lines)
    ensures TriesAlike(WorkerRotation(g), g, lines)
  {
    var evs := Parsed(g, lines);
    forall s: Run | Unborn(s, lines)
      ensures Tried(s, Next(s, WorkerRotation(g), FirstTry(evs, lines)), evs, lines, 1)
    {
      FirstTryLives(s, g, lines);
    }
    forall s: Run, r: nat | Living(s, evs, lines, r)
      ensures Tried(s, Next(s, WorkerRotation(g), Try(evs, lines, r)), evs, lines, r + 1)
    {
      TryLives(s, g, lines, r);
    }
  }

  lemma WorkerWritesAlike(g: Grammar, lines: seq<T.Bytes>)
    requires OneChunk(lines)
    ensures WritesAlike(WorkerRotation(g), g, lines)
  {
    var evs := Parsed(g, lines);
    forall s: Run, r: nat, i: nat | CanWrite(s, evs, lines, r, i)
      ensures Wrote(s, Next(s, WorkerRotation(g), WriteOnly(evs, lines, r, i)), evs, r, i)
    {
      WriteOnlyWrites(s, g, lines, r, i);
    }
    forall s: Run, r: nat, k: Key | Living(s, evs, lines, r) && Keyed(s.d.orders)
      ensures WroteRest(s.d, Next(s, WorkerRotation(g), WriteBatch(evs, lines)).d, Reading(evs, r).ready, k)
    {
      WriteBatchWrites(s, g, lines, r, k);
    }
  }

  /** An enabled run that reads nothing but the given lines, and where it ends. */
  ghost predicate Plays(s: Run, rotate: (WD, Env) -> WD, steps: seq<Step>, lines: seq<T.Bytes>, s': Run)
    requires s.log != []
  {
    AllEnabled(s, rotate, steps) && ReadsOnly(s, rotate, steps, lines) && RunAll(s, rotate, steps) == s'
  }

  lemma PlaysMore(s: Run, rotate: (WD, Env) -> WD, steps: seq<Step>, lines: seq<T.Bytes>, s': Run, step: Step)
    requires s.log != [] && Plays(s, rotate, steps, lines, s') && Enabled(s', step)
    requires step.Rotation? ==> ReadsOne(s', step.env, lines)
    ensures Plays(s, rotate, steps + [step], lines, Next(s', rotate, step))
  {
    RunSnoc(s, rotate, steps, step, s');
    var all := steps + [step];
    forall m | 0 <= m < |all| ensures ReadsOnlyAt(s, rotate, all, lines, m) {
      if m < |steps| {
        assert ReadsOnlyAt(s, rotate, steps, lines, m) && all[..m] == steps[..m];
      } else {
        assert all[..m] == steps;
      }
    }
  }

  /** A rotation shown the file, every statement of which is sent. */
  ghost predicate Sees(step: Step, lines: seq<T.Bytes>) {
    step.Rotation? && NeverSent !in step.faults && step.env.dir == Blind(FileOf(lines)).dir
  }

  lemma TriesSee(evs: seq<Event>, lines: seq<T.Bytes>, r: nat)
    ensures Sees(FirstTry(evs, lines), lines) && Sees(Try(evs, lines, r), lines) && Sees(WriteBatch(evs, lines), lines)
  {
  }

  lemma WriteOnlySees(evs: seq<Event>, lines: seq<T.Bytes>, r: nat, i: nat)
    requires i < |Reading(evs, r).ready|
    ensures Sees(WriteOnly(evs, lines, r, i), lines)
  {
  }

  /** Such a rotation may take place, and reads the lines. */
  lemma SeeingPlays(s0: Run, rotate: (WD, Env) -> WD, pre: seq<Step>, lines: seq<T.Bytes>, s: Run, step: Step)
    requires OneChunk(lines) && s0.log != [] && Plays(s0, rotate, pre, lines, s) && Sees(step, lines)
    requires s.log == [FileOf(lines)] && AtStart(ReadFrom(s))
    ensures Plays(s0, rotate, pre + [step], lines, Next(s, rotate, step))
  {
    ReadsFile(lines, ReadFrom(s));
    PlaysMore(s0, rotate, pre, lines, s, step);
  }

  lemma FirstTryPlays(s0: Run, rotate: (WD, Env) -> WD, g: Grammar, pre: seq<Step>, lines: seq<T.Bytes>, s: Run)
    requires OneChunk(lines) && TriesAlike(rotate, g, lines) && s0.log != [] && Plays(s0, rotate, pre, lines, s)
    requires Unborn(s, lines)
    ensures var (evs, step) := (Parsed(g, lines), FirstTry(Parsed(g, lines), lines));
            && Plays(s0, rotate, pre + [step], lines, Next(s, rotate, step))
            && Tried(s, Next(s, rotate, step), evs, lines, 1)
  {
    TriesSee(Parsed(g, lines), lines, 0);
    SeeingPlays(s0, rotate, pre, lines, s, FirstTry(Parsed(g, lines), lines));
  }

  lemma TryPlays(s0: Run, rotate: (WD, Env) -> WD, g: Grammar, pre: seq<Step>, lines: seq<T.Bytes>, s: Run, r: nat)
    requires OneChunk(lines) && TriesAlike(rotate, g, lines) && s0.log != [] && Plays(s0, rotate, pre, lines, s)
    requires Living(s, Parsed(g, lines), lines, r)
    ensures var (evs, step) := (Parsed(g, lines), Try(Parsed(g, lines), lines, r));
            && Plays(s0, rotate, pre + [step], lines, Next(s, rotate, step))
            && Tried(s, Next(s, rotate, step), evs, lines, r + 1)
  {
    TriesSee(Parsed(g, lines), lines, r);
    SeeingPlays(s0, rotate, pre, lines, s, Try(Parsed(g, lines), lines, r));
  }

  /** The readings of one life. */
  function Life(evs: seq<Event>, lines: seq<T.Bytes>, r: nat): seq<Step>
    requires r > 0
  {
    if r == 1 then [FirstTry(evs, lines)] else Life(evs, lines, r - 1) + [Try(evs, lines, r - 1)]
  }

  lemma LifeSnoc(pre: seq<Step>, evs: seq<Event>, lines: seq<T.Bytes>, r: nat)
    requires r > 0
    ensures pre + Life(evs, lines, 1) == pre + [FirstTry(evs, lines)]
    ensures pre + Life(evs, lines, r + 1) == (pre + Life(evs, lines, r)) + [Try(evs, lines, r)]
  {
  }

  /** One more reading, after steps given as a whole. */
  lemma OneMoreTry(s0: Run, rotate: (WD, Env) -> WD, g: Grammar, pre: seq<Step>, lines: seq<T.Bytes>, s: Run, last: Run,
                   r: nat, all: seq<Step>)
    returns (s': Run)
    requires OneChunk(lines) && TriesAlike(rotate, g, lines) && s0.log != [] && Plays(s0, rotate, pre, lines, last)
    requires Tried(s, last, Parsed(g, lines), lines, r) && all == pre + [Try(Parsed(g, lines), lines, r)]
    ensures Plays(s0, rotate, all, lines, s') && Tried(s, s', Parsed(g, lines), lines, r + 1)
  {
    TryPlays(s0, rotate, g, pre, lines, last, r);
    s' := Next(last, rotate, Try(Parsed(g, lines), lines, r));
  }

  /** From the start of a life to its last reading. */
  lemma {:induction false} LifePlays(s0: Run, rotate: (WD, Env) -> WD, g: Grammar, lines: seq<T.Bytes>, pre: seq<Step>,
                                     s: Run, r: nat)
    returns (s': Run)
    requires OneChunk(lines) && TriesAlike(rotate, g, lines) && s0.log != [] && r > 0
    requires Plays(s0, rotate, pre, lines, s) && Unborn(s, lines)
    ensures Plays(s0, rotate, pre + Life(Parsed(g, lines), lines, r), lines, s')
    ensures Tried(s, s', Parsed(g, lines), lines, r)
  {
    var evs := Parsed(g, lines);
    if r == 1 {
      FirstTryPlays(s0, rotate, g, pre, lines, s);
      LifeSnoc(pre, evs, lines, 1);
      s' := Next(s, rotate, FirstTry(evs, lines));
    } else {
      var last := LifePlays(s0, rotate, g, lines, pre, s, r - 1);
      LifeSnoc(pre, evs, lines, r - 1);
      s' := OneMoreTry(s0, rotate, g, pre + Life(evs, lines, r - 1), lines, s, last, r - 1, pre + Life(evs, lines, r));
    }
  }

  /** A life that reads the lines until the batch is due and writes one row of it. */
  function FirstLifeSteps(evs: seq<Event>, lines: seq<T.Bytes>, r: nat, i: nat): seq<Step>
    requires i < |Batch(evs, r)|
  {
    [] + [Append(T.Unlines(lines))] + Life(evs, lines, r + 1) + [WriteOnly(evs, lines, r + 1, i)] + [Crash]
  }

  /** Two lives over the same lines: the first writes one row of the batch, the second all of it. */
  function FailingSteps(evs: seq<Event>, lines: seq<T.Bytes>, r: nat, i: nat): seq<Step>
    requires i < |Batch(evs, r)|
  {
    FirstLifeSteps(evs, lines, r, i) + Life(evs, lines, r + 1) + [WriteBatch(evs, lines)]
  }

  lemma AppendPlays(rotate: (WD, Env) -> WD, lines: seq<T.Bytes>) returns (s: Run)
    ensures Plays(Begin([OLD_FILE]), rotate, [] + [Append(T.Unlines(lines))], lines, s)
    ensures Unborn(s, lines) && s.d == Begin([OLD_FILE]).d
  {
    var s0 := Begin([OLD_FILE]);
    s := Next(s0, rotate, Append(T.Unlines(lines)));
    assert [] + T.Unlines(lines) == T.Unlines(lines) && s.log == [] + [FileOf(lines)];
    PlaysMore(s0, rotate, [], lines, s0, Append(T.Unlines(lines)));
  }

  /** The first life: one row written, and a death. */
  lemma FirstLife(rotate: (WD, Env) -> WD, g: Grammar, lines: seq<T.Bytes>, r: nat, i: nat) returns (s: Run)
    requires OneChunk(lines) && TriesAlike(rotate, g, lines) && WritesAlike(rotate, g, lines)
    requires i < |Batch(Parsed(g, lines), r)| && Batch(Parsed(g, lines), r)[i].SellAnchor?
    ensures Plays(Begin([OLD_FILE]), rotate, FirstLifeSteps(Parsed(g, lines), lines, r, i), lines, s)
    ensures Unborn(s, lines)
    ensures WroteOne(Begin([OLD_FILE]).d, s.d, Batch(Parsed(g, lines), r), Batch(Parsed(g, lines), r)[i].Key())
  {
    var evs, s0 := Parsed(g, lines), Begin([OLD_FILE]);
    var pre := [] + [Append(T.Unlines(lines))];
    var sA := AppendPlays(rotate, lines);
    var sB := LifePlays(s0, rotate, g, lines, pre, sA, r + 1);
    s := WriteAndDie(s0, rotate, g, pre + Life(evs, lines, r + 1), lines, sB, r + 1, i);
  }

  lemma WriteAndDie(s0: Run, rotate: (WD, Env) -> WD, g: Grammar, pre: seq<Step>, lines: seq<T.Bytes>, s: Run, r: nat,
                    i: nat)
    returns (s': Run)
    requires OneChunk(lines) && WritesAlike(rotate, g, lines) && s0.log != [] && Plays(s0, rotate, pre, lines, s)
    requires CanWrite(s, Parsed(g, lines), lines, r, i)
    ensures Plays(s0, rotate, pre + [WriteOnly(Parsed(g, lines), lines, r, i)] + [Crash], lines, s')
    ensures var batch := Reading(Parsed(g, lines), r).ready;
            Unborn(s', lines) && WroteOne(s.d, s'.d, batch, batch[i].Key())
  {
    var write := WriteOnly(Parsed(g, lines), lines, r, i);
    WriteOnlySees(Parsed(g, lines), lines, r, i);
    SeeingPlays(s0, rotate, pre, lines, s, write);
    var sC := Next(s, rotate, write);
    assert Wrote(s, sC, Parsed(g, lines), r, i);
    s' := Next(sC, rotate, Crash);
    PlaysMore(s0, rotate, pre + [write], lines, sC, Crash);
  }

  lemma WriteBatchPlays(s0: Run, rotate: (WD, Env) -> WD, g: Grammar, pre: seq<Step>, lines: seq<T.Bytes>, s: Run,
                        r: nat, k: Key)
    requires OneChunk(lines) && WritesAlike(rotate, g, lines) && s0.log != [] && Plays(s0, rotate, pre, lines, s)
    requires Living(s, Parsed(g, lines), lines, r) && Keyed(s.d.orders)
    ensures var (evs, step) := (Parsed(g, lines), WriteBatch(Parsed(g, lines), lines));
            && Plays(s0, rotate, pre + [step], lines, Next(s, rotate, step))
            && WroteRest(s.d, Next(s, rotate, step).d, Reading(evs, r).ready, k)
  {
    TriesSee(Parsed(g, lines), lines, 0);
    SeeingPlays(s0, rotate, pre, lines, s, WriteBatch(Parsed(g, lines), lines));
  }

  lemma SecondLife(rotate: (WD, Env) -> WD, g: Grammar, lines: seq<T.Bytes>, r: nat, pre: seq<Step>, s: Run, k: Key)
    returns (s': Run)
    requires OneChunk(lines) && TriesAlike(rotate, g, lines) && WritesAlike(rotate, g, lines)
    requires Plays(Begin([OLD_FILE]), rotate, pre, lines, s) && Unborn(s, lines) && Keyed(s.d.orders)
    ensures var evs := Parsed(g, lines);
            Plays(Begin([OLD_FILE]), rotate, pre + Life(evs, lines, r + 1) + [WriteBatch(evs, lines)], lines, s')
    ensures WroteRest(s.d, s'.d, Batch(Parsed(g, lines), r), k)
  {
    var evs, s0 := Parsed(g, lines), Begin([OLD_FILE]);
    var sB := LifePlays(s0, rotate, g, lines, pre, s, r + 1);
    s' := Next(sB, rotate, WriteBatch(evs, lines));
    WriteBatchPlays(s0, rotate, g, pre + Life(evs, lines, r + 1), lines, sB, r + 1, k);
  }

  // ---- the counts ------------------------------------------------------------------------------------------

  lemma {:induction false} StopsAt(anchors: seq<P.Anchor>, k: Key, i: nat)
    requires i < |anchors| && anchors[i].SellAnchor? && anchors[i].Key() == k && anchors[i].stop.Some?
    ensures StopsFor(anchors, k) >= 1
    ensures forall j :: i < j < |anchors| && anchors[j].SellAnchor? && anchors[j].Key() == k && anchors[j].stop.Some?
              ==> StopsFor(anchors, k) >= 2
  {
    var n := |anchors| - 1;
    if i < n {
      StopsAt(anchors[..n], k, i);
      forall j | i < j < n && anchors[j].SellAnchor? && anchors[j].Key() == k && anchors[j].stop.Some?
        ensures StopsFor(anchors, k) >= 2
      {
        assert anchors[..n][j] == anchors[j];
      }
    }
  }

  /** One row of an unsafe batch is written first, and then all of it. */
  lemma TwiceCounted(d0: Db, d1: Db, d2: Db, batch: seq<P.Anchor>, no: string, i: nat, j: nat)
    requires i < |batch| && j < |batch| && i != j && !SafePair(batch[i], batch[j], no)
    requires WroteOne(d0, d1, batch, batch[i].Key()) && WroteRest(d1, d2, batch, batch[i].Key())
    ensures ExitCount(d2.stops, batch[i].Key()) >= 2
  {
    var k := batch[i].Key();
    StopsAt(batch, k, i);
    if batch[j].Key() == k {
      StopsAt(batch, k, j);
    } else {
      assert FreshSell(d1.orders, batch, k.no);
    }
  }

  /** The run, from any chunk with an unsafe batch: in the first life the lines are read until the batch is
      due and one row of it is written; in the second they are read as often and the batch is written. */
  lemma FailingRunOf(rotate: (WD, Env) -> WD, g: Grammar, lines: seq<T.Bytes>, no: string, r: nat, i: nat, j: nat)
    requires OneChunk(lines) && TriesAlike(rotate, g, lines) && WritesAlike(rotate, g, lines)
    requires var batch := Batch(Parsed(g, lines), r);
             i < |batch| && j < |batch| && i != j && !SafePair(batch[i], batch[j], no)
    ensures var (s, steps) := (Begin([OLD_FILE]), FailingSteps(Parsed(g, lines), lines, r, i));
            && AllEnabled(s, rotate, steps) && ReadsOnly(s, rotate, steps, lines)
            && ExitCount(RunAll(s, rotate, steps).d.stops, Batch(Parsed(g, lines), r)[i].Key()) >= 2
  {
    var evs, s0 := Parsed(g, lines), Begin([OLD_FILE]);
    var batch := Batch(evs, r);
    var s1 := FirstLife(rotate, g, lines, r, i);
    var s2 := SecondLife(rotate, g, lines, r, FirstLifeSteps(evs, lines, r, i), s1, batch[i].Key());
    TwiceCounted(s0.d, s1.d, s2.d, batch, no, i, j);
  }

  lemma FailingRun(g: Grammar, lines: seq<T.Bytes>, no: string, r: nat, i: nat, j: nat)
    requires OneChunk(lines)
    requires var batch := Batch(Parsed(g, lines), r);
             i < |batch| && j < |batch| && i != j && !SafePair(batch[i], batch[j], no)
    ensures var (s, steps) := (Begin([OLD_FILE]), FailingSteps(Parsed(g, lines), lines, r, i));
            && AllEnabled(s, WorkerRotation(g), steps) && ReadsOnly(s, WorkerRotation(g), steps, lines)
            && ExitCount(RunAll(s, WorkerRotation(g), steps).d.stops, Batch(Parsed(g, lines), r)[i].Key()) >= 2
  {
    WorkerTriesAlike(g, lines);
    WorkerWritesAlike(g, lines);
    FailingRunOf(WorkerRotation(g), g, lines, no, r, i, j);
  }

  // ---- the exact condition -----------------------------------------------------------------------------------

  /** No run that reads nothing but these lines records an exit event of the sell twice. */
  ghost predicate AlwaysOnce(rotate: (WD, Env) -> WD, lines: seq<T.Bytes>, no: string) {
    forall steps: seq<Step>, k: Key :: k.no == no && AllEnabled(Begin([OLD_FILE]), rotate, steps)
      && ReadsOnly(Begin([OLD_FILE]), rotate, steps, lines)
      ==> ExitCount(RunAll(Begin([OLD_FILE]), rotate, steps).d.stops, k) <= 1
  }

  lemma NotAlwaysOnce(rotate: (WD, Env) -> WD, lines: seq<T.Bytes>, no: string, steps: seq<Step>, k: Key)
    requires k.no == no && AllEnabled(Begin([OLD_FILE]), rotate, steps)
    requires ReadsOnly(Begin([OLD_FILE]), rotate, steps, lines)
    requires ExitCount(RunAll(Begin([OLD_FILE]), rotate, steps).d.stops, k) >= 2
    ensures !AlwaysOnce(rotate, lines, no)
  {
  }

  lemma SafeOnce(rotate: (WD, Env) -> WD, g: Grammar, lines: seq<T.Bytes>, no: string)
    requires KeepsReading(rotate, g, lines) && AlwaysSafe(Parsed(g, lines), no)
    requires forall k: Key :: KeepsExitOnce(rotate, k)
    ensures AlwaysOnce(rotate, lines, no)
  {
    var s := Begin([OLD_FILE]);
    NothingRead(Parsed(g, lines));
    forall steps: seq<Step>, k: Key | k.no == no && AllEnabled(s, rotate, steps) && ReadsOnly(s, rotate, steps, lines)
      ensures ExitCount(RunAll(s, rotate, steps).d.stops, k) <= 1
    {
      SafeIsQuiet(s, rotate, g, lines, steps, no);
      RunKeepsExitOnce(s, rotate, steps, k);
    }
  }

  /** Exactly when a chunk of log can make an exit event be recorded twice: over all runs, with failures,
      deaths and snapshots of any kind, that read nothing but these lines, however often, every order of
      the number has at most one exit event if and only if every batch the lines can bring is safe. */
  lemma OneExitIffSafe(g: Grammar, lines: seq<T.Bytes>, no: string)
    requires OneChunk(lines)
    ensures AlwaysOnce(WorkerRotation(g), lines, no) <==> AlwaysSafe(Parsed(g, lines), no)
  {
    if AlwaysSafe(Parsed(g, lines), no) {
      WorkerKeepsReading(g, lines);
      forall k: Key ensures KeepsExitOnce(WorkerRotation(g), k) {
        WorkerKeepsExitOnce(g, k);
      }
      SafeOnce(WorkerRotation(g), g, lines, no);
    } else {
      var r, i, j := UnsafePair(Parsed(g, lines), no);
      FailingRun(g, lines, no, r, i, j);
      NotAlwaysOnce(WorkerRotation(g), lines, no, FailingSteps(Parsed(g, lines), lines, r, i),
                    Batch(Parsed(g, lines), r)[i].Key());
    }
  }

  lemma UnsafePair(evs: seq<Event>, no: string) returns (r: nat, i: nat, j: nat)
    requires !AlwaysSafe(evs, no)
    ensures var batch := Batch(evs, r); i < |batch| && j < |batch| && i != j && !SafePair(batch[i], batch[j], no)
  {
    r :| !SafeBatch(Batch(evs, r), no);
    var batch := Batch(evs, r);
    i, j :| 0 <= i < |batch| && 0 <= j < |batch| && i != j && !SafePair(batch[i], batch[j], no);
  }

  // ---- counting lines ----------------------------------------------------------------------------------------

  /** Lines of which at most one can bring the sell. */
  lemma {:induction false} ReadingWithin(evs: seq<Event>, r: nat, no: string, pairs: set<(string, int)>)
    requires AllComplete(evs, no, pairs)
    ensures DonesWithin(Reading(evs, r).dones, no, pairs)
  {
    if r > 0 {
      ReadingWithin(evs, r - 1, no, pairs);
      FeedAllGrows(Reading(evs, r - 1), evs, no, pairs);
    }
  }

  lemma FewAreSafe(evs: seq<Event>, no: string, pairs: set<(string, int)>)
    requires AllComplete(evs, no, pairs) && Bringing(evs, no, pairs) <= 1
    ensures AlwaysSafe(evs, no)
  {
    forall r: nat ensures SafeBatch(Batch(evs, r), no) {
      ReadingShows(evs, r);
      ReadingWithin(evs, r, no, pairs);
      FeedAllGrows(Reading(evs, r), evs, no, pairs);
      OneSellIsSafe(Batch(evs, r), no);
    }
  }

  predicate Carries(a: P.Anchor, no: string) { IsSell(a, no) && a.stop.Some? }

  /** How many sells of the number carry an exit event. */
  function Carrying(anchors: seq<P.Anchor>, no: string): nat {
    if anchors == [] then 0
    else Carrying(anchors[..|anchors| - 1], no) + (if Carries(anchors[|anchors| - 1], no) then 1 else 0)
  }

  lemma CarryingSnoc(pre: seq<P.Anchor>, a: P.Anchor, no: string)
    ensures Carrying(pre + [a], no) == Carrying(pre, no) + (if Carries(a, no) then 1 else 0)
  {
    assert (pre + [a])[..|pre|] == pre;
  }

  /** A line that names a sell whose holding is shown brings one that carries an exit event. */
  lemma NamedSellCarries(m: P.Memory, ev: Event, at: Time, keys: set<(string, string)>)
    requires IsOwnSell(ev) && ShowsHeld(m, at, keys) && Fits(ev, at, keys)
    ensures var m' := P.Hear(m, ev);
            |m'.incoming| == |m.incoming| + 1 && m'.incoming == m.incoming + [m'.incoming[|m.incoming|]]
            && Carries(m'.incoming[|m.incoming|], ev.orderNo)
  {
    ItemShown(m, at, keys, (ev.strategy, ev.ticker), ev.ts);
  }

  lemma HearCarries(m: P.Memory, ev: Event, at: Time, keys: set<(string, string)>, no: string)
    requires ShowsHeld(m, at, keys) && Fits(ev, at, keys)
    ensures Carrying(P.Hear(m, ev).incoming, no)
            >= Carrying(m.incoming, no) + (if NamesSell(ev, no) then 1 else 0)
  {
    var m' := P.Hear(m, ev);
    if NamesSell(ev, no) {
      NamedSellCarries(m, ev, at, keys);
      CarryingSnoc(m.incoming, m'.incoming[|m.incoming|], no);
    } else {
      HearAlike(m, m, at, keys, ev);
      if m'.incoming != m.incoming {
        var a, b :| Weaker(a, b) && m'.incoming == m.incoming + [a] && m'.incoming == m.incoming + [b];
        CarryingSnoc(m.incoming, a, no);
      }
    }
  }

  lemma {:induction false} FeedAllCarries(m: P.Memory, evs: seq<Event>, at: Time, keys: set<(string, string)>,
                                          no: string)
    requires ShowsHeld(m, at, keys) && AllFit(evs, at, keys)
    ensures Carrying(P.FeedAll(m, evs).incoming, no) >= Carrying(m.incoming, no) + Naming(evs, no)
  {
    if evs != [] {
      var n := |evs| - 1;
      FeedAllCarries(m, evs[..n], at, keys, no);
      SelfAlike(m);
      FeedAllAlike(m, m, at, keys, evs[..n]);
      var m1 := P.FeedAll(m, evs[..n]);
      PurgeAlike(m1, m1, at, keys, evs[n].ts);
      HearCarries(P.Purge(m1, evs[n].ts), evs[n], at, keys, no);
    }
  }

  lemma {:induction false} OneCarries(anchors: seq<P.Anchor>, no: string) returns (i: nat)
    requires Carrying(anchors, no) >= 1
    ensures i < |anchors| && Carries(anchors[i], no)
  {
    i := |anchors| - 1;
    if !Carries(anchors[i], no) { i := OneCarries(anchors[..i], no); }
  }

  lemma {:induction false} TwoCarry(anchors: seq<P.Anchor>, no: string) returns (i: nat, j: nat)
    requires Carrying(anchors, no) >= 2
    ensures i < j < |anchors| && Carries(anchors[i], no) && Carries(anchors[j], no)
  {
    j := |anchors| - 1;
    if Carries(anchors[j], no) {
      i := OneCarries(anchors[..j], no);
    } else {
      i, j := TwoCarry(anchors[..j], no);
    }
  }

  /** Lines of which two name the sell. */
  lemma TwoAreUnsafe(evs: seq<Event>, no: string)
    requires Naming(evs, no) >= 2
    ensures !AlwaysSafe(evs, no)
  {
    ReadingShows(evs, 0);
    AllHoldingsShow(evs);
    FeedAllCarries(Reading(evs, 0), evs, Earliest(evs), P.ItemsByKey(Holdings(evs)).Keys, no);
    var batch := Batch(evs, 0);
    var i, j := TwoCarry(batch, no);
    assert !SafePair(batch[i], batch[j], no) && !SafeBatch(batch, no);
  }

  /** When every line that can bring the sell names it: its exit events are recorded at most once by every
      run that reads nothing but these lines exactly when at most one of them names it. */
  lemma OneExitIffNamedOnce(g: Grammar, lines: seq<T.Bytes>, no: string, pairs: set<(string, int)>)
    requires OneChunk(lines) && AllComplete(Parsed(g, lines), no, pairs)
    requires Bringing(Parsed(g, lines), no, pairs) == Naming(Parsed(g, lines), no)
    ensures AlwaysOnce(WorkerRotation(g), lines, no) <==> Naming(Parsed(g, lines), no) <= 1
  {
    OneExitIffSafe(g, lines, no);
    if Naming(Parsed(g, lines), no) <= 1 {
      FewAreSafe(Parsed(g, lines), no, pairs);
    } else {
      TwoAreUnsafe(Parsed(g, lines), no);
    }
  }
}
