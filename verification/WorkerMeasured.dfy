/** What named orders become in the table: a rotation is a sequence of statements, and every row offered is
    measured unless one of its own statements went unanswered. */
module WorkerMeasured {
  import opened Basics
  import opened Journal
  import opened JournalDb
  import opened Worker
  import opened WorkerRuns
  import P = Pairing
  import R = Reconcile
  import S = Stops
  import T = Tailer

  // ---- a rotation is a sequence of statements ------------------------------------------------------

  lemma {:induction false} ApplyConcat(d: Db, a: seq<Op>, b: seq<Op>)
    ensures ApplyAll(d, a + b) == ApplyAll(ApplyAll(d, a), b)
  {
    if b == [] {
      assert a + b == a;
    } else {
      assert (a + b)[..|a + b| - 1] == a + b[..|b| - 1];
      ApplyConcat(d, a, b[..|b| - 1]);
    }
  }

  function Writes(rows: seq<Row>): seq<Op> { seq(|rows|, i requires 0 <= i < |rows| => Write(rows[i])) }

  lemma {:induction false} WriteAllApplies(x: Written, rows: seq<Row>)
    ensures WriteAll(x, rows).d == ApplyAll(x.d, Writes(rows))
  {
    if rows != [] {
      WriteAllApplies(x, rows[..|rows| - 1]);
      assert Writes(rows)[..|rows| - 1] == Writes(rows[..|rows| - 1]);
    }
  }

  function StopsAdded(evs: seq<StopEvent>): seq<Op> { seq(|evs|, i requires 0 <= i < |evs| => Stop(evs[i])) }

  lemma {:induction false} AddStopsApplies(d: Db, evs: seq<StopEvent>)
    ensures AddStops(d, evs) == ApplyAll(d, StopsAdded(evs))
  {
    if evs != [] {
      AddStopsApplies(d, evs[..|evs| - 1]);
      assert StopsAdded(evs)[..|evs| - 1] == StopsAdded(evs[..|evs| - 1]);
    }
  }

  function Divisions(evs: seq<Event>): seq<Op> {
    if evs == [] then []
    else
      var ev := evs[|evs| - 1];
      Divisions(evs[..|evs| - 1])
      + (if Divides(ev) then [FillDivision(Key(Date(ev.ts), ev.orderNo, ev.noticeSide), ev.division.value)] else [])
  }

  lemma ApplySnoc(d: Db, ops: seq<Op>, op: Op)
    ensures ApplyAll(d, ops + [op]) == Apply(ApplyAll(d, ops), op)
  {
    assert (ops + [op])[..|ops|] == ops;
  }

  lemma {:induction false} FillAllApplies(d: Db, evs: seq<Event>)
    ensures FillAll(d, evs) == ApplyAll(d, Divisions(evs))
  {
    if evs != [] {
      var pre, ev := evs[..|evs| - 1], evs[|evs| - 1];
      FillAllApplies(d, pre);
      if Divides(ev) {
        ApplySnoc(d, Divisions(pre), FillDivision(Key(Date(ev.ts), ev.orderNo, ev.noticeSide), ev.division.value));
      } else {
        assert Divisions(pre) + [] == Divisions(pre);
      }
    }
  }

  lemma ReleaseApplies(x: WD, trades: map<string, string>) returns (ops: seq<Op>)
    ensures Release(x, trades).d == ApplyAll(x.d, ops)
  {
    var leaving := P.Leaving(x.w.p, false);
    var rows := P.RowsOf(x.w.p, leaving, trades);
    var start := Written(x.w.(p := P.Drained(x.w.p, false)), x.d, {});
    var out := WriteAll(start, rows);
    var stops := OfFresh(P.StopsOf(leaving), out.sells);
    WriteAllApplies(start, rows);
    AddStopsApplies(out.d, stops);
    ApplyConcat(x.d, Writes(rows), StopsAdded(stops));
    ops := Writes(rows) + StopsAdded(stops);
  }

  lemma GatherApplies(x: WD, g: Grammar, env: Env, lines: seq<T.Bytes>) returns (ops: seq<Op>)
    ensures Gathered(x, g, env, lines).d == ApplyAll(x.d, ops)
  {
    var y := Collect(x, g, lines);
    var z := Release(y, StrategiesSeen(env.trades));
    var stops := S.Observe(z.w.t, Observation(env)).1;
    FillAllApplies(x.d, Parsed(g, lines));
    var released := ReleaseApplies(y, StrategiesSeen(env.trades));
    AddStopsApplies(z.d, stops);
    ApplyConcat(x.d, Divisions(Parsed(g, lines)), released);
    ApplyConcat(x.d, Divisions(Parsed(g, lines)) + released, StopsAdded(stops));
    ops := Divisions(Parsed(g, lines)) + released + StopsAdded(stops);
  }

  lemma ReconcileApplies(x: WD, now: Time, trades: Option<seq<R.TradeRow>>, upTo: Time) returns (ops: seq<Op>)
    ensures Reconciled(x, now, trades, upTo).d == ApplyAll(x.d, ops)
  {
    ops := [];
    if trades.Some? {
      var w := x.w.(lastReconcile := Some(now));
      var rows := R.HistoryRows(trades.value, w.journalKeys, P.ExternalNotices(w.p), upTo);
      WriteAllApplies(Written(w, x.d, {}), rows);
      ops := Writes(rows);
    }
  }

  lemma FinishApplies(x: WD, g: Grammar, env: Env, lines: seq<T.Bytes>, end: T.Cursor) returns (ops: seq<Op>)
    ensures Finish(x, g, env, lines, end).0.d == ApplyAll(x.d, ops)
  {
    var before := Gathered(x, g, env, lines);
    ops := GatherApplies(x, g, env, lines);
    var (y, ok) := Commit(before, end, LastLineTs(g, lines));
    ApplySnoc(x.d, ops, SaveAt(Target(before.w, end)));
    ops := ops + [SaveAt(Target(before.w, end))];
    if ok && ReconcileDue(y.w, env.now, x.w.prevTs, lines) {
      var more := ReconcileApplies(y, env.now, env.dayTrades, x.w.prevTs.value);
      ApplyConcat(x.d, ops, more);
      ops := ops + more;
    }
  }

  lemma ReadApplies(x: WD, g: Grammar, env: Env) returns (ops: seq<Op>)
    ensures ReadOn(x, g, env).0.d == ApplyAll(x.d, ops)
  {
    ops := [];
    var chunk := T.ReadChunk(env.dir, x.w.cursor, T.MAX_READ_BYTES);
    if chunk.Chunk? { ops := FinishApplies(x, g, env, chunk.lines, chunk.cursor); }
  }

  /** Whatever it meets, a rotation changes the tables by a sequence of single statements. */
  lemma RotationApplies(x: WD, g: Grammar, env: Env) returns (ops: seq<Op>)
    ensures Rotate(x, g, env).0.d == ApplyAll(x.d, ops)
  {
    ops := ReadApplies(WD(Shown(Ready(x, env), env), x.d), g, env);
    if (!x.w.booted && env.bootFails) || IsIdle(env.g0) { ops := []; }
  }

  // ---- offered rows are measured ---------------------------------------------------------------------

  function MeasuredKeys(orders: map<Key, Row>): set<Key> { set k | k in orders && !IsEmpty(orders[k].source) }

  /** Every key offered with a log line's row is measured, or a row of it got no answer. */
  ghost predicate Settled(d: Db) {
    Keyed(d.orders) && KeysOf(d.offered) <= MeasuredKeys(d.orders) + KeysOf(d.unanswered)
  }

  lemma KeysSnoc(rows: seq<Row>, r: Row)
    ensures KeysOf(rows + [r]) == KeysOf(rows) + (if IsEmpty(r.source) then {} else {r.key})
  {
    assert (rows + [r])[|rows|] == r;
    forall x | x in rows + [r] ensures x in rows || x == r {
    }
    forall x | x in rows ensures x in rows + [r] {
    }
  }

  lemma MeasuredStays(a: map<Key, Row>, b: map<Key, Row>)
    requires Gains(a, b)
    ensures MeasuredKeys(a) <= MeasuredKeys(b)
  {
    forall k | k in MeasuredKeys(a) ensures k in MeasuredKeys(b) {
      assert k in b && RowGains(a[k], b[k]);
    }
  }

  /** What one write adds to the records, and when it measures its row. */
  lemma WriteRecords(d: Db, row: Row)
    requires Keyed(d.orders)
    ensures var d' := WriteRow(d, row).0;
            && (d'.offered == d.offered || d'.offered == d.offered + [row])
            && (|| d'.unanswered == d.unanswered + [row]
                || (d'.unanswered == d.unanswered && (IsEmpty(row.source) || row.key in MeasuredKeys(d'.orders))))
  {
  }

  lemma WriteSettles(d: Db, row: Row)
    requires Settled(d)
    ensures Settled(WriteRow(d, row).0)
  {
    WriteGains(d, row);
    WriteRecords(d, row);
    var d' := WriteRow(d, row).0;
    MeasuredStays(d.orders, d'.orders);
    KeysSnoc(d.offered, row);
    KeysSnoc(d.unanswered, row);
  }

  lemma ApplySettles(d: Db, op: Op)
    requires Settled(d)
    ensures Settled(Apply(d, op))
  {
    ApplyGains(d, op);
    MeasuredStays(d.orders, Apply(d, op).orders);
    if op.Write? { WriteSettles(d, op.row); }
  }

  lemma {:induction false} ApplyAllSettles(d: Db, ops: seq<Op>)
    requires Settled(d)
    ensures Settled(ApplyAll(d, ops))
  {
    if ops != [] {
      ApplyAllSettles(d, ops[..|ops| - 1]);
      ApplySettles(ApplyAll(d, ops[..|ops| - 1]), ops[|ops| - 1]);
    }
  }

  ghost predicate KeepsSettled(rotate: (WD, Env) -> WD) {
    forall x: WD, env: Env :: Settled(x.d) ==> Settled(rotate(x, env).d)
  }

  lemma WorkerKeepsSettled(g: Grammar)
    ensures KeepsSettled(WorkerRotation(g))
  {
    forall x: WD, env: Env | Settled(x.d) ensures Settled(WorkerRotation(g)(x, env).d) {
      var ops := RotationApplies(x, g, env);
      ApplyAllSettles(x.d, ops);
    }
  }

  lemma NextSettles(s: Run, rotate: (WD, Env) -> WD, step: Step)
    requires s.log != [] && KeepsSettled(rotate) && Settled(s.d)
    ensures Settled(Next(s, rotate, step).d)
  {
    if step.Rotation? {
      var x := WD(s.w, s.d.(faults := step.faults, dying := step.dies));
      assert Settled(x.d);
    }
  }

  lemma {:induction false} RunSettles(s: Run, rotate: (WD, Env) -> WD, steps: seq<Step>)
    requires s.log != [] && KeepsSettled(rotate) && Settled(s.d)
    ensures Settled(RunAll(s, rotate, steps).d)
  {
    if steps != [] {
      RunSettles(s, rotate, steps[..|steps| - 1]);
      NextSettles(RunAll(s, rotate, steps[..|steps| - 1]), rotate, steps[|steps| - 1]);
    }
  }

  /** Every accept, manual or sell-fallback line between the first saved cursor and the present one names an
      order that stands measured in the table, or a row of which got no answer. */
  ghost predicate AllMeasured(s: Run, g: Grammar) {
    s.d.cursor.Some? ==>
      && s.origin.Some? && T.Recent(s.log, s.d.cursor.value)
      && s.origin.value <= T.Pos(s.log, s.d.cursor.value) <= |T.Stream(s.log)|
      && NamedIn(g, T.Stream(s.log)[s.origin.value..T.Pos(s.log, s.d.cursor.value)])
         <= MeasuredKeys(s.d.orders) + KeysOf(s.d.unanswered)
  }

  lemma OfferedIsMeasured(s: Run, g: Grammar)
    requires NothingLost(s, g) && Settled(s.d)
    ensures AllMeasured(s, g)
  {
  }

  /** In every run in which the log never rotates while a saved cursor is not taken up: each order named
      since the first saved cursor stands measured in the table, unless a statement writing a row of it
      raised or was never sent; if all row statements return, all of them do. */
  lemma NamedIsMeasured(log: T.Log, g: Grammar, steps: seq<Step>)
    requires T.GoodLog(log) && AllEnabled(Begin(log), WorkerRotation(g), steps)
    requires Careful(Begin(log), WorkerRotation(g), steps)
    ensures AllMeasured(RunAll(Begin(log), WorkerRotation(g), steps), g)
  {
    NothingNamedIsLost(log, g, steps);
    WorkerKeepsSettled(g);
    RunSettles(Begin(log), WorkerRotation(g), steps);
    OfferedIsMeasured(RunAll(Begin(log), WorkerRotation(g), steps), g);
  }

  // ---- the order table over whole runs -----------------------------------------------------------------

  ghost predicate KeepsGains(rotate: (WD, Env) -> WD) {
    forall x: WD, env: Env :: Keyed(x.d.orders) ==>
      Keyed(rotate(x, env).d.orders) && Gains(x.d.orders, rotate(x, env).d.orders)
  }

  lemma WorkerKeepsGains(g: Grammar)
    ensures KeepsGains(WorkerRotation(g))
  {
    forall x: WD, env: Env | Keyed(x.d.orders)
      ensures var y := WorkerRotation(g)(x, env); Keyed(y.d.orders) && Gains(x.d.orders, y.d.orders)
    {
      var ops := RotationApplies(x, g, env);
      TableOnlyGains(x.d, ops);
    }
  }

  lemma NextGains(s: Run, rotate: (WD, Env) -> WD, step: Step)
    requires s.log != [] && KeepsGains(rotate) && Keyed(s.d.orders)
    ensures var s' := Next(s, rotate, step); Keyed(s'.d.orders) && Gains(s.d.orders, s'.d.orders)
  {
    if step.Rotation? {
      var x := WD(s.w, s.d.(faults := step.faults, dying := step.dies));
      assert Keyed(x.d.orders);
    }
  }

  lemma {:induction false} StepsGain(s: Run, rotate: (WD, Env) -> WD, steps: seq<Step>, n: nat)
    requires s.log != [] && KeepsGains(rotate) && Keyed(s.d.orders) && n <= |steps|
    ensures var (before, after) := (RunAll(s, rotate, steps[..n]), RunAll(s, rotate, steps));
            Keyed(before.d.orders) && Keyed(after.d.orders) && Gains(before.d.orders, after.d.orders)
  {
    var last := |steps| - 1;
    if n == |steps| {
      assert steps[..n] == steps;
      if steps != [] {
        StepsGain(s, rotate, steps[..last], 0);
        NextGains(RunAll(s, rotate, steps[..last]), rotate, steps[last]);
      }
    } else {
      assert steps[..last][..n] == steps[..n];
      StepsGain(s, rotate, steps[..last], n);
      var (before, middle) := (RunAll(s, rotate, steps[..n]), RunAll(s, rotate, steps[..last]));
      NextGains(middle, rotate, steps[last]);
      GainsTransitive(before.d.orders, middle.d.orders, RunAll(s, rotate, steps).d.orders);
    }
  }

  /** From any point of any run on, with failures, deaths and chunks read again, the order table keeps one row
      per key and forgets or changes nothing it knew. */
  lemma RunOnlyGains(log: T.Log, g: Grammar, steps: seq<Step>, n: nat)
    requires log != [] && n <= |steps|
    ensures Gains(RunAll(Begin(log), WorkerRotation(g), steps[..n]).d.orders,
                  RunAll(Begin(log), WorkerRotation(g), steps).d.orders)
    ensures Keyed(RunAll(Begin(log), WorkerRotation(g), steps).d.orders)
  {
    WorkerKeepsGains(g);
    StepsGain(Begin(log), WorkerRotation(g), steps, n);
  }
}
