/** Exit events and the lines that name their sells: how many a batch records, and when one is recorded twice. */
module WorkerTwice {
  import opened Journal
  import opened JournalDb
  import opened Worker
  import opened WorkerLoss
  import opened WorkerOnce
  import opened WorkerRuns
  import P = Pairing
  import M = PairingPurge
  import Q = PairingMatch
  import T = Tailer

  // ---- lines that name a sell ------------------------------------------------------------------

  predicate NamesSell(ev: Event, no: string) { M.NamesOrder(ev) && !ev.BuyAccept? && ev.orderNo == no }

  /** How many of the lines name the sell. */
  function Naming(evs: seq<Event>, no: string): nat {
    if evs == [] then 0
    else Naming(evs[..|evs| - 1], no) + (if NamesSell(evs[|evs| - 1], no) then 1 else 0)
  }

  /** The sell completes only for tickers and quantities in `pairs`. */
  predicate Completes(ev: Event, no: string, pairs: set<(string, int)>) {
    ev.OrderDone? && ev.doneSide == Sell && ev.orderNo == no ==> (ev.ticker, ev.qty) in pairs
  }

  ghost predicate AllComplete(evs: seq<Event>, no: string, pairs: set<(string, int)>) {
    forall i :: 0 <= i < |evs| ==> Completes(evs[i], no, pairs)
  }

  /** The line can bring the sell: it names it, or is a reorder for what it completes with. */
  predicate CanBring(ev: Event, no: string, pairs: set<(string, int)>) {
    NamesSell(ev, no) || (ev.Reorder? && (ev.ticker, ev.qty) in pairs)
  }

  /** How many of the lines can bring the sell. */
  function Bringing(evs: seq<Event>, no: string, pairs: set<(string, int)>): nat {
    if evs == [] then 0
    else Bringing(evs[..|evs| - 1], no, pairs) + (if CanBring(evs[|evs| - 1], no, pairs) then 1 else 0)
  }

  predicate DoneWithin(d: P.Done, no: string, pairs: set<(string, int)>) {
    d.side == Sell && d.no == no ==> (d.ticker, d.qty) in pairs
  }

  ghost predicate DonesWithin(dones: seq<P.Done>, no: string, pairs: set<(string, int)>) {
    forall i :: 0 <= i < |dones| ==> DoneWithin(dones[i], no, pairs)
  }

  // ---- the sells a chunk brings ------------------------------------------------------------------

  lemma PurgeKeepsWithin(m: P.Memory, ts: Time, no: string, pairs: set<(string, int)>)
    requires DonesWithin(m.dones, no, pairs)
    ensures DonesWithin(P.Purge(m, ts).dones, no, pairs)
  {
    Q.PurgeDones(m, ts);
    if P.Purge(m, ts).dones != m.dones {
      var c :| P.Purge(m, ts).dones == P.Pending(m.dones, c);
      Q.PendingWithin(m.dones, c);
      forall i | 0 <= i < |P.Pending(m.dones, c)| ensures DoneWithin(P.Pending(m.dones, c)[i], no, pairs) {
        assert P.Pending(m.dones, c)[i] in m.dones;
      }
    }
  }

  /** What a naming line brings. */
  lemma NamingBrings(m: P.Memory, ev: Event)
    requires M.NamesOrder(ev)
    ensures var m' := P.Hear(m, ev);
            && m'.dones == P.Marked(m.dones, ev.orderNo) && |m'.incoming| == |m.incoming| + 1
            && var a := m'.incoming[|m.incoming|];
               m'.incoming == m.incoming + [a] && a.no == ev.orderNo && (a.SellAnchor? <==> !ev.BuyAccept?)
  {
  }

  lemma SellsSnoc(pre: seq<P.Anchor>, a: P.Anchor, no: string)
    ensures SellsOf(pre + [a], no) == SellsOf(pre, no) + (if a.SellAnchor? && a.no == no then 1 else 0)
  {
    assert (pre + [a])[..|pre|] == pre;
  }

  /** A claim brings at most one sell of the order, and none if it cannot. */
  lemma ClaimBringsAtMost(m: P.Memory, ev: Event, no: string, pairs: set<(string, int)>)
    requires M.Claims(ev) && DonesWithin(m.dones, no, pairs)
    ensures var m' := P.Hear(m, ev);
            && DonesWithin(m'.dones, no, pairs)
            && (m'.incoming == m.incoming
                || (|m'.incoming| == |m.incoming| + 1 && m'.incoming[..|m.incoming|] == m.incoming
                    && (IsSell(m'.incoming[|m.incoming|], no) ==> CanBring(ev, no, pairs))))
  {
    var m' := P.Hear(m, ev);
    Q.ClaimTakesNearest(m, ev);
    if m' != m {
      var i: nat :| Q.Nearest(m.dones, i, Q.ClaimSide(ev), ev.ticker, ev.ts, Q.ClaimQty(ev)) && Q.Claimed(m, m', i, ev);
      assert DoneWithin(m.dones[i], no, pairs);
    }
  }

  /** The sells of the number grow by one if the line names it, and only if it can bring it. */
  predicate GrowsBy(before: nat, after: nat, ev: Event, no: string, pairs: set<(string, int)>) {
    before + (if NamesSell(ev, no) then 1 else 0) <= after <= before + (if CanBring(ev, no, pairs) then 1 else 0)
  }

  lemma HearGrows(m: P.Memory, ev: Event, no: string, pairs: set<(string, int)>)
    requires Completes(ev, no, pairs) && DonesWithin(m.dones, no, pairs)
    ensures var m' := P.Hear(m, ev);
            && DonesWithin(m'.dones, no, pairs)
            && GrowsBy(SellsOf(m.incoming, no), SellsOf(m'.incoming, no), ev, no, pairs)
  {
    if M.NamesOrder(ev) {
      NamingBrings(m, ev);
      SellsSnoc(m.incoming, P.Hear(m, ev).incoming[|m.incoming|], no);
    } else if M.Claims(ev) {
      ClaimBringsAtMost(m, ev, no, pairs);
      var (before, after) := (m.incoming, P.Hear(m, ev).incoming);
      if after != before {
        assert after == before + [after[|before|]];
        SellsSnoc(before, after[|before|], no);
      }
    } else {
      Q.HearEffect(m, ev);
    }
  }

  /** A chunk brings at least as many sells of the number as its lines name, and at most as many as its
      lines can bring. */
  lemma {:induction false} FeedAllGrows(m: P.Memory, evs: seq<Event>, no: string, pairs: set<(string, int)>)
    requires AllComplete(evs, no, pairs) && DonesWithin(m.dones, no, pairs)
    ensures var m' := P.FeedAll(m, evs);
            && DonesWithin(m'.dones, no, pairs)
            && SellsOf(m.incoming, no) + Naming(evs, no) <= SellsOf(m'.incoming, no)
               <= SellsOf(m.incoming, no) + Bringing(evs, no, pairs)
  {
    if evs != [] {
      var n := |evs| - 1;
      FeedAllGrows(m, evs[..n], no, pairs);
      var m1 := P.FeedAll(m, evs[..n]);
      PurgeKeepsWithin(m1, evs[n].ts, no, pairs);
      PurgeKeepsIncoming(m1, evs[n].ts);
      HearGrows(P.Purge(m1, evs[n].ts), evs[n], no, pairs);
    }
  }

  // ---- runs whose chunks can bring the sell at most once ------------------------------------------

  /** The lines the next rotation reads. */
  function ReadLines(x: WD, env: Env): seq<T.Bytes> {
    match T.ReadChunk(env.dir, if x.w.booted then x.w.cursor else x.d.cursor, T.MAX_READ_BYTES)
    case Missing => []
    case Chunk(lines, _) => lines
  }

  ghost predicate BringsOnce(g: Grammar, lines: seq<T.Bytes>, no: string, pairs: set<(string, int)>) {
    AllComplete(Parsed(g, lines), no, pairs) && Bringing(Parsed(g, lines), no, pairs) <= 1
  }

  /** Every chunk a rotation of the run reads has at most one line that can bring the sell. */
  ghost predicate ChunksBringOnce(s: Run, rotate: (WD, Env) -> WD, g: Grammar, steps: seq<Step>, no: string,
                                 pairs: set<(string, int)>)
    requires s.log != []
  {
    forall n :: 0 <= n < |steps| ==> BringsOnceAt(s, rotate, g, steps, no, pairs, n)
  }

  ghost predicate BringsOnceAt(s: Run, rotate: (WD, Env) -> WD, g: Grammar, steps: seq<Step>, no: string,
                             pairs: set<(string, int)>, n: int)
    requires s.log != [] && 0 <= n < |steps|
  {
    var before := RunAll(s, rotate, steps[..n]);
    steps[n].Rotation? ==> BringsOnce(g, ReadLines(WD(before.w, before.d), steps[n].env), no, pairs)
  }

  ghost predicate HoldsOnce(w: WState, no: string, pairs: set<(string, int)>) {
    w.p.incoming == [] && SellsOf(w.p.ready, no) <= 1 && DonesWithin(w.p.dones, no, pairs)
  }

  lemma FinishHoldsOnce(x: WD, g: Grammar, env: Env, lines: seq<T.Bytes>, end: T.Cursor, no: string,
                        pairs: set<(string, int)>)
    requires HoldsOnce(x.w, no, pairs) && BringsOnce(g, lines, no, pairs)
    ensures HoldsOnce(Finish(x, g, env, lines, end).0.w, no, pairs)
  {
    FinishMemory(x, g, env, lines, end);
    FeedAllGrows(x.w.p, Parsed(g, lines), no, pairs);
  }

  lemma ReadHoldsOnce(x: WD, g: Grammar, env: Env, no: string, pairs: set<(string, int)>)
    requires HoldsOnce(x.w, no, pairs) && x.w.booted && BringsOnce(g, ReadLines(x, env), no, pairs)
    ensures HoldsOnce(ReadOn(x, g, env).0.w, no, pairs)
  {
    var chunk := T.ReadChunk(env.dir, x.w.cursor, T.MAX_READ_BYTES);
    if chunk.Chunk? { FinishHoldsOnce(x, g, env, chunk.lines, chunk.cursor, no, pairs); }
  }

  lemma ReadyHoldsOnce(x: WD, env: Env, no: string, pairs: set<(string, int)>)
    requires HoldsOnce(x.w, no, pairs)
    ensures HoldsOnce(Ready(x, env), no, pairs)
    ensures var w := Shown(Ready(x, env), env);
            HoldsOnce(w, no, pairs) && w.booted && ReadLines(WD(w, x.d), env) == ReadLines(x, env)
  {
    ReadyKeepsMemory(x, env);
  }

  lemma RotateHoldsOnce(x: WD, g: Grammar, env: Env, no: string, pairs: set<(string, int)>)
    requires HoldsOnce(x.w, no, pairs) && BringsOnce(g, ReadLines(x, env), no, pairs)
    ensures HoldsOnce(Rotate(x, g, env).0.w, no, pairs)
  {
    if x.w.booted || !env.bootFails {
      ReadyHoldsOnce(x, env, no, pairs);
      ReadHoldsOnce(WD(Shown(Ready(x, env), env), x.d), g, env, no, pairs);
    }
  }

  ghost predicate KeepsHoldsOnce(rotate: (WD, Env) -> WD, g: Grammar, no: string, pairs: set<(string, int)>) {
    forall x: WD, env: Env :: HoldsOnce(x.w, no, pairs) && BringsOnce(g, ReadLines(x, env), no, pairs) ==>
      HoldsOnce(rotate(x, env).w, no, pairs)
  }

  lemma WorkerHoldsOnce(g: Grammar, no: string, pairs: set<(string, int)>)
    ensures KeepsHoldsOnce(WorkerRotation(g), g, no, pairs)
  {
    forall x: WD, env: Env | HoldsOnce(x.w, no, pairs) && BringsOnce(g, ReadLines(x, env), no, pairs)
      ensures HoldsOnce(WorkerRotation(g)(x, env).w, no, pairs)
    {
      RotateHoldsOnce(x, g, env, no, pairs);
    }
  }

  lemma NextHoldsOnce(s: Run, rotate: (WD, Env) -> WD, g: Grammar, step: Step, no: string, pairs: set<(string, int)>)
    requires s.log != [] && KeepsHoldsOnce(rotate, g, no, pairs) && HoldsOnce(s.w, no, pairs)
    requires step.Rotation? ==> BringsOnce(g, ReadLines(WD(s.w, s.d), step.env), no, pairs)
    ensures HoldsOnce(Next(s, rotate, step).w, no, pairs)
  {
    if step.Rotation? {
      var x := WD(s.w, s.d.(faults := step.faults, dying := step.dies));
      assert ReadLines(x, step.env) == ReadLines(WD(s.w, s.d), step.env);
    }
  }

  lemma PrefixBringsOnce(s: Run, rotate: (WD, Env) -> WD, g: Grammar, steps: seq<Step>, no: string,
                       pairs: set<(string, int)>, n: nat)
    requires s.log != [] && n <= |steps| && ChunksBringOnce(s, rotate, g, steps, no, pairs)
    ensures ChunksBringOnce(s, rotate, g, steps[..n], no, pairs)
  {
    forall m | 0 <= m < n ensures BringsOnceAt(s, rotate, g, steps[..n], no, pairs, m) {
      assert BringsOnceAt(s, rotate, g, steps, no, pairs, m) && steps[..n][..m] == steps[..m];
    }
  }

  lemma {:induction false} RunHoldsOnce(s: Run, rotate: (WD, Env) -> WD, g: Grammar, steps: seq<Step>, no: string,
                                        pairs: set<(string, int)>)
    requires s.log != [] && KeepsHoldsOnce(rotate, g, no, pairs) && HoldsOnce(s.w, no, pairs)
    requires ChunksBringOnce(s, rotate, g, steps, no, pairs)
    ensures HoldsOnce(RunAll(s, rotate, steps).w, no, pairs)
  {
    if steps != [] {
      var n := |steps| - 1;
      PrefixBringsOnce(s, rotate, g, steps, no, pairs, n);
      RunHoldsOnce(s, rotate, g, steps[..n], no, pairs);
      assert BringsOnceAt(s, rotate, g, steps, no, pairs, n);
      NextHoldsOnce(RunAll(s, rotate, steps[..n]), rotate, g, steps[n], no, pairs);
    }
  }

  lemma BroughtOnceIsQuiet(s: Run, rotate: (WD, Env) -> WD, g: Grammar, steps: seq<Step>, no: string,
                         pairs: set<(string, int)>)
    requires s.log != [] && KeepsHoldsOnce(rotate, g, no, pairs) && HoldsOnce(s.w, no, pairs)
    requires ChunksBringOnce(s, rotate, g, steps, no, pairs)
    ensures QuietBatches(s, rotate, steps, no)
  {
    forall n | 0 <= n < |steps| ensures QuietAt(s, rotate, steps, no, n) {
      PrefixBringsOnce(s, rotate, g, steps, no, pairs, n);
      RunHoldsOnce(s, rotate, g, steps[..n], no, pairs);
      OneSellIsSafe(RunAll(s, rotate, steps[..n]).w.p.ready, no);
    }
  }

  /** In every run, with failures and deaths anywhere and chunks read again, at most one exit event is
      recorded per day and sell order, if every chunk has at most one line that names the order or is a
      reorder for a ticker and quantity it completes with. */
  lemma OneExitPerSell(log: T.Log, g: Grammar, steps: seq<Step>, k: Key, pairs: set<(string, int)>)
    requires log != [] && ChunksBringOnce(Begin(log), WorkerRotation(g), g, steps, k.no, pairs)
    ensures ExitCount(RunAll(Begin(log), WorkerRotation(g), steps).d.stops, k) <= 1
  {
    WorkerHoldsOnce(g, k.no, pairs);
    BroughtOnceIsQuiet(Begin(log), WorkerRotation(g), g, steps, k.no, pairs);
    QuietBatchesExitOnce(log, g, steps, k);
  }

  // ---- the exit events of one batch, counted -------------------------------------------------------

  /** A sell row with the number that would turn its key from not measured to measured. */
  ghost predicate FreshRow(orders: map<Key, Row>, row: Row, no: string) {
    row.key.side == Sell && row.key.no == no && !IsEmpty(row.source) && !Measured(orders, row.key)
  }

  ghost predicate FreshIn(orders: map<Key, Row>, rows: seq<Row>, no: string) {
    exists i :: 0 <= i < |rows| && FreshRow(orders, rows[i], no)
  }

  ghost predicate MeasuredIn(rows: seq<Row>, k: Key) {
    exists i :: 0 <= i < |rows| && rows[i].key == k && !IsEmpty(rows[i].source)
  }

  /** One undisturbed write. */
  lemma QuietWrite(d: Db, row: Row, k: Key)
    requires Quiet(d) && Keyed(d.orders)
    ensures var (d', noError, isFresh) := WriteRow(d, row);
            && Quiet(d') && Keyed(d'.orders) && d'.stops == d.stops
            && (isFresh <==> !IsEmpty(row.source) && !Measured(d.orders, row.key))
            && (Measured(d'.orders, k) <==> Measured(d.orders, k) || (row.key == k && !IsEmpty(row.source)))
  {
  }

  lemma RowsSnoc(orders: map<Key, Row>, pre: seq<Row>, row: Row, no: string, k: Key)
    ensures FreshIn(orders, pre + [row], no) <==> FreshIn(orders, pre, no) || FreshRow(orders, row, no)
    ensures MeasuredIn(pre + [row], k) <==> MeasuredIn(pre, k) || (row.key == k && !IsEmpty(row.source))
  {
    var all := pre + [row];
    assert all[|pre|] == row;
    forall i | 0 <= i < |pre| ensures all[i] == pre[i] {
    }
  }

  lemma MeasuredRowIsFresh(orders: map<Key, Row>, rows: seq<Row>, k: Key)
    requires MeasuredIn(rows, k) && !Measured(orders, k) && k.side == Sell
    ensures FreshIn(orders, rows, k.no)
  {
    var i :| 0 <= i < |rows| && rows[i].key == k && !IsEmpty(rows[i].source);
    assert FreshRow(orders, rows[i], k.no);
  }

  /** Undisturbed, a batch measures exactly the keys of its measured rows, and counts a sell's number as
      fresh exactly when one of its rows was not measured before. */
  lemma {:induction false} QuietWrites(x: Written, rows: seq<Row>, no: string, k: Key)
    requires Quiet(x.d) && Keyed(x.d.orders)
    ensures var y := WriteAll(x, rows);
            && Quiet(y.d) && Keyed(y.d.orders) && y.d.stops == x.d.stops
            && (Measured(y.d.orders, k) <==> Measured(x.d.orders, k) || MeasuredIn(rows, k))
            && (no in y.sells <==> no in x.sells || FreshIn(x.d.orders, rows, no))
  {
    if rows != [] {
      var n := |rows| - 1;
      var pre, row := rows[..n], rows[n];
      QuietWrites(x, pre, no, k);
      QuietWrites(x, pre, no, row.key);
      assert rows == pre + [row];
      RowsSnoc(x.d.orders, pre, row, no, k);
      var x1 := WriteAll(x, pre);
      QuietWrite(x1.d, row, k);
      if FreshRow(x.d.orders, row, no) && Measured(x1.d.orders, row.key) {
        MeasuredRowIsFresh(x.d.orders, pre, row.key);
      }
    }
  }

  lemma {:induction false} QuietStops(d: Db, evs: seq<StopEvent>, k: Key)
    requires Quiet(d)
    ensures var d' := AddStops(d, evs);
            Quiet(d') && d'.orders == d.orders && ExitCount(d'.stops, k) == ExitCount(d.stops, k) + ExitCount(evs, k)
  {
    if evs != [] {
      var n := |evs| - 1;
      QuietStops(d, evs[..n], k);
      ExitCountSnoc(AddStops(d, evs[..n]).stops, evs[n], k);
    }
  }

  /** The batch holds a sell of the number whose key is not measured yet. */
  ghost predicate FreshSell(orders: map<Key, Row>, anchors: seq<P.Anchor>, no: string) {
    exists i :: 0 <= i < |anchors| && anchors[i].SellAnchor? && anchors[i].no == no
      && !Measured(orders, anchors[i].Key())
  }

  lemma FreshRows(m: P.Memory, anchors: seq<P.Anchor>, trades: map<string, string>, orders: map<Key, Row>, no: string)
    requires m.source == LogHarvest
    ensures FreshIn(orders, P.RowsOf(m, anchors, trades), no) <==> FreshSell(orders, anchors, no)
  {
    var rows := P.RowsOf(m, anchors, trades);
    forall i | 0 <= i < |anchors|
      ensures FreshRow(orders, rows[i], no)
              <==> anchors[i].SellAnchor? && anchors[i].no == no && !Measured(orders, anchors[i].Key())
    {
    }
  }

  /** Exactly what an undisturbed release records: if the batch holds a sell of the number whose key was
      not measured, one exit event for every sell of the key that carries one; otherwise none. */
  lemma BatchRecordsExactly(x: WD, trades: map<string, string>, k: Key)
    requires Quiet(x.d) && Keyed(x.d.orders) && GoodAnchors(x.w.p.ready) && x.w.p.source == LogHarvest
    ensures var y := Release(x, trades);
            ExitCount(y.d.stops, k) == ExitCount(x.d.stops, k)
              + (if FreshSell(x.d.orders, x.w.p.ready, k.no) then StopsFor(x.w.p.ready, k) else 0)
  {
    var leaving := P.Leaving(x.w.p, false);
    var rows := P.RowsOf(x.w.p, leaving, trades);
    var start := Written(x.w.(p := P.Drained(x.w.p, false)), x.d, {});
    var out := WriteAll(start, rows);
    QuietWrites(start, rows, k.no, k);
    FreshRows(x.w.p, leaving, trades, x.d.orders, k.no);
    BatchExits(leaving, out.sells, k);
    QuietStops(out.d, OfFresh(P.StopsOf(leaving), out.sells), k);
  }
}
