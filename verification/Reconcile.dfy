/** Reconciliation: completions against rows, and rows filled in from the trade history. */
module Reconcile {
  import opened Basics
  import opened Journal

  const MIN_AGE := 120 * SECOND

  datatype DoneEvent = DoneEvent(side: Side, no: string, ts: Time)

  datatype DayRow = DayRow(side: Side, no: Option<string>, source: Source, reasonCode: Option<string>, notedAt: Time)

  type Pair = (string, Side)

  // ---- cutting completions and rows at one time -------------------------------------------

  function DoneTimes(dones: seq<DoneEvent>): map<Pair, Time> {
    if dones == [] then map[]
    else
      var e := dones[|dones| - 1];
      DoneTimes(dones[..|dones| - 1])[(e.no, e.side) := e.ts]
  }

  function RowTimes(rows: seq<DayRow>): map<Pair, Time> {
    if rows == [] then map[]
    else
      var before, r := RowTimes(rows[..|rows| - 1]), rows[|rows| - 1];
      if r.no.Some? then before[(r.no.value, r.side) := r.notedAt] else before
  }

  /** A completion counts from the later of its own time and its row's. */
  function DoneFrom(e: DoneEvent, rowTs: map<Pair, Time>): Time {
    if (e.no, e.side) in rowTs then MaxI(e.ts, rowTs[(e.no, e.side)]) else e.ts
  }

  function RowFrom(r: DayRow, doneTs: map<Pair, Time>): Time {
    if r.no.Some? && (r.no.value, r.side) in doneTs then MaxI(r.notedAt, doneTs[(r.no.value, r.side)]) else r.notedAt
  }

  function KeptDones(dones: seq<DoneEvent>, rowTs: map<Pair, Time>, cutoff: Time): seq<DoneEvent> {
    if dones == [] then []
    else
      var e := dones[|dones| - 1];
      KeptDones(dones[..|dones| - 1], rowTs, cutoff) + (if DoneFrom(e, rowTs) <= cutoff then [e] else [])
  }

  function KeptRows(rows: seq<DayRow>, doneTs: map<Pair, Time>, cutoff: Time): seq<DayRow> {
    if rows == [] then []
    else
      var r := rows[|rows| - 1];
      KeptRows(rows[..|rows| - 1], doneTs, cutoff) + (if RowFrom(r, doneTs) <= cutoff then [r] else [])
  }

  method CutoffSplit(dones: seq<DoneEvent>, rows: seq<DayRow>, cutoff: Time)
    returns (keptDone: seq<DoneEvent>, keptRows: seq<DayRow>)
    ensures keptDone == KeptDones(dones, RowTimes(rows), cutoff)
    ensures keptRows == KeptRows(rows, DoneTimes(dones), cutoff)
  {
    var doneTs, rowTs := map[], map[];
    for i := 0 to |dones|
      invariant doneTs == DoneTimes(dones[..i])
    {
      assert dones[..i + 1][..i] == dones[..i];
      doneTs := doneTs[(dones[i].no, dones[i].side) := dones[i].ts];
    }
    for i := 0 to |rows|
      invariant rowTs == RowTimes(rows[..i])
    {
      assert rows[..i + 1][..i] == rows[..i];
      if rows[i].no.Some? {
        rowTs := rowTs[(rows[i].no.value, rows[i].side) := rows[i].notedAt];
      }
    }
    assert dones[..|dones|] == dones && rows[..|rows|] == rows;
    keptDone, keptRows := [], [];
    for i := 0 to |dones|
      invariant keptDone == KeptDones(dones[..i], rowTs, cutoff)
    {
      assert dones[..i + 1][..i] == dones[..i];
      if DoneFrom(dones[i], rowTs) <= cutoff {
        keptDone := keptDone + [dones[i]];
      }
    }
    for i := 0 to |rows|
      invariant keptRows == KeptRows(rows[..i], doneTs, cutoff)
    {
      assert rows[..i + 1][..i] == rows[..i];
      if RowFrom(rows[i], doneTs) <= cutoff {
        keptRows := keptRows + [rows[i]];
      }
    }
  }

  /** Each order and side completes once. */
  ghost predicate UniqueDones(dones: seq<DoneEvent>) {
    forall i, j :: 0 <= i < j < |dones| ==> (dones[i].no, dones[i].side) != (dones[j].no, dones[j].side)
  }

  /** Each order and side has one row, and every row has its number. */
  ghost predicate UniqueRows(rows: seq<DayRow>) {
    && (forall i :: 0 <= i < |rows| ==> rows[i].no.Some?)
    && (forall i, j :: 0 <= i < j < |rows| ==> (rows[i].no, rows[i].side) != (rows[j].no, rows[j].side))
  }

  lemma {:induction false} DoneTimeOf(dones: seq<DoneEvent>, i: int)
    requires UniqueDones(dones) && 0 <= i < |dones|
    ensures var p := (dones[i].no, dones[i].side);
            p in DoneTimes(dones) && DoneTimes(dones)[p] == dones[i].ts
  {
    if i < |dones| - 1 { DoneTimeOf(dones[..|dones| - 1], i); }
  }

  lemma {:induction false} RowTimeOf(rows: seq<DayRow>, i: int)
    requires UniqueRows(rows) && 0 <= i < |rows|
    ensures var p := (rows[i].no.value, rows[i].side);
            p in RowTimes(rows) && RowTimes(rows)[p] == rows[i].notedAt
  {
    if i < |rows| - 1 { RowTimeOf(rows[..|rows| - 1], i); }
  }

  lemma {:induction false} KeptDoneMembers(dones: seq<DoneEvent>, rowTs: map<Pair, Time>, cutoff: Time)
    ensures forall e :: e in KeptDones(dones, rowTs, cutoff) <==> e in dones && DoneFrom(e, rowTs) <= cutoff
  {
    if dones != [] {
      assert dones == dones[..|dones| - 1] + [dones[|dones| - 1]];
      KeptDoneMembers(dones[..|dones| - 1], rowTs, cutoff);
    }
  }

  lemma {:induction false} KeptRowMembers(rows: seq<DayRow>, doneTs: map<Pair, Time>, cutoff: Time)
    ensures forall r :: r in KeptRows(rows, doneTs, cutoff) <==> r in rows && RowFrom(r, doneTs) <= cutoff
  {
    if rows != [] {
      assert rows == rows[..|rows| - 1] + [rows[|rows| - 1]];
      KeptRowMembers(rows[..|rows| - 1], doneTs, cutoff);
    }
  }

  /** At every cutoff a completion and its row are both kept or both dropped. */
  lemma PairIsNeverSplit(dones: seq<DoneEvent>, rows: seq<DayRow>, cutoff: Time, i: int, j: int)
    requires UniqueDones(dones) && UniqueRows(rows)
    requires 0 <= i < |dones| && 0 <= j < |rows|
    requires Some(dones[i].no) == rows[j].no && dones[i].side == rows[j].side
    ensures dones[i] in KeptDones(dones, RowTimes(rows), cutoff)
            <==> rows[j] in KeptRows(rows, DoneTimes(dones), cutoff)
  {
    DoneTimeOf(dones, i);
    RowTimeOf(rows, j);
    KeptDoneMembers(dones, RowTimes(rows), cutoff);
    KeptRowMembers(rows, DoneTimes(dones), cutoff);
  }

  // ---- the identities --------------------------------------------------------------------

  datatype Check = Check(sellDone: nat, sellRows: nat, buyDone: nat, buyRows: nat, unknownSells: nat, ok: bool)

  function CountDone(dones: seq<DoneEvent>, side: Side): nat {
    if dones == [] then 0
    else CountDone(dones[..|dones| - 1], side) + (if dones[|dones| - 1].side == side then 1 else 0)
  }

  /** Rows filled in from the trade history are not counted. */
  function CountRows(rows: seq<DayRow>, side: Side): nat {
    if rows == [] then 0
    else
      var r := rows[|rows| - 1];
      CountRows(rows[..|rows| - 1], side) + (if r.side == side && !IsEmpty(r.source) then 1 else 0)
  }

  predicate Unknown(r: DayRow) { r.side == Sell && !IsEmpty(r.source) && r.reasonCode.None? }

  function CountUnknown(rows: seq<DayRow>): nat {
    if rows == [] then 0
    else CountUnknown(rows[..|rows| - 1]) + (if Unknown(rows[|rows| - 1]) then 1 else 0)
  }

  function Identities(dones: seq<DoneEvent>, rows: seq<DayRow>): Check {
    var (sd, sr, bd, br, u) := (CountDone(dones, Sell), CountRows(rows, Sell), CountDone(dones, Buy),
                                CountRows(rows, Buy), CountUnknown(rows));
    Check(sd, sr, bd, br, u, sd == sr && bd == br && u == 0)
  }

  function DonePair(e: DoneEvent): Pair { (e.no, e.side) }

  /** A row without a number stands under the empty one. */
  function RowPair(r: DayRow): Pair { (if r.no.Some? then r.no.value else "", r.side) }

  /** The pairs of one side. */
  function DonePairs(dones: seq<DoneEvent>, side: Side): set<Pair> {
    set e | e in dones && e.side == side :: DonePair(e)
  }

  function RowPairs(rows: seq<DayRow>, side: Side): set<Pair> {
    set r | r in rows && r.side == side :: RowPair(r)
  }

  lemma DonePairsGrow(pre: seq<DoneEvent>, e: DoneEvent, side: Side)
    ensures DonePairs(pre + [e], side) == DonePairs(pre, side) + (if e.side == side then {DonePair(e)} else {})
  {
    forall p
      ensures p in DonePairs(pre + [e], side) <==> p in DonePairs(pre, side) || (e.side == side && p == DonePair(e))
    {
      assert e in pre + [e];
      if p in DonePairs(pre, side) {
        var x :| x in pre && x.side == side && DonePair(x) == p;
        assert x in pre + [e];
      }
    }
  }

  lemma RowPairsGrow(pre: seq<DayRow>, r: DayRow, side: Side)
    ensures RowPairs(pre + [r], side) == RowPairs(pre, side) + (if r.side == side then {RowPair(r)} else {})
  {
    forall p
      ensures p in RowPairs(pre + [r], side) <==> p in RowPairs(pre, side) || (r.side == side && p == RowPair(r))
    {
      assert r in pre + [r];
      if p in RowPairs(pre, side) {
        var x :| x in pre && x.side == side && RowPair(x) == p;
        assert x in pre + [r];
      }
    }
  }

  lemma LastDoneIsNew(dones: seq<DoneEvent>, side: Side)
    requires UniqueDones(dones) && dones != []
    ensures DonePair(dones[|dones| - 1]) !in DonePairs(dones[..|dones| - 1], side)
  {
    var pre, e := dones[..|dones| - 1], dones[|dones| - 1];
    forall x | x in pre ensures DonePair(x) != DonePair(e) {
      var k :| 0 <= k < |pre| && pre[k] == x;
      assert dones[k] == x;
    }
  }

  lemma LastRowIsNew(rows: seq<DayRow>, side: Side)
    requires UniqueRows(rows) && rows != []
    ensures RowPair(rows[|rows| - 1]) !in RowPairs(rows[..|rows| - 1], side)
  {
    var pre, r := rows[..|rows| - 1], rows[|rows| - 1];
    forall x | x in pre ensures RowPair(x) != RowPair(r) {
      var k :| 0 <= k < |pre| && pre[k] == x;
      assert rows[k] == x;
    }
  }

  lemma {:induction false} DonesCounted(dones: seq<DoneEvent>, side: Side)
    requires UniqueDones(dones)
    ensures CountDone(dones, side) == |DonePairs(dones, side)|
  {
    if dones != [] {
      var pre, e := dones[..|dones| - 1], dones[|dones| - 1];
      assert dones == pre + [e];
      DonesCounted(pre, side);
      DonePairsGrow(pre, e, side);
      LastDoneIsNew(dones, side);
    }
  }

  ghost predicate AllMeasured(rows: seq<DayRow>) {
    forall r :: r in rows ==> !IsEmpty(r.source)
  }

  lemma {:induction false} RowsCounted(rows: seq<DayRow>, side: Side)
    requires UniqueRows(rows) && AllMeasured(rows)
    ensures CountRows(rows, side) == |RowPairs(rows, side)|
  {
    if rows != [] {
      var pre, r := rows[..|rows| - 1], rows[|rows| - 1];
      assert rows == pre + [r];
      RowsCounted(pre, side);
      RowPairsGrow(pre, r, side);
      LastRowIsNew(rows, side);
    }
  }

  lemma {:induction false} KeptDonesUnique(dones: seq<DoneEvent>, rowTs: map<Pair, Time>, cutoff: Time)
    requires UniqueDones(dones)
    ensures UniqueDones(KeptDones(dones, rowTs, cutoff))
  {
    if dones != [] {
      var pre, e := dones[..|dones| - 1], dones[|dones| - 1];
      KeptDonesUnique(pre, rowTs, cutoff);
      KeptDoneMembers(pre, rowTs, cutoff);
      var kept := KeptDones(pre, rowTs, cutoff);
      forall i | 0 <= i < |kept| ensures (kept[i].no, kept[i].side) != (e.no, e.side) {
        assert kept[i] in pre;
        var k :| 0 <= k < |pre| && pre[k] == kept[i];
        assert dones[k] == kept[i];
      }
    }
  }

  lemma {:induction false} KeptRowsUnique(rows: seq<DayRow>, doneTs: map<Pair, Time>, cutoff: Time)
    requires UniqueRows(rows)
    ensures UniqueRows(KeptRows(rows, doneTs, cutoff))
  {
    if rows != [] {
      var pre, r := rows[..|rows| - 1], rows[|rows| - 1];
      KeptRowsUnique(pre, doneTs, cutoff);
      KeptRowMembers(pre, doneTs, cutoff);
      var kept := KeptRows(pre, doneTs, cutoff);
      forall i | 0 <= i < |kept| ensures (kept[i].no, kept[i].side) != (r.no, r.side) {
        assert kept[i] in pre;
        var k :| 0 <= k < |pre| && pre[k] == kept[i];
        assert rows[k] == kept[i];
      }
    }
  }

  /** Completions and rows name the same orders. */
  ghost predicate SamePairs(dones: seq<DoneEvent>, rows: seq<DayRow>) {
    DonePairs(dones, Buy) == RowPairs(rows, Buy) && DonePairs(dones, Sell) == RowPairs(rows, Sell)
  }

  lemma DoneAt(dones: seq<DoneEvent>, side: Side, p: Pair) returns (i: int)
    requires p in DonePairs(dones, side)
    ensures 0 <= i < |dones| && dones[i].side == side && DonePair(dones[i]) == p
  {
    var e :| e in dones && e.side == side && DonePair(e) == p;
    i :| 0 <= i < |dones| && dones[i] == e;
  }

  lemma RowAt(rows: seq<DayRow>, side: Side, p: Pair) returns (j: int)
    requires p in RowPairs(rows, side)
    ensures 0 <= j < |rows| && rows[j].side == side && RowPair(rows[j]) == p
  {
    var r :| r in rows && r.side == side && RowPair(r) == p;
    j :| 0 <= j < |rows| && rows[j] == r;
  }

  lemma KeptDonesSubset(dones: seq<DoneEvent>, rowTs: map<Pair, Time>, cutoff: Time, side: Side)
    ensures DonePairs(KeptDones(dones, rowTs, cutoff), side) <= DonePairs(dones, side)
  {
    KeptDoneMembers(dones, rowTs, cutoff);
  }

  lemma KeptRowsSubset(rows: seq<DayRow>, doneTs: map<Pair, Time>, cutoff: Time, side: Side)
    ensures RowPairs(KeptRows(rows, doneTs, cutoff), side) <= RowPairs(rows, side)
  {
    KeptRowMembers(rows, doneTs, cutoff);
  }

  /** A pair both lists name is kept in one exactly when it is kept in the other. */
  lemma PairKeptInBoth(dones: seq<DoneEvent>, rows: seq<DayRow>, cutoff: Time, side: Side, p: Pair)
    requires UniqueDones(dones) && UniqueRows(rows)
    requires p in DonePairs(dones, side) && p in RowPairs(rows, side)
    ensures p in DonePairs(KeptDones(dones, RowTimes(rows), cutoff), side)
       <==> p in RowPairs(KeptRows(rows, DoneTimes(dones), cutoff), side)
  {
    var (kd, kr) := (KeptDones(dones, RowTimes(rows), cutoff), KeptRows(rows, DoneTimes(dones), cutoff));
    var i := DoneAt(dones, side, p);
    var j := RowAt(rows, side, p);
    PairIsNeverSplit(dones, rows, cutoff, i, j);
    if p in DonePairs(kd, side) {
      OnlyDone(dones, RowTimes(rows), cutoff, i);
    }
    if p in RowPairs(kr, side) {
      OnlyRow(rows, DoneTimes(dones), cutoff, j);
    }
  }

  lemma OnlyDone(dones: seq<DoneEvent>, rowTs: map<Pair, Time>, cutoff: Time, i: int)
    requires UniqueDones(dones) && 0 <= i < |dones|
    requires DonePair(dones[i]) in DonePairs(KeptDones(dones, rowTs, cutoff), dones[i].side)
    ensures dones[i] in KeptDones(dones, rowTs, cutoff)
  {
    var kept := KeptDones(dones, rowTs, cutoff);
    KeptDoneMembers(dones, rowTs, cutoff);
    var k := DoneAt(kept, dones[i].side, DonePair(dones[i]));
    assert kept[k] in kept;
    var m :| 0 <= m < |dones| && dones[m] == kept[k];
    assert m == i;
  }

  lemma OnlyRow(rows: seq<DayRow>, doneTs: map<Pair, Time>, cutoff: Time, j: int)
    requires UniqueRows(rows) && 0 <= j < |rows|
    requires RowPair(rows[j]) in RowPairs(KeptRows(rows, doneTs, cutoff), rows[j].side)
    ensures rows[j] in KeptRows(rows, doneTs, cutoff)
  {
    var kept := KeptRows(rows, doneTs, cutoff);
    KeptRowMembers(rows, doneTs, cutoff);
    var k := RowAt(kept, rows[j].side, RowPair(rows[j]));
    assert kept[k] in kept;
    var m :| 0 <= m < |rows| && rows[m] == kept[k];
    assert rows[m].no == rows[j].no;
    assert m == j;
  }

  lemma KeptPairsAgree(dones: seq<DoneEvent>, rows: seq<DayRow>, cutoff: Time, side: Side)
    requires UniqueDones(dones) && UniqueRows(rows) && DonePairs(dones, side) == RowPairs(rows, side)
    ensures DonePairs(KeptDones(dones, RowTimes(rows), cutoff), side)
            == RowPairs(KeptRows(rows, DoneTimes(dones), cutoff), side)
  {
    KeptDonesSubset(dones, RowTimes(rows), cutoff, side);
    KeptRowsSubset(rows, DoneTimes(dones), cutoff, side);
    forall p | p in DonePairs(dones, side)
      ensures p in DonePairs(KeptDones(dones, RowTimes(rows), cutoff), side)
         <==> p in RowPairs(KeptRows(rows, DoneTimes(dones), cutoff), side)
    {
      PairKeptInBoth(dones, rows, cutoff, side, p);
    }
  }

  lemma {:induction false} NoneUnknown(rows: seq<DayRow>)
    ensures CountUnknown(rows) == 0 <==> forall r :: r in rows ==> !Unknown(r)
  {
    if rows != [] {
      assert rows == rows[..|rows| - 1] + [rows[|rows| - 1]];
      NoneUnknown(rows[..|rows| - 1]);
    }
  }

  /** When completions and measured rows name the same orders, the per-side counts agree at every
      cutoff, so the check is ok exactly when no kept sell lacks a reason. */
  lemma IdentitiesHold(dones: seq<DoneEvent>, rows: seq<DayRow>, cutoff: Time)
    requires UniqueDones(dones) && UniqueRows(rows) && AllMeasured(rows) && SamePairs(dones, rows)
    ensures var (kd, kr) := (KeptDones(dones, RowTimes(rows), cutoff), KeptRows(rows, DoneTimes(dones), cutoff));
            var c := Identities(kd, kr);
            && c.sellDone == c.sellRows && c.buyDone == c.buyRows
            && (c.ok <==> forall r :: r in kr ==> !Unknown(r))
  {
    var (kd, kr) := (KeptDones(dones, RowTimes(rows), cutoff), KeptRows(rows, DoneTimes(dones), cutoff));
    KeptRowMembers(rows, DoneTimes(dones), cutoff);
    KeptDonesUnique(dones, RowTimes(rows), cutoff);
    KeptRowsUnique(rows, DoneTimes(dones), cutoff);
    SideAgrees(dones, rows, cutoff, Sell);
    SideAgrees(dones, rows, cutoff, Buy);
    NoneUnknown(kr);
  }

  lemma SideAgrees(dones: seq<DoneEvent>, rows: seq<DayRow>, cutoff: Time, side: Side)
    requires UniqueDones(dones) && UniqueRows(rows) && AllMeasured(rows) && SamePairs(dones, rows)
    ensures CountDone(KeptDones(dones, RowTimes(rows), cutoff), side)
            == CountRows(KeptRows(rows, DoneTimes(dones), cutoff), side)
  {
    var (kd, kr) := (KeptDones(dones, RowTimes(rows), cutoff), KeptRows(rows, DoneTimes(dones), cutoff));
    KeptRowMembers(rows, DoneTimes(dones), cutoff);
    KeptDonesUnique(dones, RowTimes(rows), cutoff);
    KeptRowsUnique(rows, DoneTimes(dones), cutoff);
    KeptPairsAgree(dones, rows, cutoff, side);
    DonesCounted(kd, side);
    RowsCounted(kr, side);
  }

  // ---- rows from the trade history --------------------------------------------------------

  datatype TradeRow = TradeRow(no: string, side: Side, strategy: string, ticker: string, timestamp: Time, filled: bool,
                               orderPrice: Option<real>)

  predicate Missing(t: TradeRow, journal: set<Key>, now: Time) {
    t.filled && t.timestamp <= now - MIN_AGE && Key(Date(t.timestamp), t.no, t.side) !in journal
  }

  function HistoryRow(t: TradeRow, notices: set<string>): Row {
    Row(Key(Date(t.timestamp), t.no, t.side), if t.strategy == "" then UNKNOWN else t.strategy, t.ticker,
        if t.no in notices then External else Unmatched, WithNum(map[], OrderPrice, t.orderPrice), t.timestamp)
  }

  function HistoryRows(trades: seq<TradeRow>, journal: set<Key>, notices: set<string>, now: Time): seq<Row> {
    if trades == [] then []
    else
      var t := trades[|trades| - 1];
      HistoryRows(trades[..|trades| - 1], journal, notices, now)
        + (if Missing(t, journal, now) then [HistoryRow(t, notices)] else [])
  }

  method RowsFromTradeHistory(trades: seq<TradeRow>, journal: set<Key>, notices: set<string>, now: Time)
    returns (out: seq<Row>)
    ensures out == HistoryRows(trades, journal, notices, now)
    ensures forall r :: r in out ==> IsEmpty(r.source) && r.key !in journal && r.notedAt <= now - MIN_AGE
    ensures forall t :: t in trades && Missing(t, journal, now) ==> HistoryRow(t, notices) in out
  {
    out := [];
    for i := 0 to |trades|
      invariant out == HistoryRows(trades[..i], journal, notices, now)
      invariant forall r :: r in out ==> IsEmpty(r.source) && r.key !in journal && r.notedAt <= now - MIN_AGE
      invariant forall t :: t in trades[..i] && Missing(t, journal, now) ==> HistoryRow(t, notices) in out
    {
      var t := trades[i];
      assert trades[..i + 1] == trades[..i] + [t] && trades[..i + 1][..i] == trades[..i];
      if !t.filled {
        continue;
      }
      if t.timestamp > now - MIN_AGE {
        continue;
      }
      if Key(Date(t.timestamp), t.no, t.side) in journal {
        continue;
      }
      out := out + [HistoryRow(t, notices)];
    }
    assert trades[..|trades|] == trades;
  }
}
