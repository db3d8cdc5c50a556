/** The journal's tables, changed by one atomic statement at a time. */
module JournalDb {
  import opened Basics
  import opened Journal
  import opened Tailer

  /** How one statement ends: normally, with an error and no effect, with an error after it took
      effect (the reply was lost), or never sent because the process died before it. */
  datatype Fault = Fine | NotApplied | AppliedThenRaised | NeverSent

  /** Everything durable, the faults still to come, whether the process dies after those, and a record
      of every row offered for insertion, of every row one of whose statements got no answer, and of every
      stop event whose insertion was sent and had no effect. */
  datatype Db = Db(orders: map<Key, Row>, stops: seq<StopEvent>, cursor: Option<Cursor>, faults: seq<Fault>,
                   dying: bool, offered: seq<Row>, unanswered: seq<Row>, missed: seq<StopEvent>)

  function NextFault(d: Db): Fault { if d.faults == [] then (if d.dying then NeverSent else Fine) else d.faults[0] }

  predicate NoEffect(f: Fault) { f == NotApplied || f == NeverSent }

  /** The process still sends its statements. */
  predicate Alive(d: Db) { d.faults != [] || !d.dying }

  function Used(d: Db): Db { if d.faults == [] then d else d.(faults := d.faults[1..]) }

  // ---- single statements ------------------------------------------------------------------

  /** Insert, or nothing if the key is taken. */
  function Inserted(orders: map<Key, Row>, row: Row): map<Key, Row> {
    if row.key in orders then orders else orders[row.key := row]
  }

  /** Only a row of an empty source is promoted: its NULLs and unknown strategy are filled and its
      source replaced. */
  function Promotable(orders: map<Key, Row>, key: Key): bool {
    key in orders && IsEmpty(orders[key].source)
  }

  function PromotedRow(cur: Row, row: Row): Row {
    cur.(strategy := if cur.strategy == UNKNOWN then row.strategy else cur.strategy,
         source := row.source,
         cells := row.cells + cur.cells)
  }

  function Promoted(orders: map<Key, Row>, row: Row): map<Key, Row> {
    if Promotable(orders, row.key) then orders[row.key := PromotedRow(orders[row.key], row)] else orders
  }

  function Filled(orders: map<Key, Row>, key: Key, division: string): map<Key, Row> {
    if key in orders && Division !in orders[key].cells
    then orders[key := orders[key].(cells := orders[key].cells[Division := Text(division)])]
    else orders
  }

  /** None stands for a raised error. */
  function Reply<T>(f: Fault, answer: T): Option<T> { if f == Fine then Some(answer) else None }

  function Sent(d: Db, f: Fault, row: Row): Db {
    var d1 := if f == Fine then Used(d) else Used(d).(unanswered := d.unanswered + [row]);
    if f == NeverSent then d1 else d1.(offered := d.offered + [row])
  }

  function Insert(d: Db, row: Row): (Db, Option<bool>) {
    var f := NextFault(d);
    var d1 := Sent(d, f, row);
    (if NoEffect(f) then d1 else d1.(orders := Inserted(d.orders, row)), Reply(f, row.key !in d.orders))
  }

  function Promote(d: Db, row: Row): (Db, Option<bool>) {
    var f := NextFault(d);
    var d1 := if f == Fine then Used(d) else Used(d).(unanswered := d.unanswered + [row]);
    (if NoEffect(f) then d1 else d1.(orders := Promoted(d.orders, row)), Reply(f, Promotable(d.orders, row.key)))
  }

  function Fill(d: Db, key: Key, division: string): Db {
    if NoEffect(NextFault(d)) then Used(d) else Used(d).(orders := Filled(d.orders, key, division))
  }

  function AddStop(d: Db, ev: StopEvent): Db {
    match NextFault(d)
    case NeverSent => Used(d)
    case NotApplied => Used(d).(missed := d.missed + [ev])
    case Fine => Used(d).(stops := d.stops + [ev])
    case AppliedThenRaised => Used(d).(stops := d.stops + [ev])
  }

  /** The flag says whether the statement returned normally. */
  function SaveCursor(d: Db, c: Cursor): (Db, bool) {
    var f := NextFault(d);
    (if NoEffect(f) then Used(d) else Used(d).(cursor := Some(c)), f == Fine)
  }

  /** Write one row: insert it, or promote the row already there if this one comes from the log. The
      flags say whether no error was raised and whether the row is fresh, that is measured and new. */
  function WriteRow(d: Db, row: Row): (Db, bool, bool) {
    var (d1, inserted) := Insert(d, row);
    if inserted.None? then (d1, false, false)
    else if IsEmpty(row.source) then (d1, true, false)
    else if inserted.value then (d1, true, true)
    else
      var (d2, promoted) := Promote(d1, row);
      (d2, promoted.Some?, promoted == Some(true))
  }

  /** Latest stop row per strategy and ticker, read when a tracker is rebuilt. */
  function LastStops(stops: seq<StopEvent>): map<(string, string), StopEvent> {
    if stops == [] then map[]
    else
      var before, ev := LastStops(stops[..|stops| - 1]), stops[|stops| - 1];
      var key := (ev.strategy, ev.ticker);
      if key in before && before[key].observedAt > ev.observedAt then before else before[key := ev]
  }

  // ---- the object ------------------------------------------------------------------------

  class JournalTables {
    var orders: map<Key, Row>
    var stops: seq<StopEvent>
    var cursor: Option<Cursor>
    var faults: seq<Fault>
    var dying: bool
    var offered: seq<Row>
    var unanswered: seq<Row>
    var missed: seq<StopEvent>

    function State(): Db
      reads this
    {
      Db(orders, stops, cursor, faults, dying, offered, unanswered, missed)
    }

    method TakeFault() returns (f: Fault)
      modifies this`faults
      ensures f == NextFault(old(State())) && State() == Used(old(State()))
    {
      f := if dying then NeverSent else Fine;
      if faults != [] {
        f := faults[0];
        faults := faults[1..];
      }
    }

    method InsertOrder(row: Row) returns (r: Option<bool>)
      modifies this
      ensures (State(), r) == Insert(old(State()), row)
    {
      var f := TakeFault();
      if f != Fine {
        unanswered := unanswered + [row];
      }
      if f != NeverSent {
        offered := offered + [row];
      }
      var free := row.key !in orders;
      if !NoEffect(f) && free {
        orders := orders[row.key := row];
      }
      r := Reply(f, free);
    }

    method PromoteOrder(row: Row) returns (r: Option<bool>)
      modifies this
      ensures (State(), r) == Promote(old(State()), row)
    {
      var f := TakeFault();
      if f != Fine {
        unanswered := unanswered + [row];
      }
      var hit := row.key in orders && IsEmpty(orders[row.key].source);
      if !NoEffect(f) && hit {
        orders := orders[row.key := PromotedRow(orders[row.key], row)];
      }
      r := Reply(f, hit);
    }

    method FillOrderDivision(key: Key, division: string)
      modifies this
      ensures State() == Fill(old(State()), key, division)
    {
      var f := TakeFault();
      if !NoEffect(f) && key in orders && Division !in orders[key].cells {
        orders := orders[key := orders[key].(cells := orders[key].cells[Division := Text(division)])];
      }
    }

    method InsertStop(ev: StopEvent)
      modifies this
      ensures State() == AddStop(old(State()), ev)
    {
      var f := TakeFault();
      if f == NotApplied {
        missed := missed + [ev];
      } else if f != NeverSent {
        stops := stops + [ev];
      }
    }

    method Save(c: Cursor) returns (ok: bool)
      modifies this
      ensures (State(), ok) == SaveCursor(old(State()), c)
    {
      var f := TakeFault();
      if !NoEffect(f) {
        cursor := Some(c);
      }
      ok := f == Fine;
    }
  }

  // ---- the order table only gains information ---------------------------------------------

  /** Each row stands under its own key. */
  ghost predicate Keyed(orders: map<Key, Row>) {
    forall k :: k in orders ==> orders[k].key == k
  }

  predicate Measured(orders: map<Key, Row>, k: Key) {
    k in orders && !IsEmpty(orders[k].source)
  }

  /** What was known stays: identity, non-NULL columns, a known strategy, a measured source. */
  ghost predicate RowGains(a: Row, b: Row) {
    && a.key == b.key && a.ticker == b.ticker && a.notedAt == b.notedAt
    && (a.strategy != UNKNOWN ==> b.strategy == a.strategy)
    && (!IsEmpty(a.source) ==> b.source == a.source)
    && (forall f :: f in a.cells ==> f in b.cells && b.cells[f] == a.cells[f])
  }

  ghost predicate Gains(a: map<Key, Row>, b: map<Key, Row>) {
    forall k :: k in a ==> k in b && RowGains(a[k], b[k])
  }

  datatype Op =
    | Write(row: Row)
    | FillDivision(key: Key, division: string)
    | Stop(ev: StopEvent)
    | SaveAt(cursor: Cursor)

  function Apply(d: Db, op: Op): Db {
    match op
    case Write(row) => WriteRow(d, row).0
    case FillDivision(key, division) => Fill(d, key, division)
    case Stop(ev) => AddStop(d, ev)
    case SaveAt(c) => SaveCursor(d, c).0
  }

  function ApplyAll(d: Db, ops: seq<Op>): Db {
    if ops == [] then d else Apply(ApplyAll(d, ops[..|ops| - 1]), ops[|ops| - 1])
  }

  lemma GainsTransitive(a: map<Key, Row>, b: map<Key, Row>, c: map<Key, Row>)
    requires Gains(a, b) && Gains(b, c)
    ensures Gains(a, c)
  {
    forall k | k in a ensures k in c && RowGains(a[k], c[k]) {
      assert k in b && RowGains(a[k], b[k]) && RowGains(b[k], c[k]);
    }
  }

  lemma InsertGains(orders: map<Key, Row>, row: Row)
    requires Keyed(orders)
    ensures Keyed(Inserted(orders, row)) && Gains(orders, Inserted(orders, row))
  {
  }

  /** Promotion keeps every known column, fills every NULL the log row knows, and measures the row. */
  lemma PromotionFillsGaps(orders: map<Key, Row>, row: Row)
    requires Keyed(orders)
    ensures var after := Promoted(orders, row);
            && Keyed(after) && Gains(orders, after) && after.Keys == orders.Keys
            && (Promotable(orders, row.key) ==>
                  && after[row.key].source == row.source
                  && (orders[row.key].strategy == UNKNOWN ==> after[row.key].strategy == row.strategy)
                  && forall f :: f in after[row.key].cells <==> f in orders[row.key].cells || f in row.cells)
            && (forall k :: k in orders && (k != row.key || !Promotable(orders, k)) ==> after[k] == orders[k])
  {
  }

  lemma FillGains(orders: map<Key, Row>, key: Key, division: string)
    requires Keyed(orders)
    ensures Keyed(Filled(orders, key, division)) && Gains(orders, Filled(orders, key, division))
  {
  }

  lemma WriteGains(d: Db, row: Row)
    requires Keyed(d.orders)
    ensures Keyed(WriteRow(d, row).0.orders) && Gains(d.orders, WriteRow(d, row).0.orders)
  {
    var d1 := Insert(d, row).0;
    InsertGains(d.orders, row);
    PromotionFillsGaps(d1.orders, row);
    GainsTransitive(d.orders, d1.orders, Promoted(d1.orders, row));
  }

  lemma ApplyGains(d: Db, op: Op)
    requires Keyed(d.orders)
    ensures Keyed(Apply(d, op).orders) && Gains(d.orders, Apply(d, op).orders)
  {
    match op
    case Write(row) => WriteGains(d, row);
    case FillDivision(key, division) => FillGains(d.orders, key, division);
    case Stop(_) =>
    case SaveAt(_) =>
  }

  /** Under any sequence of statements, with errors anywhere, the table keeps one row per key and never
      forgets or changes what it knew. */
  lemma {:induction false} TableOnlyGains(d: Db, ops: seq<Op>)
    requires Keyed(d.orders)
    ensures Keyed(ApplyAll(d, ops).orders) && Gains(d.orders, ApplyAll(d, ops).orders)
  {
    if ops != [] {
      var before := ApplyAll(d, ops[..|ops| - 1]);
      TableOnlyGains(d, ops[..|ops| - 1]);
      ApplyGains(before, ops[|ops| - 1]);
    }
  }

  /** A fresh write turns a key that was not measured into a measured one. */
  lemma FreshMeansNewlyMeasured(d: Db, row: Row)
    requires Keyed(d.orders) && WriteRow(d, row).2
    ensures !Measured(d.orders, row.key) && Measured(WriteRow(d, row).0.orders, row.key)
  {
  }

  /** How often the sequence wrote `k` freshly. */
  function FreshCount(d: Db, ops: seq<Op>, k: Key): nat {
    if ops == [] then 0
    else
      var op := ops[|ops| - 1];
      FreshCount(d, ops[..|ops| - 1], k)
      + (if op.Write? && op.row.key == k && WriteRow(ApplyAll(d, ops[..|ops| - 1]), op.row).2 then 1 else 0)
  }

  /** Over any history a row is fresh at most once, and only if its key was not measured before. */
  lemma {:induction false} FreshAtMostOnce(d: Db, ops: seq<Op>, k: Key)
    requires Keyed(d.orders)
    ensures FreshCount(d, ops, k) <= 1
    ensures FreshCount(d, ops, k) == 1 ==> !Measured(d.orders, k) && Measured(ApplyAll(d, ops).orders, k)
  {
    if ops != [] {
      var pre, op := ops[..|ops| - 1], ops[|ops| - 1];
      FreshAtMostOnce(d, pre, k);
      TableOnlyGains(d, pre);
      ApplyGains(ApplyAll(d, pre), op);
      if op.Write? && op.row.key == k && WriteRow(ApplyAll(d, pre), op.row).2 {
        FreshMeansNewlyMeasured(ApplyAll(d, pre), op.row);
      }
    }
  }
}
