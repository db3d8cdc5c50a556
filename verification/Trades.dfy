/** The simulated trades of the ETF study and the correlation clusters between their tickers. */
module Trades {
  import opened Basics

  /** One trade. `id` stands for the object's identity; days are calendar indices, `j` and `k` the
      bar numbers of its signal and exit. */
  datatype Trade = Trade(
    id: int, ticker: string, sigCi: int, entryCi: int, exitCi: int, tv20: real, lot75: int,
    j: int, k: int, e: real, exitPx: real, rw: real, cost: real, f: real, m: real)

  const SLOTS := 4
  const CORR_TH := 0.9
  const REP_MIN_LOT := 3
  const RISK_PCT := 0.01

  /** Correlations over a trailing window; `None` when there is not enough data. */
  datatype Corr = Corr(raw: (string, string, int) -> Option<real>) {
    function At(a: string, b: string, ci: int): Option<real> {
      if a == b then Some(1.0) else raw(a, b, ci)
    }

    predicate SameCluster(a: string, b: string, ci: int) {
      At(a, b, ci).Some? && At(a, b, ci).value > CORR_TH
    }

    /** `c` is in the cluster of one of the trades in `pool`, seen from its own signal day. */
    predicate Clash(c: Trade, pool: seq<Trade>) {
      exists h :: h in pool && SameCluster(c.ticker, h.ticker, c.sigCi)
    }
  }

  /** Trades not yet closed before `day`, in order. */
  function HeldOn(acc: seq<Trade>, day: int): seq<Trade> {
    if acc == [] then []
    else
      var h := acc[|acc| - 1];
      HeldOn(acc[..|acc| - 1], day) + (if h.exitCi >= day then [h] else [])
  }

  lemma {:induction false} HeldMembers(acc: seq<Trade>, day: int)
    ensures forall h :: h in HeldOn(acc, day) <==> h in acc && h.exitCi >= day
  {
    if acc != [] {
      assert acc == acc[..|acc| - 1] + [acc[|acc| - 1]];
      HeldMembers(acc[..|acc| - 1], day);
    }
  }

  lemma HeldOnLast(acc: seq<Trade>, h: Trade, day: int)
    ensures HeldOn(acc + [h], day) == HeldOn(acc, day) + (if h.exitCi >= day then [h] else [])
  {
    assert (acc + [h])[..|acc|] == acc;
  }

  /** Dropping closed trades day by day gives the same list as filtering all of them at once. */
  lemma {:induction false} PruningIsFiltering(acc: seq<Trade>, day: int, day': int)
    requires day <= day'
    ensures HeldOn(HeldOn(acc, day), day') == HeldOn(acc, day')
  {
    if acc != [] {
      var h := acc[|acc| - 1];
      var rest := HeldOn(acc[..|acc| - 1], day);
      PruningIsFiltering(acc[..|acc| - 1], day, day');
      if h.exitCi >= day { HeldOnLast(rest, h, day'); } else { assert rest + [] == rest; }
    }
  }

  lemma {:induction false} HeldOnConcat(a: seq<Trade>, b: seq<Trade>, day: int)
    ensures HeldOn(a + b, day) == HeldOn(a, day) + HeldOn(b, day)
  {
    if b == [] {
      assert a + b == a;
    } else {
      HeldOnConcat(a, b[..|b| - 1], day);
      assert (a + b)[..|a + b| - 1] == a + b[..|b| - 1];
    }
  }

  /** Larger turnover first. */
  function ByTurnover(): (Trade, Trade) -> bool { (a: Trade, b: Trade) => a.tv20 >= b.tv20 }

  /** Trades entered on `day`, in input order. */
  function EnteredOn(ts: seq<Trade>, day: int): seq<Trade> {
    if ts == [] then []
    else
      var t := ts[|ts| - 1];
      EnteredOn(ts[..|ts| - 1], day) + (if t.entryCi == day then [t] else [])
  }

  lemma {:induction false} EnteredMembers(ts: seq<Trade>, day: int)
    ensures forall t :: t in EnteredOn(ts, day) <==> t in ts && t.entryCi == day
  {
    if ts != [] {
      assert ts == ts[..|ts| - 1] + [ts[|ts| - 1]];
      EnteredMembers(ts[..|ts| - 1], day);
    }
  }

  /** Put `d` in its place in an increasing list without repeating it. */
  function AddDay(days: seq<int>, d: int): seq<int> {
    if days == [] then [d]
    else
      var last := days[|days| - 1];
      if d > last then days + [d]
      else if d == last then days
      else AddDay(days[..|days| - 1], d) + [last]
  }

  ghost predicate Increasing(days: seq<int>) {
    forall i, j :: 0 <= i < j < |days| ==> days[i] < days[j]
  }

  /** The distinct entry days, in increasing order. */
  function Days(ts: seq<Trade>): seq<int> {
    if ts == [] then [] else AddDay(Days(ts[..|ts| - 1]), ts[|ts| - 1].entryCi)
  }

  lemma {:induction false} AddDayIncreases(days: seq<int>, d: int)
    requires Increasing(days)
    ensures Increasing(AddDay(days, d)) && AddDay(days, d) != []
    ensures AddDay(days, d)[|AddDay(days, d)| - 1] == (if days == [] then d else MaxI(d, days[|days| - 1]))
  {
    if days != [] { AddDayIncreases(days[..|days| - 1], d); }
  }

  lemma {:induction false} AddDayMembers(days: seq<int>, d: int)
    ensures forall x :: x in AddDay(days, d) <==> x in days || x == d
  {
    if days != [] {
      AddDayMembers(days[..|days| - 1], d);
      assert days == days[..|days| - 1] + [days[|days| - 1]];
    }
  }

  lemma {:induction false} DaysIncrease(ts: seq<Trade>)
    ensures Increasing(Days(ts))
  {
    if ts != [] {
      DaysIncrease(ts[..|ts| - 1]);
      AddDayIncreases(Days(ts[..|ts| - 1]), ts[|ts| - 1].entryCi);
    }
  }

  lemma {:induction false} EntryDayListed(ts: seq<Trade>, t: Trade)
    requires t in ts
    ensures t.entryCi in Days(ts)
  {
    var last := ts[|ts| - 1];
    assert ts == ts[..|ts| - 1] + [last];
    AddDayMembers(Days(ts[..|ts| - 1]), last.entryCi);
    if t in ts[..|ts| - 1] { EntryDayListed(ts[..|ts| - 1], t); }
  }

  lemma EntryDayAt(ts: seq<Trade>, t: Trade) returns (m: nat)
    requires t in ts
    ensures m < |Days(ts)| && Days(ts)[m] == t.entryCi
  {
    EntryDayListed(ts, t);
    m :| 0 <= m < |Days(ts)| && Days(ts)[m] == t.entryCi;
  }
}
