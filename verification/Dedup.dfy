/** One trade per correlation cluster: candidates are taken day by day, larger turnover first, unless
    a trade still held is in their cluster. */
module Dedup {
  import opened Basics
  import opened Ordering
  import opened Trades

  /** `rep` replaces a candidate too small to trade by a larger one of its cluster. `holds` counts a
      trade as held on the day it closes. */
  datatype Mode = Mode(rep: bool, holds: bool)

  /** Candidates of a day: larger turnover first, input order on ties. */
  function Candidates(ts: seq<Trade>, day: int): seq<Trade> {
    Sort(ByTurnover(), EnteredOn(ts, day))
  }

  /** Trades that block a new entry on `day`, among those accepted on earlier days. */
  function Blockers(mode: Mode, acc: seq<Trade>, day: int): seq<Trade> {
    HeldOn(acc, if mode.holds then day else day + 1)
  }

  /** Tickers that may not be bought back because they close on `day`. */
  function SoldToday(mode: Mode, acc: seq<Trade>, day: int): set<string> {
    if mode.holds then {} else set h | h in acc && h.exitCi == day :: h.ticker
  }

  /** First later candidate, in `c`'s cluster and free of conflicts, that is large enough. */
  function FindRep(corr: Corr, c: Trade, cands: seq<Trade>, i: nat, pool: seq<Trade>, skip: set<Trade>): Option<Trade>
    decreases |cands| - i
  {
    if i >= |cands| then None
    else
      var d := cands[i];
      if d !in skip && d.lot75 >= REP_MIN_LOT && corr.SameCluster(c.ticker, d.ticker, c.sigCi) && !corr.Clash(d, pool)
      then Some(d)
      else FindRep(corr, c, cands, i + 1, pool, skip)
  }

  datatype Day = Day(taken: seq<Trade>, skip: set<Trade>)

  predicate Refused(corr: Corr, c: Trade, blockers: seq<Trade>, sold: set<string>, day: Day) {
    c in day.skip || c.ticker in sold || corr.Clash(c, blockers + day.taken)
  }

  /** What candidate `i` does to the day's picks. */
  function Consider(corr: Corr, mode: Mode, cands: seq<Trade>, i: nat, blockers: seq<Trade>, sold: set<string>,
                    day: Day): Day
    requires i < |cands|
  {
    var c := cands[i];
    if Refused(corr, c, blockers, sold, day) then day
    else
      var alt := if mode.rep && c.lot75 < REP_MIN_LOT
                 then FindRep(corr, c, cands, i + 1, blockers + day.taken, day.skip) else None;
      if alt.Some? then Day(day.taken + [alt.value], day.skip + {alt.value}) else day.(taken := day.taken + [c])
  }

  function DayRun(corr: Corr, mode: Mode, cands: seq<Trade>, n: nat, blockers: seq<Trade>, sold: set<string>): Day
    requires n <= |cands|
  {
    if n == 0 then Day([], {})
    else Consider(corr, mode, cands, n - 1, blockers, sold, DayRun(corr, mode, cands, n - 1, blockers, sold))
  }

  function TakenOn(corr: Corr, mode: Mode, ts: seq<Trade>, acc: seq<Trade>, day: int): seq<Trade> {
    var cands := Candidates(ts, day);
    DayRun(corr, mode, cands, |cands|, Blockers(mode, acc, day), SoldToday(mode, acc, day)).taken
  }

  function Upto(corr: Corr, mode: Mode, ts: seq<Trade>, days: seq<int>, n: nat): seq<Trade>
    requires n <= |days|
  {
    if n == 0 then []
    else
      var acc := Upto(corr, mode, ts, days, n - 1);
      acc + TakenOn(corr, mode, ts, acc, days[n - 1])
  }

  function Accepted(corr: Corr, mode: Mode, ts: seq<Trade>): seq<Trade> {
    Upto(corr, mode, ts, Days(ts), |Days(ts)|)
  }

  /** The trades taken on a day in place of one too small to trade. */
  function SubstitutesOn(corr: Corr, mode: Mode, ts: seq<Trade>, acc: seq<Trade>, day: int): set<Trade> {
    var cands := Candidates(ts, day);
    DayRun(corr, mode, cands, |cands|, Blockers(mode, acc, day), SoldToday(mode, acc, day)).skip
  }

  /** How many there were on day `k` of the run. */
  function SubsOnDay(corr: Corr, mode: Mode, ts: seq<Trade>, days: seq<int>, k: nat): nat
    requires k < |days|
  {
    |SubstitutesOn(corr, mode, ts, Upto(corr, mode, ts, days, k), days[k])|
  }

  function SubsUpto(corr: Corr, mode: Mode, ts: seq<Trade>, days: seq<int>, n: nat): nat
    requires n <= |days|
  {
    if n == 0 then 0 else SubsUpto(corr, mode, ts, days, n - 1) + SubsOnDay(corr, mode, ts, days, n - 1)
  }

  function Total(counts: seq<nat>): nat {
    if counts == [] then 0 else Total(counts[..|counts| - 1]) + counts[|counts| - 1]
  }

  /** The counts of the first days. */
  ghost predicate DayByDay(corr: Corr, mode: Mode, ts: seq<Trade>, days: seq<int>, counts: seq<nat>) {
    |counts| <= |days| && forall k :: 0 <= k < |counts| ==> counts[k] == SubsOnDay(corr, mode, ts, days, k)
  }

  lemma {:induction false} TotalIsSubs(corr: Corr, mode: Mode, ts: seq<Trade>, days: seq<int>, counts: seq<nat>)
    requires DayByDay(corr, mode, ts, days, counts)
    ensures Total(counts) == SubsUpto(corr, mode, ts, days, |counts|)
  {
    if counts != [] {
      var n := |counts| - 1;
      TotalIsSubs(corr, mode, ts, days, counts[..n]);
      SubsNext(corr, mode, ts, days, n, SubsUpto(corr, mode, ts, days, n), counts[n]);
    }
  }

  lemma SubsNext(corr: Corr, mode: Mode, ts: seq<Trade>, days: seq<int>, n: nat, before: nat, more: nat)
    requires n < |days| && before == SubsUpto(corr, mode, ts, days, n) && more == SubsOnDay(corr, mode, ts, days, n)
    ensures SubsUpto(corr, mode, ts, days, n + 1) == before + more
  {
  }

  lemma TotalSnoc(counts: seq<nat>, x: nat)
    ensures Total(counts + [x]) == Total(counts) + x
  {
    assert (counts + [x])[..|counts|] == counts;
  }

  // ---- the loops -------------------------------------------------------------------------

  method Substitute(corr: Corr, c: Trade, cands: seq<Trade>, i: nat, pool: seq<Trade>, skip: set<Trade>)
    returns (alt: Option<Trade>)
    requires i <= |cands|
    ensures alt == FindRep(corr, c, cands, i, pool, skip)
  {
    for x := i to |cands|
      invariant FindRep(corr, c, cands, x, pool, skip) == FindRep(corr, c, cands, i, pool, skip)
    {
      var d := cands[x];
      if d in skip || d.lot75 < REP_MIN_LOT {
        continue;
      }
      if !corr.SameCluster(c.ticker, d.ticker, c.sigCi) {
        continue;
      }
      if corr.Clash(d, pool) {
        continue;
      }
      return Some(d);
    }
    return None;
  }

  lemma {:induction false} FindRepIsNew(corr: Corr, c: Trade, cands: seq<Trade>, i: nat, pool: seq<Trade>,
                                        skip: set<Trade>)
    ensures var alt := FindRep(corr, c, cands, i, pool, skip);
            alt.Some? ==> alt.value !in skip && alt.value.lot75 >= REP_MIN_LOT && alt.value in cands
    decreases |cands| - i
  {
    if i < |cands| { FindRepIsNew(corr, c, cands, i + 1, pool, skip); }
  }

  method TakeDay(corr: Corr, mode: Mode, cands: seq<Trade>, heldC: seq<Trade>, sold: set<string>)
    returns (taken: seq<Trade>, subs: nat)
    ensures taken == DayRun(corr, mode, cands, |cands|, heldC, sold).taken
    ensures subs == |DayRun(corr, mode, cands, |cands|, heldC, sold).skip|
  {
    var skip: set<Trade> := {};
    taken, subs := [], 0;
    for i := 0 to |cands|
      invariant Day(taken, skip) == DayRun(corr, mode, cands, i, heldC, sold) && subs == |skip|
    {
      var c := cands[i];
      if c in skip {
        continue;
      }
      if c.ticker in sold {
        continue;
      }
      var pool := heldC + taken;
      if corr.Clash(c, pool) {
        continue;
      }
      var pick := c;
      if mode.rep && c.lot75 < REP_MIN_LOT {
        var alt := Substitute(corr, c, cands, i + 1, pool, skip);
        if alt.Some? {
          FindRepIsNew(corr, c, cands, i + 1, pool, skip);
          pick := alt.value;
          skip := skip + {pick};
          subs := subs + 1;
        }
      }
      taken := taken + [pick];
    }
  }

  /** Opening a day drops the closed trades and finds what blocks new entries. */
  method OpenDay(mode: Mode, held: seq<Trade>, ghost out: seq<Trade>, day: int)
    returns (open: seq<Trade>, heldC: seq<Trade>, sold: set<string>)
    requires HeldOn(held, day) == HeldOn(out, day)
    ensures open == HeldOn(out, day)
    ensures heldC == Blockers(mode, out, day) && sold == SoldToday(mode, out, day)
  {
    open := HeldOn(held, day);
    sold := if mode.holds then {} else set h | h in open && h.exitCi == day :: h.ticker;
    heldC := if mode.holds then open else HeldOn(open, day + 1);
    HeldMembers(out, day);
    PruningIsFiltering(out, day, day + 1);
  }

  /** On `day` the pruned list of held trades is the filter of everything accepted. */
  ghost predicate PrunedFrom(held: seq<Trade>, out: seq<Trade>, day: int) {
    HeldOn(held, day) == HeldOn(out, day)
  }

  /** And so it is on every later day. */
  lemma PrunedLater(held: seq<Trade>, out: seq<Trade>, day: int, later: int)
    requires PrunedFrom(held, out, day) && day <= later
    ensures PrunedFrom(held, out, later)
  {
    PruningIsFiltering(held, day, later);
    PruningIsFiltering(out, day, later);
  }

  method OneDay(ts: seq<Trade>, corr: Corr, mode: Mode, day: int, held: seq<Trade>, out: seq<Trade>)
    returns (held': seq<Trade>, taken: seq<Trade>, subs: nat)
    requires PrunedFrom(held, out, day)
    ensures taken == TakenOn(corr, mode, ts, out, day)
    ensures PrunedFrom(held', out + taken, day)
    ensures subs == |SubstitutesOn(corr, mode, ts, out, day)|
  {
    var open, heldC, sold := OpenDay(mode, held, out, day);
    taken, subs := TakeDay(corr, mode, Candidates(ts, day), heldC, sold);
    held' := open + taken;
    PruningIsFiltering(out, day, day);
    HeldOnConcat(open, taken, day);
    HeldOnConcat(out, taken, day);
  }

  /** After `n` days: what was accepted, and a pruned list that stands for it. */
  ghost predicate Advanced(corr: Corr, mode: Mode, ts: seq<Trade>, days: seq<int>, n: nat, held: seq<Trade>,
                           out: seq<Trade>)
    requires n <= |days|
  {
    && out == Upto(corr, mode, ts, days, n)
    && (n == 0 ==> held == out)
    && (n > 0 ==> PrunedFrom(held, out, days[n - 1]))
  }

  lemma PrunedByThen(corr: Corr, mode: Mode, ts: seq<Trade>, days: seq<int>, n: nat, held: seq<Trade>, out: seq<Trade>)
    requires Increasing(days) && n < |days| && Advanced(corr, mode, ts, days, n, held, out)
    ensures PrunedFrom(held, out, days[n])
  {
    if n > 0 { PrunedLater(held, out, days[n - 1], days[n]); }
  }

  method NextDay(ts: seq<Trade>, corr: Corr, mode: Mode, days: seq<int>, n: nat, held: seq<Trade>, out: seq<Trade>)
    returns (held': seq<Trade>, out': seq<Trade>, subs: nat)
    requires n < |days| && Increasing(days) && Advanced(corr, mode, ts, days, n, held, out)
    ensures Advanced(corr, mode, ts, days, n + 1, held', out') && subs == SubsOnDay(corr, mode, ts, days, n)
  {
    PrunedByThen(corr, mode, ts, days, n, held, out);
    UptoStep(corr, mode, ts, days, n);
    var taken;
    held', taken, subs := OneDay(ts, corr, mode, days[n], held, out);
    out' := out + taken;
  }

  method RunDays(ts: seq<Trade>, corr: Corr, mode: Mode, days: seq<int>) returns (out: seq<Trade>, subs: nat)
    requires Increasing(days)
    ensures out == Upto(corr, mode, ts, days, |days|)
    ensures subs == SubsUpto(corr, mode, ts, days, |days|)
  {
    var held: seq<Trade> := [];
    ghost var counts: seq<nat> := [];
    out, subs := [], 0;
    for n := 0 to |days|
      invariant Advanced(corr, mode, ts, days, n, held, out)
      invariant |counts| == n && DayByDay(corr, mode, ts, days, counts) && subs == Total(counts)
    {
      var s;
      held, out, s := NextDay(ts, corr, mode, days, n, held, out);
      TotalSnoc(counts, s);
      counts := counts + [s];
      subs := subs + s;
    }
    TotalIsSubs(corr, mode, ts, days, counts);
  }

  method RunDedup(ts: seq<Trade>, corr: Corr, mode: Mode) returns (out: seq<Trade>, subs: nat)
    ensures out == Accepted(corr, mode, ts) && subs == SubsUpto(corr, mode, ts, Days(ts), |Days(ts)|)
  {
    DaysIncrease(ts);
    out, subs := RunDays(ts, corr, mode, Days(ts));
  }

  /** The substitutes of a day are taken trades, large enough to trade; without substitution there are
      none. */
  ghost predicate SubsTaken(mode: Mode, cands: seq<Trade>, day: Day) {
    && (forall d :: d in day.skip ==> d in day.taken && d in cands && d.lot75 >= REP_MIN_LOT)
    && |day.skip| <= |day.taken| && (!mode.rep ==> day.skip == {})
  }

  lemma ConsiderKeepsSubs(corr: Corr, mode: Mode, cands: seq<Trade>, i: nat, blockers: seq<Trade>, sold: set<string>,
                          day: Day)
    requires i < |cands| && SubsTaken(mode, cands, day)
    ensures SubsTaken(mode, cands, Consider(corr, mode, cands, i, blockers, sold, day))
  {
    FindRepIsNew(corr, cands[i], cands, i + 1, blockers + day.taken, day.skip);
    var day' := Consider(corr, mode, cands, i, blockers, sold, day);
    if day'.taken != day.taken {
      var pick := day'.taken[|day.taken|];
      assert day'.taken == day.taken + [pick];
      assert pick in day'.taken && forall d :: d in day.taken ==> d in day'.taken;
    }
  }

  lemma {:induction false} DaySubsTaken(corr: Corr, mode: Mode, cands: seq<Trade>, n: nat, blockers: seq<Trade>,
                                        sold: set<string>, r: Day)
    requires n <= |cands| && r == DayRun(corr, mode, cands, n, blockers, sold)
    ensures SubsTaken(mode, cands, r)
  {
    if n > 0 {
      var before := DayRun(corr, mode, cands, n - 1, blockers, sold);
      DaySubsTaken(corr, mode, cands, n - 1, blockers, sold, before);
      ConsiderKeepsSubs(corr, mode, cands, n - 1, blockers, sold, before);
    }
  }

  /** Every substitute counted is an accepted trade of its own day and large enough to trade. */
  lemma SubstitutesAreTaken(corr: Corr, mode: Mode, ts: seq<Trade>, acc: seq<Trade>, day: int)
    ensures var (subs, taken) := (SubstitutesOn(corr, mode, ts, acc, day), TakenOn(corr, mode, ts, acc, day));
            && (forall d :: d in subs ==> d in taken && d.lot75 >= REP_MIN_LOT)
            && |subs| <= |taken| && (!mode.rep ==> subs == {})
  {
    var cands := Candidates(ts, day);
    var (blockers, sold) := (Blockers(mode, acc, day), SoldToday(mode, acc, day));
    DaySubsTaken(corr, mode, cands, |cands|, blockers, sold, DayRun(corr, mode, cands, |cands|, blockers, sold));
  }

  lemma UptoStep(corr: Corr, mode: Mode, ts: seq<Trade>, days: seq<int>, n: nat)
    requires n < |days|
    ensures var acc := Upto(corr, mode, ts, days, n);
            Upto(corr, mode, ts, days, n + 1) == acc + TakenOn(corr, mode, ts, acc, days[n])
  {
  }

  // ---- conflict freedom ------------------------------------------------------------------

  /** `b`, entered no earlier than `a`, finds `a` held. */
  predicate Meets(mode: Mode, a: Trade, b: Trade) {
    a.entryCi == b.entryCi || (if mode.holds then a.exitCi >= b.entryCi else a.exitCi > b.entryCi)
  }

  ghost predicate ConflictFree(corr: Corr, mode: Mode, acc: seq<Trade>) {
    forall p, q :: 0 <= p < q < |acc| && Meets(mode, acc[p], acc[q]) ==>
      !corr.SameCluster(acc[q].ticker, acc[p].ticker, acc[q].sigCi)
  }

  ghost predicate EntriesAscend(acc: seq<Trade>) {
    forall p, q :: 0 <= p < q < |acc| ==> acc[p].entryCi <= acc[q].entryCi
  }

  /** A pick that clashes with no blocker and no earlier pick of the day keeps the list conflict-free. */
  lemma AddPick(corr: Corr, mode: Mode, acc: seq<Trade>, taken: seq<Trade>, pick: Trade, day: int)
    requires ConflictFree(corr, mode, acc + taken)
    requires forall h :: h in acc ==> h.entryCi < day
    requires !corr.Clash(pick, Blockers(mode, acc, day) + taken) && pick.entryCi == day
    ensures ConflictFree(corr, mode, acc + (taken + [pick]))
  {
    var all := acc + (taken + [pick]);
    HeldMembers(acc, if mode.holds then day else day + 1);
    forall p, q | 0 <= p < q < |all| && Meets(mode, all[p], all[q])
      ensures !corr.SameCluster(all[q].ticker, all[p].ticker, all[q].sigCi)
    {
      if q < |all| - 1 {
        assert all[p] == (acc + taken)[p] && all[q] == (acc + taken)[q];
      } else {
        assert all[q] == pick;
        assert p < |acc| ==> all[p] in acc;
        assert p >= |acc| ==> all[p] in taken;
        assert all[p] in Blockers(mode, acc, day) + taken;
      }
    }
  }

  lemma {:induction false} RepIsFree(corr: Corr, c: Trade, cands: seq<Trade>, i: nat, pool: seq<Trade>,
                                     skip: set<Trade>)
    requires FindRep(corr, c, cands, i, pool, skip).Some?
    ensures var d := FindRep(corr, c, cands, i, pool, skip).value;
            && d in cands[MinI(i, |cands|)..] && d !in skip && d.lot75 >= REP_MIN_LOT
            && corr.SameCluster(c.ticker, d.ticker, c.sigCi) && !corr.Clash(d, pool)
    decreases |cands| - i
  {
    if i < |cands| && FindRep(corr, c, cands, i, pool, skip) == FindRep(corr, c, cands, i + 1, pool, skip) {
      RepIsFree(corr, c, cands, i + 1, pool, skip);
      assert cands[i..] == [cands[i]] + cands[i + 1..];
    } else if i < |cands| {
      assert cands[i] in cands[i..];
    }
  }

  lemma {:induction false} DayIsFree(corr: Corr, mode: Mode, cands: seq<Trade>, n: nat, acc: seq<Trade>,
                                     sold: set<string>, day: int)
    requires n <= |cands| && forall c :: c in cands ==> c.entryCi == day
    requires ConflictFree(corr, mode, acc) && forall h :: h in acc ==> h.entryCi < day
    ensures var r := DayRun(corr, mode, cands, n, Blockers(mode, acc, day), sold);
            ConflictFree(corr, mode, acc + r.taken) && forall h :: h in r.taken ==> h.entryCi == day
  {
    if n == 0 {
      assert acc + [] == acc;
    } else {
      DayIsFree(corr, mode, cands, n - 1, acc, sold, day);
      ConsiderIsFree(corr, mode, cands, n - 1, acc, sold, day,
                     DayRun(corr, mode, cands, n - 1, Blockers(mode, acc, day), sold));
    }
  }

  lemma ConsiderIsFree(corr: Corr, mode: Mode, cands: seq<Trade>, i: nat, acc: seq<Trade>, sold: set<string>, day: int,
                       r: Day)
    requires i < |cands| && forall c :: c in cands ==> c.entryCi == day
    requires ConflictFree(corr, mode, acc + r.taken) && forall h :: h in acc ==> h.entryCi < day
    requires forall h :: h in r.taken ==> h.entryCi == day
    ensures var r' := Consider(corr, mode, cands, i, Blockers(mode, acc, day), sold, r);
            ConflictFree(corr, mode, acc + r'.taken) && forall h :: h in r'.taken ==> h.entryCi == day
  {
    var blockers, c := Blockers(mode, acc, day), cands[i];
    if !Refused(corr, c, blockers, sold, r) {
      var alt := FindRep(corr, c, cands, i + 1, blockers + r.taken, r.skip);
      if mode.rep && c.lot75 < REP_MIN_LOT && alt.Some? {
        RepIsFree(corr, c, cands, i + 1, blockers + r.taken, r.skip);
        assert alt.value in cands;
        AddPick(corr, mode, acc, r.taken, alt.value, day);
      } else {
        AddPick(corr, mode, acc, r.taken, c, day);
      }
    }
  }

  lemma CandidatesOf(ts: seq<Trade>, day: int)
    ensures forall c :: c in Candidates(ts, day) <==> c in ts && c.entryCi == day
  {
    EnteredMembers(ts, day);
    SortMembers(ByTurnover(), EnteredOn(ts, day));
  }

  lemma TakenIsFree(corr: Corr, mode: Mode, ts: seq<Trade>, acc: seq<Trade>, day: int)
    requires ConflictFree(corr, mode, acc) && forall h :: h in acc ==> h.entryCi < day
    ensures ConflictFree(corr, mode, acc + TakenOn(corr, mode, ts, acc, day))
    ensures forall h :: h in TakenOn(corr, mode, ts, acc, day) ==> h.entryCi == day
  {
    CandidatesOf(ts, day);
    var cands := Candidates(ts, day);
    DayIsFree(corr, mode, cands, |cands|, acc, SoldToday(mode, acc, day), day);
  }

  lemma AppendAscends(acc: seq<Trade>, taken: seq<Trade>, day: int)
    requires EntriesAscend(acc) && (forall h :: h in acc ==> h.entryCi < day)
             && (forall h :: h in taken ==> h.entryCi == day)
    ensures EntriesAscend(acc + taken) && forall h :: h in acc + taken ==> h.entryCi <= day
  {
    assert forall p :: 0 <= p < |acc| ==> acc[p] in acc;
    assert forall p :: 0 <= p < |taken| ==> taken[p] in taken;
  }

  lemma {:induction false} UptoIsFree(corr: Corr, mode: Mode, ts: seq<Trade>, days: seq<int>, n: nat)
    requires Increasing(days) && n <= |days|
    ensures ConflictFree(corr, mode, Upto(corr, mode, ts, days, n))
    ensures EntriesAscend(Upto(corr, mode, ts, days, n))
    ensures forall h :: h in Upto(corr, mode, ts, days, n) ==> n > 0 && h.entryCi <= days[n - 1]
  {
    if n > 0 {
      UptoIsFree(corr, mode, ts, days, n - 1);
      var acc, day := Upto(corr, mode, ts, days, n - 1), days[n - 1];
      if n > 1 { assert days[n - 2] < day; }
      TakenIsFree(corr, mode, ts, acc, day);
      AppendAscends(acc, TakenOn(corr, mode, ts, acc, day), day);
    }
  }

  lemma EnteredBefore(corr: Corr, mode: Mode, ts: seq<Trade>, days: seq<int>, n: nat)
    requires Increasing(days) && 0 < n <= |days|
    ensures forall h :: h in Upto(corr, mode, ts, days, n - 1) ==> h.entryCi < days[n - 1]
  {
    UptoIsFree(corr, mode, ts, days, n - 1);
    forall h | h in Upto(corr, mode, ts, days, n - 1) ensures h.entryCi < days[n - 1] {
      assert h.entryCi <= days[n - 2] < days[n - 1];
    }
  }

  /** No accepted trade is in the cluster of a trade held when it entered. */
  lemma AcceptedAreConflictFree(corr: Corr, mode: Mode, ts: seq<Trade>)
    ensures ConflictFree(corr, mode, Accepted(corr, mode, ts))
    ensures EntriesAscend(Accepted(corr, mode, ts))
  {
    DaysIncrease(ts);
    UptoIsFree(corr, mode, ts, Days(ts), |Days(ts)|);
  }

  // ---- maximality ------------------------------------------------------------------------

  /** `h` is a good reason to refuse `c`: accepted before it, held when it enters and in its cluster,
      or a position in the same ticker that closes that day. */
  predicate Excuses(corr: Corr, mode: Mode, h: Trade, c: Trade) {
    && (h.entryCi < c.entryCi || (h.entryCi == c.entryCi && h.tv20 >= c.tv20))
    && ((Meets(mode, h, c) && corr.SameCluster(c.ticker, h.ticker, c.sigCi))
        || (!mode.holds && h.exitCi == c.entryCi && h.ticker == c.ticker))
  }

  ghost predicate Excused(corr: Corr, mode: Mode, acc: seq<Trade>, c: Trade) {
    exists h :: h in acc && Excuses(corr, mode, h, c)
  }

  ghost predicate Settled(corr: Corr, mode: Mode, acc: seq<Trade>, t: Trade) {
    t in acc || Excused(corr, mode, acc, t)
  }

  lemma RefusalIsExcused(corr: Corr, mode: Mode, acc: seq<Trade>, taken: seq<Trade>, c: Trade, day: int)
    requires forall h :: h in acc ==> h.entryCi < day
    requires forall h :: h in taken ==> h.entryCi == day && h.tv20 >= c.tv20
    requires c.entryCi == day
    requires Refused(corr, c, Blockers(mode, acc, day), SoldToday(mode, acc, day), Day(taken, {}))
    ensures Excused(corr, mode, acc + taken, c)
  {
    HeldMembers(acc, if mode.holds then day else day + 1);
    if c.ticker in SoldToday(mode, acc, day) {
      var h :| h in acc && h.exitCi == day && h.ticker == c.ticker;
      assert h in acc + taken && Excuses(corr, mode, h, c);
    } else {
      var h :| h in Blockers(mode, acc, day) + taken && corr.SameCluster(c.ticker, h.ticker, c.sigCi);
      assert h in acc + taken && Excuses(corr, mode, h, c);
    }
  }

  /** The candidate is taken or excused. */
  ghost predicate DayDone(corr: Corr, mode: Mode, acc: seq<Trade>, taken: seq<Trade>, c: Trade) {
    c in taken || Excused(corr, mode, acc + taken, c)
  }

  lemma DoneStays(corr: Corr, mode: Mode, acc: seq<Trade>, taken: seq<Trade>, t: Trade, c: Trade)
    requires DayDone(corr, mode, acc, taken, c)
    ensures DayDone(corr, mode, acc, taken + [t], c)
  {
    if c !in taken {
      var h :| h in acc + taken && Excuses(corr, mode, h, c);
      assert h in acc + (taken + [t]);
    }
  }

  lemma LastIsExcused(corr: Corr, mode: Mode, cands: seq<Trade>, n: nat, acc: seq<Trade>, taken: seq<Trade>, day: int)
    requires 0 < n <= |cands| && Sorted(ByTurnover(), cands) && (forall h :: h in taken ==> h in cands[..n - 1])
    requires forall c :: c in cands ==> c.entryCi == day
    requires forall h :: h in acc ==> h.entryCi < day
    requires Refused(corr, cands[n - 1], Blockers(mode, acc, day), SoldToday(mode, acc, day), Day(taken, {}))
    ensures Excused(corr, mode, acc + taken, cands[n - 1])
  {
    forall h | h in taken ensures h.entryCi == day && h.tv20 >= cands[n - 1].tv20 {
      var i :| 0 <= i < n - 1 && cands[i] == h;
      assert ByTurnover()(cands[i], cands[n - 1]);
    }
    RefusalIsExcused(corr, mode, acc, taken, cands[n - 1], day);
  }

  /** The first candidates of a day are settled: taken, or excused by what was accepted or taken. */
  ghost predicate DayMaximal(corr: Corr, mode: Mode, cands: seq<Trade>, n: nat, acc: seq<Trade>, r: Day)
    requires n <= |cands|
  {
    && r.skip == {} && (forall h :: h in r.taken ==> h in cands[..n])
    && (forall i :: 0 <= i < n ==> DayDone(corr, mode, acc, r.taken, cands[i]))
  }

  ghost predicate DayInput(cands: seq<Trade>, acc: seq<Trade>, day: int) {
    && Sorted(ByTurnover(), cands) && (forall c :: c in cands ==> c.entryCi == day)
    && (forall h :: h in acc ==> h.entryCi < day)
  }

  lemma TakenStaysMaximal(corr: Corr, mode: Mode, cands: seq<Trade>, n: nat, acc: seq<Trade>, r: Day)
    requires 0 < n <= |cands| && DayMaximal(corr, mode, cands, n - 1, acc, r)
    ensures DayMaximal(corr, mode, cands, n, acc, r.(taken := r.taken + [cands[n - 1]]))
  {
    var c := cands[n - 1];
    assert cands[..n] == cands[..n - 1] + [c];
    forall i | 0 <= i < n ensures DayDone(corr, mode, acc, r.taken + [c], cands[i]) {
      if i < n - 1 { DoneStays(corr, mode, acc, r.taken, c, cands[i]); }
    }
  }

  lemma RefusedStaysMaximal(corr: Corr, mode: Mode, cands: seq<Trade>, n: nat, acc: seq<Trade>, r: Day, day: int)
    requires 0 < n <= |cands| && DayMaximal(corr, mode, cands, n - 1, acc, r) && DayInput(cands, acc, day)
    requires Refused(corr, cands[n - 1], Blockers(mode, acc, day), SoldToday(mode, acc, day), r)
    ensures DayMaximal(corr, mode, cands, n, acc, r)
  {
    assert cands[..n] == cands[..n - 1] + [cands[n - 1]] && r == Day(r.taken, {});
    LastIsExcused(corr, mode, cands, n, acc, r.taken, day);
    forall i | 0 <= i < n ensures DayDone(corr, mode, acc, r.taken, cands[i]) {
    }
  }

  lemma {:induction false} DayIsMaximal(corr: Corr, mode: Mode, cands: seq<Trade>, n: nat, acc: seq<Trade>, day: int)
    requires n <= |cands| && !mode.rep && DayInput(cands, acc, day)
    ensures DayMaximal(corr, mode, cands, n, acc,
                       DayRun(corr, mode, cands, n, Blockers(mode, acc, day), SoldToday(mode, acc, day)))
  {
    if n > 0 {
      DayIsMaximal(corr, mode, cands, n - 1, acc, day);
      var (blockers, sold) := (Blockers(mode, acc, day), SoldToday(mode, acc, day));
      var r := DayRun(corr, mode, cands, n - 1, blockers, sold);
      if Refused(corr, cands[n - 1], blockers, sold, r) {
        RefusedStaysMaximal(corr, mode, cands, n, acc, r, day);
      } else {
        TakenStaysMaximal(corr, mode, cands, n, acc, r);
      }
    }
  }

  lemma TurnoverOrder()
    ensures TotalPreorder(ByTurnover())
  {
  }

  /** With substitution off, every trade is accepted or has an excuse among the accepted ones. */
  lemma AcceptedAreMaximal(corr: Corr, mode: Mode, ts: seq<Trade>)
    requires !mode.rep
    ensures forall t :: t in ts ==> Settled(corr, mode, Accepted(corr, mode, ts), t)
  {
    forall t | t in ts ensures Settled(corr, mode, Accepted(corr, mode, ts), t) {
      var m := EntryDayAt(ts, t);
      DaysIncrease(ts);
      SettledToday(corr, mode, ts, Days(ts), m, t);
      SettledLater(corr, mode, ts, Days(ts), m + 1, |Days(ts)|, t);
    }
  }

  lemma TakenIsMaximal(corr: Corr, mode: Mode, ts: seq<Trade>, acc: seq<Trade>, day: int, t: Trade)
    requires !mode.rep && t in ts && t.entryCi == day && forall h :: h in acc ==> h.entryCi < day
    ensures Settled(corr, mode, acc + TakenOn(corr, mode, ts, acc, day), t)
  {
    CandidatesOf(ts, day);
    TurnoverOrder();
    SortSorts(ByTurnover(), EnteredOn(ts, day));
    var cands := Candidates(ts, day);
    DayIsMaximal(corr, mode, cands, |cands|, acc, day);
    var i :| 0 <= i < |cands| && cands[i] == t;
    assert DayDone(corr, mode, acc, TakenOn(corr, mode, ts, acc, day), cands[i]);
  }

  lemma ExcuseStays(corr: Corr, mode: Mode, acc: seq<Trade>, more: seq<Trade>, t: Trade)
    requires Settled(corr, mode, acc, t)
    ensures Settled(corr, mode, acc + more, t)
  {
    if t !in acc {
      var h :| h in acc && Excuses(corr, mode, h, t);
      assert h in acc + more;
    }
  }

  lemma {:induction false} StepByStep(holds: nat -> bool, m: nat, n: nat)
    requires m <= n && holds(m) && forall i: nat :: m <= i < n && holds(i) ==> holds(i + 1)
    ensures holds(n)
  {
    if m < n { StepByStep(holds, m, n - 1); }
  }

  lemma SettledNext(corr: Corr, mode: Mode, ts: seq<Trade>, days: seq<int>, n: nat, t: Trade)
    requires n < |days| && Settled(corr, mode, Upto(corr, mode, ts, days, n), t)
    ensures Settled(corr, mode, Upto(corr, mode, ts, days, n + 1), t)
  {
    var acc := Upto(corr, mode, ts, days, n);
    ExcuseStays(corr, mode, acc, TakenOn(corr, mode, ts, acc, days[n]), t);
  }

  /** Once settled, a trade stays so on later days. */
  lemma SettledLater(corr: Corr, mode: Mode, ts: seq<Trade>, days: seq<int>, m: nat, n: nat, t: Trade)
    requires m <= n <= |days| && Settled(corr, mode, Upto(corr, mode, ts, days, m), t)
    ensures Settled(corr, mode, Upto(corr, mode, ts, days, n), t)
  {
    var settled := (i: nat) => i <= |days| && Settled(corr, mode, Upto(corr, mode, ts, days, i), t);
    forall i: nat | m <= i < n && settled(i) ensures settled(i + 1) {
      SettledNext(corr, mode, ts, days, i, t);
    }
    StepByStep(settled, m, n);
  }

  lemma SettledToday(corr: Corr, mode: Mode, ts: seq<Trade>, days: seq<int>, m: nat, t: Trade)
    requires Increasing(days) && !mode.rep && m < |days| && t in ts && t.entryCi == days[m]
    ensures Settled(corr, mode, Upto(corr, mode, ts, days, m + 1), t)
  {
    EnteredBefore(corr, mode, ts, days, m + 1);
    TakenIsMaximal(corr, mode, ts, Upto(corr, mode, ts, days, m), days[m], t);
  }

  // ---- one position per ticker -----------------------------------------------------------

  /** No ticker is entered while an accepted trade in it is still open, closing day included. */
  ghost predicate TickersApart(acc: seq<Trade>) {
    forall p, q :: 0 <= p < q < |acc| && acc[p].exitCi >= acc[q].entryCi ==> acc[p].ticker != acc[q].ticker
  }

  lemma TickersStayApart(corr: Corr, mode: Mode, ts: seq<Trade>)
    requires mode.holds || !mode.rep
    ensures TickersApart(Accepted(corr, mode, ts))
  {
    AcceptedAreConflictFree(corr, mode, ts);
    if mode.holds {
      var acc := Accepted(corr, mode, ts);
      forall p, q | 0 <= p < q < |acc| && acc[p].exitCi >= acc[q].entryCi ensures acc[p].ticker != acc[q].ticker {
        assert Meets(mode, acc[p], acc[q]);
      }
    } else {
      DaysIncrease(ts);
      ApartUpto(corr, mode, ts, Days(ts), |Days(ts)|);
    }
  }

  lemma {:induction false} DayAvoidsSold(corr: Corr, mode: Mode, cands: seq<Trade>, n: nat, blockers: seq<Trade>,
                                         sold: set<string>)
    requires n <= |cands| && !mode.rep
    ensures forall h :: h in DayRun(corr, mode, cands, n, blockers, sold).taken ==> h.ticker !in sold
  {
    if n > 0 { DayAvoidsSold(corr, mode, cands, n - 1, blockers, sold); }
  }

  lemma {:induction false} ApartUpto(corr: Corr, mode: Mode, ts: seq<Trade>, days: seq<int>, n: nat)
    requires Increasing(days) && !mode.holds && !mode.rep && n <= |days|
    ensures TickersApart(Upto(corr, mode, ts, days, n))
  {
    if n > 0 {
      ApartUpto(corr, mode, ts, days, n - 1);
      UptoIsFree(corr, mode, ts, days, n - 1);
      UptoIsFree(corr, mode, ts, days, n);
      var acc, day := Upto(corr, mode, ts, days, n - 1), days[n - 1];
      if n > 1 { assert days[n - 2] < day; }
      TakenIsFree(corr, mode, ts, acc, day);
      var cands := Candidates(ts, day);
      DayAvoidsSold(corr, mode, cands, |cands|, Blockers(mode, acc, day), SoldToday(mode, acc, day));
      ApartStep(corr, mode, acc, TakenOn(corr, mode, ts, acc, day), day);
    }
  }

  lemma ApartStep(corr: Corr, mode: Mode, acc: seq<Trade>, taken: seq<Trade>, day: int)
    requires !mode.holds && TickersApart(acc) && ConflictFree(corr, mode, acc + taken)
    requires forall h :: h in acc ==> h.entryCi < day
    requires forall h :: h in taken ==> h.entryCi == day && h.ticker !in SoldToday(mode, acc, day)
    ensures TickersApart(acc + taken)
  {
    var all := acc + taken;
    forall p, q | 0 <= p < q < |all| && all[p].exitCi >= all[q].entryCi ensures all[p].ticker != all[q].ticker {
      if q < |acc| {
        assert acc[p].exitCi >= acc[q].entryCi;
      } else {
        assert all[q] in taken;
        if p < |acc| && all[p].exitCi == day {
          assert all[p] in acc && all[p].ticker in SoldToday(mode, acc, day);
        } else {
          assert p >= |acc| ==> all[p] in taken;
          assert Meets(mode, all[p], all[q]);
        }
      }
    }
  }

  /** Whether a mode ever buys a ticker back on the day it was sold, over all inputs. */
  ghost predicate NeverRebuys(mode: Mode) {
    forall corr: Corr, ts: seq<Trade> :: TickersApart(Accepted(corr, mode, ts))
  }

  /** The same-day block holds exactly when closing days count or substitution is off: a substitute is
      checked against the trades still held but not against the tickers sold that day. */
  lemma NeverRebuysIff(mode: Mode)
    ensures NeverRebuys(mode) <==> mode.holds || !mode.rep
  {
    if mode.holds || !mode.rep {
      forall corr: Corr, ts: seq<Trade> ensures TickersApart(Accepted(corr, mode, ts)) {
        TickersStayApart(corr, mode, ts);
      }
    } else {
      SubstituteRebuys();
    }
  }

  function Sample(id: int, ticker: string, entry: int, exit: int, tv20: real, lot: int): Trade {
    Trade(id, ticker, entry - 1, entry, exit, tv20, lot, 0, 1, 1.0, 1.0, 1.0, 0.0, 1.0, 1.0)
  }

  /** A trade in X closes on day 5. That day Y, too small to trade, is replaced by X again. */
  lemma SubstituteRebuys()
    ensures !NeverRebuys(Mode(true, false))
  {
    var corr := Corr((a, b, ci) => Some(1.0));
    var mode := Mode(true, false);
    var (x, y, z) := (Sample(0, "X", 1, 5, 3.0, 9), Sample(1, "Y", 5, 9, 2.0, 0), Sample(2, "X", 5, 9, 1.0, 9));
    var ts := [x, y, z];
    SampleDays(x, y, z);
    SampleCandidates(x, y, z);
    FirstDay(corr, x);
    var days := [1, 5];
    assert Upto(corr, mode, ts, days, 0) == [];
    UptoStep(corr, mode, ts, days, 0);
    assert [] + [x] == [x];
    SecondDay(corr, x, y, z);
    UptoStep(corr, mode, ts, days, 1);
    var acc := Accepted(corr, mode, ts);
    assert acc == [x] + [z];
    assert acc[0].exitCi >= acc[1].entryCi && acc[0].ticker == acc[1].ticker;
  }

  lemma EnteredLast(ts: seq<Trade>, t: Trade, day: int)
    ensures EnteredOn(ts + [t], day) == EnteredOn(ts, day) + (if t.entryCi == day then [t] else [])
  {
    assert (ts + [t])[..|ts|] == ts;
  }

  lemma SampleDays(x: Trade, y: Trade, z: Trade)
    requires x.entryCi == 1 && y.entryCi == 5 && z.entryCi == 5
    ensures Days([x, y, z]) == [1, 5]
  {
    var ts := [x, y, z];
    assert ts[..2] == [x, y] && [x, y][..1] == [x] && [x][..0] == [];
    assert Days([x]) == [1];
    assert Days([x, y]) == AddDay([1], 5) == [1] + [5];
    assert Days(ts) == AddDay([1, 5], 5);
  }

  lemma SampleCandidates(x: Trade, y: Trade, z: Trade)
    requires x.entryCi == 1 && y.entryCi == 5 && z.entryCi == 5 && y.tv20 >= z.tv20
    ensures Candidates([x, y, z], 1) == [x] && Candidates([x, y, z], 5) == [y, z]
  {
    SampleEntries(x, y, z);
    assert [x][..0] == [];
    assert [y, z][..1] == [y] && [y][..0] == [];
    assert Sort(ByTurnover(), [x]) == [x];
    assert Sort(ByTurnover(), [y]) == [y];
    assert Sort(ByTurnover(), [y, z]) == Insert(ByTurnover(), [y], z) == [y] + [z];
  }

  lemma SampleEntries(x: Trade, y: Trade, z: Trade)
    requires x.entryCi == 1 && y.entryCi == 5 && z.entryCi == 5
    ensures EnteredOn([x, y, z], 1) == [x] && EnteredOn([x, y, z], 5) == [y, z]
  {
    assert [] + [x] == [x] && [x] + [y] == [x, y] && [x, y] + [z] == [x, y, z];
    EnteredLast([], x, 1);
    EnteredLast([x], y, 1);
    EnteredLast([x, y], z, 1);
    EnteredLast([], x, 5);
    EnteredLast([x], y, 5);
    EnteredLast([x, y], z, 5);
  }

  lemma FirstDay(corr: Corr, x: Trade)
    requires x.lot75 >= REP_MIN_LOT
    ensures DayRun(corr, Mode(true, false), [x], 1, Blockers(Mode(true, false), [], 1),
                   SoldToday(Mode(true, false), [], 1)).taken == [x]
  {
  }

  lemma SecondDay(corr: Corr, x: Trade, y: Trade, z: Trade)
    requires x.exitCi == 5 && y.lot75 < REP_MIN_LOT <= z.lot75
    requires y.ticker != x.ticker == z.ticker && corr.SameCluster(y.ticker, z.ticker, y.sigCi)
    ensures DayRun(corr, Mode(true, false), [y, z], 2, Blockers(Mode(true, false), [x], 5),
                   SoldToday(Mode(true, false), [x], 5)).taken == [z]
  {
    var mode := Mode(true, false);
    var (blockers, sold, cands) := (Blockers(mode, [x], 5), SoldToday(mode, [x], 5), [y, z]);
    assert [x][..0] == [] && blockers == HeldOn([], 6) + [] == [];
    assert y.ticker !in sold;
    var d0 := DayRun(corr, mode, cands, 0, blockers, sold);
    assert d0 == Day([], {}) && !Refused(corr, y, blockers, sold, d0);
    assert FindRep(corr, y, cands, 1, blockers + d0.taken, d0.skip) == Some(z);
    var d1 := DayRun(corr, mode, cands, 1, blockers, sold);
    assert d1.taken == [z] && d1.skip == {z};
    assert Refused(corr, z, blockers, sold, d1);
  }
}
