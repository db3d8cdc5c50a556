/** The four-slot sleeve: trades are taken in entry order while a slot is free, optionally only when
    no held trade is in their cluster. */
module Sleeve {
  import opened Basics
  import opened Trades

  /** Entries in day order; the order within a day is free. */
  ghost predicate ByEntry(ts: seq<Trade>) {
    forall i, j :: 0 <= i < j < |ts| ==> ts[i].entryCi <= ts[j].entryCi
  }

  /** `clusters` is the cluster rule of the integrated form; the plain form has none. */
  predicate Fits(clusters: Option<Corr>, acc: seq<Trade>, t: Trade) {
    && |HeldOn(acc, t.entryCi)| < SLOTS
    && (clusters.Some? ==> !clusters.value.Clash(t, HeldOn(acc, t.entryCi)))
  }

  /** Greedy choice over an entry-ordered list. */
  function Greedy(clusters: Option<Corr>, order: seq<Trade>): seq<Trade> {
    if order == [] then []
    else
      var acc, t := Greedy(clusters, order[..|order| - 1]), order[|order| - 1];
      if Fits(clusters, acc, t) then acc + [t] else acc
  }

  // ---- the loops -------------------------------------------------------------------------

  function Exits(acc: seq<Trade>): seq<int> {
    if acc == [] then [] else Exits(acc[..|acc| - 1]) + [acc[|acc| - 1].exitCi]
  }

  /** Keep the exit days not before `day`. */
  function StillOpen(exits: seq<int>, day: int): seq<int> {
    if exits == [] then []
    else StillOpen(exits[..|exits| - 1], day) + (if exits[|exits| - 1] >= day then [exits[|exits| - 1]] else [])
  }

  lemma {:induction false} OpenExitsOfHeld(acc: seq<Trade>, day: int)
    ensures StillOpen(Exits(acc), day) == Exits(HeldOn(acc, day))
    ensures |Exits(HeldOn(acc, day))| == |HeldOn(acc, day)|
  {
    if acc != [] {
      var pre, t := acc[..|acc| - 1], acc[|acc| - 1];
      OpenExitsOfHeld(pre, day);
      assert Exits(acc)[..|Exits(acc)| - 1] == Exits(pre);
      var held := HeldOn(pre, day);
      if t.exitCi >= day { assert (held + [t])[..|held|] == held; } else { assert held + [] == held; }
    }
  }

  lemma {:induction false} OpenTwice(exits: seq<int>, day: int, day': int)
    requires day <= day'
    ensures StillOpen(StillOpen(exits, day), day') == StillOpen(exits, day')
  {
    if exits != [] {
      var pre, x := exits[..|exits| - 1], exits[|exits| - 1];
      OpenTwice(pre, day, day');
      if x >= day {
        OpenLast(StillOpen(pre, day), x, day');
      } else {
        assert StillOpen(pre, day) + [] == StillOpen(pre, day);
      }
    }
  }

  lemma OpenLast(exits: seq<int>, x: int, day: int)
    ensures StillOpen(exits + [x], day) == StillOpen(exits, day) + (if x >= day then [x] else [])
  {
    assert (exits + [x])[..|exits|] == exits;
  }

  /** Lists open alike on a day are open alike on every later day. */
  lemma OpenLater(xs: seq<int>, ys: seq<int>, day: int, later: int)
    requires day <= later && StillOpen(xs, day) == StillOpen(ys, day)
    ensures StillOpen(xs, later) == StillOpen(ys, later)
  {
    OpenTwice(xs, day, later);
    OpenTwice(ys, day, later);
  }

  /** One trade of the plain sleeve. */
  method TakeOne(ghost order: seq<Trade>, t: Trade, openExit0: seq<int>, taken0: seq<Trade>)
    returns (openExit: seq<int>, taken: seq<Trade>)
    requires taken0 == Greedy(None, order) && StillOpen(openExit0, t.entryCi) == StillOpen(Exits(taken0), t.entryCi)
    ensures taken == Greedy(None, order + [t])
    ensures StillOpen(openExit, t.entryCi) == StillOpen(Exits(taken), t.entryCi)
  {
    assert (order + [t])[..|order|] == order;
    openExit, taken := StillOpen(openExit0, t.entryCi), taken0;
    OpenExitsOfHeld(taken, t.entryCi);
    OpenTwice(openExit0, t.entryCi, t.entryCi);
    if |openExit| < SLOTS {
      OpenLast(openExit, t.exitCi, t.entryCi);
      OpenLast(Exits(taken0), t.exitCi, t.entryCi);
      openExit := openExit + [t.exitCi];
      taken := taken + [t];
      assert taken[..|taken0|] == taken0;
    }
  }

  /** The plain sleeve: only the exit days of open positions are kept. */
  method RunSleeve(order: seq<Trade>) returns (taken: seq<Trade>)
    requires ByEntry(order)
    ensures taken == Greedy(None, order)
  {
    var openExit: seq<int> := [];
    taken := [];
    for i := 0 to |order|
      invariant taken == Greedy(None, order[..i])
      invariant i == 0 ==> openExit == [] && taken == []
      invariant i > 0 ==> StillOpen(openExit, order[i - 1].entryCi) == StillOpen(Exits(taken), order[i - 1].entryCi)
    {
      if i > 0 { OpenLater(openExit, Exits(taken), order[i - 1].entryCi, order[i].entryCi); }
      openExit, taken := TakeOne(order[..i], order[i], openExit, taken);
      assert order[..i + 1] == order[..i] + [order[i]];
    }
    assert order[..|order|] == order;
  }

  /** Days joined in sequence: the order in which the integrated form looks at the trades. */
  function Joined(days: seq<seq<Trade>>): seq<Trade> {
    if days == [] then [] else Joined(days[..|days| - 1]) + days[|days| - 1]
  }

  /** Each inner list holds the trades of one day; days come in increasing order. */
  ghost predicate DayLists(days: seq<seq<Trade>>, dayOf: seq<int>) {
    && |days| == |dayOf| && Increasing(dayOf)
    && forall n, t :: 0 <= n < |days| && t in days[n] ==> t.entryCi == dayOf[n] && t.entryCi <= t.exitCi
  }

  lemma {:induction false} FullDaySkipped(clusters: Option<Corr>, order: seq<Trade>, rest: seq<Trade>, day: int)
    requires forall t :: t in rest ==> t.entryCi == day
    requires |HeldOn(Greedy(clusters, order), day)| >= SLOTS
    ensures Greedy(clusters, order + rest) == Greedy(clusters, order)
  {
    if rest == [] {
      assert order + rest == order;
    } else {
      FullDaySkipped(clusters, order, rest[..|rest| - 1], day);
      assert (order + rest)[..|order + rest| - 1] == order + rest[..|rest| - 1];
    }
  }

  lemma RestOfDaySkipped(clusters: Option<Corr>, before: seq<Trade>, cands: seq<Trade>, i: nat, day: int)
    requires i <= |cands| && forall t :: t in cands ==> t.entryCi == day
    requires |HeldOn(Greedy(clusters, before + cands[..i]), day)| >= SLOTS
    ensures Greedy(clusters, before + cands) == Greedy(clusters, before + cands[..i])
  {
    assert (before + cands[..i]) + cands[i..] == before + cands;
    FullDaySkipped(clusters, before + cands[..i], cands[i..], day);
  }

  lemma GreedyStep(clusters: Option<Corr>, before: seq<Trade>, cands: seq<Trade>, i: nat)
    requires i < |cands|
    ensures var acc := Greedy(clusters, before + cands[..i]);
            Greedy(clusters, before + cands[..i + 1]) == if Fits(clusters, acc, cands[i]) then acc + [cands[i]] else acc
  {
    var order := before + cands[..i + 1];
    assert order[..|order| - 1] == before + cands[..i];
  }

  /** One day of the integrated form: the loop stops for the day once all slots are taken. */
  method TakeDay(corr: Corr, ghost before: seq<Trade>, cands: seq<Trade>, day: int, held0: seq<Trade>,
                 taken0: seq<Trade>)
    returns (held: seq<Trade>, taken: seq<Trade>)
    requires taken0 == Greedy(Some(corr), before) && held0 == HeldOn(taken0, day)
    requires forall t :: t in cands ==> t.entryCi == day && t.entryCi <= t.exitCi
    ensures taken == Greedy(Some(corr), before + cands)
    ensures held == HeldOn(taken, day)
  {
    held, taken := held0, taken0;
    assert before + cands[..0] == before;
    for i := 0 to |cands|
      invariant taken == Greedy(Some(corr), before + cands[..i])
      invariant held == HeldOn(taken, day)
    {
      var t := cands[i];
      if |held| >= SLOTS {
        RestOfDaySkipped(Some(corr), before, cands, i, day);
        return;
      }
      GreedyStep(Some(corr), before, cands, i);
      if corr.Clash(t, held) {
        continue;
      }
      HeldOnLast(taken, t, day);
      held := held + [t];
      taken := taken + [t];
    }
    assert cands[..|cands|] == cands;
  }

  /** The integrated sleeve over any order of trades within each day. */
  method RunIntegrated(corr: Corr, days: seq<seq<Trade>>, dayOf: seq<int>) returns (taken: seq<Trade>)
    requires DayLists(days, dayOf)
    ensures taken == Greedy(Some(corr), Joined(days))
  {
    var held: seq<Trade> := [];
    taken := [];
    for n := 0 to |days|
      invariant taken == Greedy(Some(corr), Joined(days[..n]))
      invariant held == if n == 0 then taken else HeldOn(taken, dayOf[n - 1])
    {
      assert days[..n + 1][..n] == days[..n];
      if n > 0 { PruningIsFiltering(taken, dayOf[n - 1], dayOf[n]); }
      held := HeldOn(held, dayOf[n]);
      held, taken := TakeDay(corr, Joined(days[..n]), days[n], dayOf[n], held, taken);
    }
    assert days[..|days|] == days;
  }

  // ---- capacity --------------------------------------------------------------------------

  /** How many of the trades are open on `day`, entry and exit days included. */
  function Covering(acc: seq<Trade>, day: int): nat {
    if acc == [] then 0
    else
      var t := acc[|acc| - 1];
      Covering(acc[..|acc| - 1], day) + (if t.entryCi <= day <= t.exitCi then 1 else 0)
  }

  lemma {:induction false} CoveringWithinHeld(acc: seq<Trade>, e: int, day: int)
    requires e <= day
    ensures Covering(acc, day) <= |HeldOn(acc, e)|
  {
    if acc != [] { CoveringWithinHeld(acc[..|acc| - 1], e, day); }
  }

  /** For every list of trades and every order within a day, no day is ever covered by more than SLOTS
      of the trades taken. */
  lemma {:induction false} SlotsNeverExceeded(clusters: Option<Corr>, order: seq<Trade>, day: int)
    requires ByEntry(order)
    ensures Covering(Greedy(clusters, order), day) <= SLOTS
  {
    if order != [] {
      var pre, t := order[..|order| - 1], order[|order| - 1];
      SlotsNeverExceeded(clusters, pre, day);
      var acc := Greedy(clusters, pre);
      if Fits(clusters, acc, t) {
        assert (acc + [t])[..|acc|] == acc;
        if day >= t.entryCi { CoveringWithinHeld(acc, t.entryCi, day); }
      }
    }
  }

  lemma {:induction false} TakenFromOrder(clusters: Option<Corr>, order: seq<Trade>)
    ensures forall t :: t in Greedy(clusters, order) ==> t in order
    ensures ByEntry(order) ==> ByEntry(Greedy(clusters, order))
  {
    if order != [] {
      var pre, t := order[..|order| - 1], order[|order| - 1];
      TakenFromOrder(clusters, pre);
      assert order == pre + [t];
      var acc := Greedy(clusters, pre);
      if ByEntry(order) {
        assert ByEntry(pre);
        forall i | 0 <= i < |acc| ensures acc[i].entryCi <= t.entryCi {
          assert acc[i] in pre;
          var k :| 0 <= k < |pre| && pre[k] == acc[i];
          assert order[k].entryCi <= order[|order| - 1].entryCi;
        }
      }
    }
  }

  /** A trade is passed over only when, at its entry, all slots are covered by trades already taken or,
      in the integrated form, one of them is in its cluster. */
  lemma {:induction false} PassedOverOnlyWhenBlocked(clusters: Option<Corr>, order: seq<Trade>, i: int)
    requires ByEntry(order) && 0 <= i < |order| && order[i] !in Greedy(clusters, order)
    ensures var acc := Greedy(clusters, order[..i]);
            || Covering(acc, order[i].entryCi) == SLOTS
            || (clusters.Some? && clusters.value.Clash(order[i], HeldOn(acc, order[i].entryCi)))
  {
    var last := |order| - 1;
    if i < last {
      assert order[..last][..i] == order[..i];
      PassedOverOnlyWhenBlocked(clusters, order[..last], i);
    } else {
      var acc := Greedy(clusters, order[..i]);
      assert !Fits(clusters, acc, order[i]);
      if |HeldOn(acc, order[i].entryCi)| >= SLOTS {
        TakenFromOrder(clusters, order[..i]);
        forall t | t in acc ensures t.entryCi <= order[i].entryCi {
          var k :| 0 <= k < i && order[..i][k] == t;
          assert order[k].entryCi <= order[i].entryCi;
        }
        HeldCovers(acc, order[i].entryCi);
        SlotsNeverExceeded(clusters, order[..i], order[i].entryCi);
      }
    }
  }

  lemma {:induction false} HeldCovers(acc: seq<Trade>, day: int)
    requires forall t :: t in acc ==> t.entryCi <= day
    ensures Covering(acc, day) == |HeldOn(acc, day)|
  {
    if acc != [] {
      assert acc == acc[..|acc| - 1] + [acc[|acc| - 1]];
      HeldCovers(acc[..|acc| - 1], day);
    }
  }

  ghost predicate ClustersApart(corr: Corr, acc: seq<Trade>) {
    forall p, q :: 0 <= p < q < |acc| && acc[p].exitCi >= acc[q].entryCi ==>
      !corr.SameCluster(acc[q].ticker, acc[p].ticker, acc[q].sigCi)
  }

  lemma AppendApart(corr: Corr, acc: seq<Trade>, t: Trade)
    requires ClustersApart(corr, acc) && !corr.Clash(t, HeldOn(acc, t.entryCi))
    ensures ClustersApart(corr, acc + [t])
  {
    HeldMembers(acc, t.entryCi);
    forall p | 0 <= p < |acc| && acc[p].exitCi >= t.entryCi
      ensures !corr.SameCluster(t.ticker, acc[p].ticker, t.sigCi)
    {
      assert acc[p] in HeldOn(acc, t.entryCi);
    }
  }

  /** The integrated form never holds two trades of one cluster at once. */
  lemma {:induction false} IntegratedIsConflictFree(corr: Corr, order: seq<Trade>)
    ensures ClustersApart(corr, Greedy(Some(corr), order))
  {
    if order != [] {
      var pre, t := Greedy(Some(corr), order[..|order| - 1]), order[|order| - 1];
      IntegratedIsConflictFree(corr, order[..|order| - 1]);
      if Fits(Some(corr), pre, t) { AppendApart(corr, pre, t); }
    }
  }
}
