/** When the history is compacted (agent/runner.go:555-635, 721-753). */
module Triggers {

  /** One run's trigger state. */
  datatype Triggers = Triggers(budget: int, proactive: bool, reserve: int, limit: int, floor: int,
                               refused: bool, stubOnly: bool)
  {
    predicate DueByBudget(est: int) {
      budget > 0 && est > budget
    }

    predicate DueByReserve(est: int) {
      proactive && est > limit && est >= floor
    }

    predicate Due(est: int) {
      DueByBudget(est) || DueByReserve(est)
    }

    /** A counted or paid pass that left the history at `post`. */
    function Rearm(byBudget: bool, post: int, paid: bool): Triggers {
      this.(budget := if byBudget then budget * COMPACT_REARM_FACTOR else budget,
            floor := if proactive && (paid || (!refused && post >= limit)) then post + reserve else 0)
    }

    /** A refused request of estimate `asked` and a recovery pass that left the history at `post`. */
    function Refusal(asked: int, post: int, paid: bool): Triggers {
      if !proactive then this
      else
        var l := asked - reserve;
        this.(refused := true,
              floor := if paid then post + reserve else 0,
              limit := if l > 0 && l < limit then l else limit)
    }
  }

  const COMPACT_REARM_FACTOR := 2

  function NewTriggers(historyBudget: int, contextReserve: int, contextWindow: int): Triggers {
    var on := contextReserve > 0 && contextWindow > 0;
    Triggers(historyBudget, on, if on then contextReserve else 0, if on then contextWindow - contextReserve else 0,
             0, false, false)
  }

  /** What one run does to its triggers: a turn boundary, or a recovery from a refused request. */
  datatype Pass =
    | AtBoundary(before: int, after: int, paid: bool)
    | Recovery(asked: int, post: int, paid: bool)

  /** The pass is counted against the budget trigger. */
  predicate Counted(t: Triggers, p: Pass) {
    p.AtBoundary? && t.DueByBudget(p.before) && (p.after < p.before || p.paid)
  }

  function Apply(t: Triggers, p: Pass): Triggers {
    match p
    case AtBoundary(before, after, paid) =>
      if !t.Due(before) || !(after < before || paid) then t
      else t.Rearm(t.DueByBudget(before), after, paid)
    case Recovery(asked, post, paid) => t.Refusal(asked, post, paid)
  }

  function After(t: Triggers, ps: seq<Pass>): Triggers {
    if ps == [] then t else Apply(After(t, ps[..|ps| - 1]), ps[|ps| - 1])
  }

  /** How many passes of a run the budget trigger fired and counted. */
  function CountedPasses(t: Triggers, ps: seq<Pass>): nat {
    if ps == [] then 0
    else CountedPasses(t, ps[..|ps| - 1]) + (if Counted(After(t, ps[..|ps| - 1]), ps[|ps| - 1]) then 1 else 0)
  }

  function Pow2(k: nat): (p: nat)
    ensures p >= 1
  {
    if k == 0 then 1 else 2 * Pow2(k - 1)
  }

  lemma Doubling(b: int, p: int)
    ensures b * p * 2 == b * (2 * p) && 2 * (b * p) == b * (2 * p)
  {
  }

  /** The budget in force doubles with every counted pass and with nothing else. */
  lemma {:induction false} BudgetDoubles(t: Triggers, ps: seq<Pass>)
    ensures After(t, ps).budget == t.budget * Pow2(CountedPasses(t, ps))
  {
    if ps != [] {
      var before := ps[..|ps| - 1];
      BudgetDoubles(t, before);
      if Counted(After(t, before), ps[|ps| - 1]) {
        var k := CountedPasses(t, before);
        Doubling(t.budget, Pow2(k));
      }
    }
  }

  /** Compaction work is logarithmic: k counted passes with every estimate at most E need B*2^(k-1) < E. */
  lemma {:induction false} CompactionIsBounded(t: Triggers, ps: seq<Pass>, e: int)
    requires forall i :: 0 <= i < |ps| && ps[i].AtBoundary? ==> ps[i].before <= e
    requires CountedPasses(t, ps) >= 1
    ensures t.budget * Pow2(CountedPasses(t, ps) - 1) < e
  {
    var before := ps[..|ps| - 1];
    if Counted(After(t, before), ps[|ps| - 1]) {
      BudgetDoubles(t, before);
      assert ps[|ps| - 1].before <= e;
    } else {
      forall i | 0 <= i < |before| && before[i].AtBoundary? ensures before[i].before <= e {
        assert before[i] == ps[i];
      }
      CompactionIsBounded(t, before, e);
    }
  }

  /** After a paid pass the reserve trigger waits until the history has grown by the reserve,
      through any number of unproductive boundaries. */
  lemma {:induction false} PaidPassWaits(t: Triggers, byBudget: bool, post: int, ps: seq<Pass>, est: int)
    requires t.proactive
    requires forall i :: 0 <= i < |ps| ==> ps[i].AtBoundary? && !ps[i].paid && ps[i].after == ps[i].before
    requires After(t.Rearm(byBudget, post, true), ps).DueByReserve(est)
    ensures est >= post + t.reserve
  {
    if ps != [] {
      PaidPassWaits(t, byBudget, post, ps[..|ps| - 1], est);
    }
  }

  // ----- Passes whose cost is forgotten -----

  /** The pass as a resumed run makes it: its recorded cost is served as zero. */
  function Unpaid(p: Pass): Pass {
    p.(paid := false)
  }

  function AllUnpaid(ps: seq<Pass>): (r: seq<Pass>)
    ensures |r| == |ps| && forall i :: 0 <= i < |r| ==> r[i] == Unpaid(ps[i])
  {
    seq(|ps|, i requires 0 <= i < |ps| => Unpaid(ps[i]))
  }

  /** Forgetting that the pass was paid does not show: it was free, it met triggers that were not due, it shrank the
      history and re-arms as a free pass does, or it recovered a run without a reserve trigger. */
  predicate Harmless(t: Triggers, p: Pass) {
    !p.paid ||
    match p
    case AtBoundary(before, after, _) =>
      !t.Due(before) || (after < before && (!t.proactive || (!t.refused && after >= t.limit)))
    case Recovery(_, _, _) => !t.proactive
  }

  /** Estimates as the loop makes them. */
  predicate SanePass(p: Pass) {
    match p
    case AtBoundary(before, after, _) => 0 <= after <= before
    case Recovery(_, post, _) => 0 <= post
  }

  predicate SaneTriggers(t: Triggers) {
    t.proactive ==> t.reserve > 0
  }

  lemma HarmlessIsSame(t: Triggers, p: Pass)
    requires Harmless(t, p)
    ensures Apply(t, Unpaid(p)) == Apply(t, p)
  {
  }

  /** A pass, at a turn boundary or in a recovery, leaves the same triggers free as paid exactly when it is harmless. */
  lemma ForgettingShows(t: Triggers, p: Pass)
    requires SaneTriggers(t) && SanePass(p)
    ensures Apply(t, Unpaid(p)) == Apply(t, p) <==> Harmless(t, p)
  {
  }

  /** A paid summary at a boundary, and a paid recovery, after which the free one fires where the paid one waits. */
  lemma ForgottenPassesFire()
    ensures var t := NewTriggers(0, 100, 1000);
            && !Apply(t, AtBoundary(950, 850, true)).Due(920) && Apply(t, AtBoundary(950, 850, false)).Due(920)
            && !Apply(t, Recovery(600, 505, true)).Due(520) && Apply(t, Recovery(600, 505, false)).Due(520)
  {
  }

  /** Every pass of the list is harmless where it happens. */
  ghost predicate AllHarmless(t: Triggers, ps: seq<Pass>) {
    forall i: nat :: i < |ps| ==> Harmless(After(t, ps[..i]), ps[i])
  }

  ghost predicate SameTriggers(t: Triggers, ps: seq<Pass>) {
    forall n: nat :: n <= |ps| ==> After(t, AllUnpaid(ps[..n])) == After(t, ps[..n])
  }

  /** Over a list of passes the triggers stay the same throughout exactly when every pass is harmless. */
  lemma {:induction false} ForgettingShowsInLists(t: Triggers, ps: seq<Pass>)
    requires SaneTriggers(t) && forall i :: 0 <= i < |ps| ==> SanePass(ps[i])
    ensures SameTriggers(t, ps) <==> AllHarmless(t, ps)
  {
    hide Apply, Harmless, After, SameTriggers, AllHarmless;
    if ps == [] {
      NothingToForget(t);
    } else {
      var n := |ps| - 1;
      ForgettingShowsInLists(t, ps[..n]);
      SaneAfter(t, ps[..n]);
      ForgettingShows(After(t, ps[..n]), ps[n]);
      ForgettingLast(t, ps);
      SameTriggersSnoc(t, ps);
      AllHarmlessSnoc(t, ps);
      SameTriggersEnd(t, ps[..n]);
    }
  }

  lemma NothingToForget(t: Triggers)
    ensures SameTriggers(t, []) && AllHarmless(t, [])
  {
    var none: seq<Pass> := [];
    assert forall n: nat :: n <= 0 ==> none[..n] == none;
    assert AllUnpaid([]) == [];
  }

  lemma SameTriggersEnd(t: Triggers, ps: seq<Pass>)
    ensures SameTriggers(t, ps) ==> After(t, AllUnpaid(ps)) == After(t, ps)
  {
    assert ps[..|ps|] == ps;
  }

  lemma SameTriggersSnoc(t: Triggers, ps: seq<Pass>)
    requires ps != []
    ensures SameTriggers(t, ps) <==> SameTriggers(t, ps[..|ps| - 1]) && After(t, AllUnpaid(ps)) == After(t, ps)
  {
    hide After;
    var init := ps[..|ps| - 1];
    assert ps[..|ps|] == ps;
    assert forall m: nat :: m <= |init| ==> init[..m] == ps[..m];
  }

  lemma AllHarmlessSnoc(t: Triggers, ps: seq<Pass>)
    requires ps != []
    ensures var n := |ps| - 1;
            AllHarmless(t, ps) <==> AllHarmless(t, ps[..n]) && Harmless(After(t, ps[..n]), ps[n])
  {
    hide After, Harmless;
    var n := |ps| - 1;
    assert forall i: nat :: i < n ==> ps[..n][..i] == ps[..i] && ps[..n][i] == ps[i];
  }

  lemma ForgettingLast(t: Triggers, ps: seq<Pass>)
    requires ps != []
    ensures var n := |ps| - 1;
            && After(t, ps) == Apply(After(t, ps[..n]), ps[n])
            && After(t, AllUnpaid(ps)) == Apply(After(t, AllUnpaid(ps[..n])), Unpaid(ps[n]))
  {
    hide Apply;
    var n := |ps| - 1;
    assert AllUnpaid(ps)[..n] == AllUnpaid(ps[..n]);
  }

  lemma {:induction false} SaneAfter(t: Triggers, ps: seq<Pass>)
    requires SaneTriggers(t)
    ensures SaneTriggers(After(t, ps))
  {
    if ps != [] {
      SaneAfter(t, ps[..|ps| - 1]);
      SaneApply(After(t, ps[..|ps| - 1]), ps[|ps| - 1]);
    }
  }

  lemma SaneApply(t: Triggers, p: Pass)
    requires SaneTriggers(t)
    ensures SaneTriggers(Apply(t, p))
  {
  }
}
