// unspentPlanCredits: what a renewal carries forward. The query sums a grant's
// credits over the ungrouped join, so a grant counts once per draw; the law
// below says by exactly how much that differs from what is really unspent.
module Rollover {
  import opened Prelude
  import opened LedgerTables

  predicate PlanLive(g: Grant, workspace: nat, now: int) {
    g.workspace == workspace && g.bucket == Plan && Live(g, now)
  }

  function PlanLiveGrants(grants: seq<Grant>, workspace: nat, now: int): seq<Grant> {
    Filter(grants, (g: Grant) => PlanLive(g, workspace, now))
  }

  function PlanRows(grants: seq<Grant>, allocations: seq<Allocation>, workspace: nat, now: int): seq<Joined> {
    Where(LeftJoin(grants, allocations), (g: Grant) => PlanLive(g, workspace, now))
  }

  // COALESCE(SUM(grant.credits), 0) - COALESCE(SUM(allocation.credits), 0).
  function JoinSum(grants: seq<Grant>, allocations: seq<Allocation>, workspace: nat, now: int): int {
    SumGranted(PlanRows(grants, allocations, workspace, now))
    - SumAllocated(PlanRows(grants, allocations, workspace, now))
  }

  function UnspentPlanCredits(grants: seq<Grant>, allocations: seq<Allocation>, workspace: nat, now: int): int {
    Max(0, JoinSum(grants, allocations, workspace, now))
  }

  // What the live plan grants really have left.
  function Unspent(grants: seq<Grant>, allocations: seq<Allocation>, workspace: nat, now: int): int {
    SumBy(PlanLiveGrants(grants, workspace, now), (g: Grant) => g.credits - Spent(allocations, g.id))
  }

  // What a grant adds to the join beyond its own credits: once per draw after
  // the first.
  function Repeated(allocations: seq<Allocation>, g: Grant): int {
    Max(0, |Draws(allocations, g.id)| - 1) * g.credits
  }

  lemma RepeatedFacts(allocations: seq<Allocation>, g: Grant)
    ensures Max(1, |Draws(allocations, g.id)|) * g.credits == g.credits + Repeated(allocations, g)
    ensures g.credits >= 0 ==> Repeated(allocations, g) >= 0
    ensures Repeated(allocations, g) == 0 <==> |Draws(allocations, g.id)| <= 1 || g.credits == 0
  {
    var again := |Draws(allocations, g.id)| - 1;
    if again >= 1 {
      assert (1 + again) * g.credits == g.credits + again * g.credits;
      if g.credits > 0 {
        assert again * g.credits >= 1 * g.credits;
      } else if g.credits < 0 {
        assert again * (0 - g.credits) >= 1 * (0 - g.credits);
      }
    }
  }

  function FanOut(grants: seq<Grant>, allocations: seq<Allocation>, workspace: nat, now: int): int {
    SumBy(PlanLiveGrants(grants, workspace, now), (g: Grant) => Repeated(allocations, g))
  }

  lemma {:induction false} JoinTotals(grants: seq<Grant>, allocations: seq<Allocation>)
    ensures SumAllocated(LeftJoin(grants, allocations)) == SumBy(grants, (g: Grant) => Spent(allocations, g.id))
    ensures SumGranted(LeftJoin(grants, allocations))
         == SumBy(grants, (g: Grant) => g.credits) + SumBy(grants, (g: Grant) => Repeated(allocations, g))
  {
    if grants != [] {
      var g := grants[0];
      var head, tail := JoinOne(g, allocations), LeftJoin(grants[1..], allocations);
      JoinOneFacts(g, allocations);
      SumByAppend(head, tail, AllocatedCredits);
      SumByAppend(head, tail, (r: Joined) => r.grant.credits);
      JoinTotals(grants[1..], allocations);
      RepeatedFacts(allocations, g);
    }
  }

  // The fan-out law, before the clamp at zero.
  lemma JoinSumLaw(grants: seq<Grant>, allocations: seq<Allocation>, workspace: nat, now: int)
    ensures JoinSum(grants, allocations, workspace, now)
         == Unspent(grants, allocations, workspace, now) + FanOut(grants, allocations, workspace, now)
  {
    var chosen := PlanLiveGrants(grants, workspace, now);
    WhereOfJoin(grants, allocations, (g: Grant) => PlanLive(g, workspace, now));
    JoinTotals(chosen, allocations);
    SumByPlus(chosen, (g: Grant) => g.credits - Spent(allocations, g.id),
              (g: Grant) => Spent(allocations, g.id), (g: Grant) => g.credits);
  }

  // Every grant holds a non-negative amount and is not overdrawn: what every
  // run of the ledger keeps.
  ghost predicate Sound(grants: seq<Grant>, allocations: seq<Allocation>) {
    forall g | g in grants :: 0 <= Spent(allocations, g.id) <= g.credits
  }

  // A renewal carries forward exactly what is unspent if and only if no
  // non-empty live plan grant has been drawn on more than once; otherwise it
  // carries too much, never too little.
  lemma CarriesExactlyIff(grants: seq<Grant>, allocations: seq<Allocation>, workspace: nat, now: int)
    requires Sound(grants, allocations)
    ensures UnspentPlanCredits(grants, allocations, workspace, now) >= Unspent(grants, allocations, workspace, now) >= 0
    ensures UnspentPlanCredits(grants, allocations, workspace, now) == Unspent(grants, allocations, workspace, now)
       <==> forall g | g in grants && PlanLive(g, workspace, now) :: |Draws(allocations, g.id)| <= 1 || g.credits == 0
  {
    var chosen := PlanLiveGrants(grants, workspace, now);
    var repeated := (g: Grant) => Repeated(allocations, g);
    JoinSumLaw(grants, allocations, workspace, now);
    FilterMembers(grants, (g: Grant) => PlanLive(g, workspace, now));
    forall g | g in chosen
      ensures repeated(g) >= 0
      ensures repeated(g) == 0 <==> |Draws(allocations, g.id)| <= 1 || g.credits == 0
    {
      RepeatedFacts(allocations, g);
      assert g.credits >= 0;
    }
    SumByZero(chosen, repeated);
    SumByZero(chosen, (g: Grant) => g.credits - Spent(allocations, g.id));
  }

  // Nothing carries exactly when every live plan grant is used up and, unless it
  // was empty to begin with, was used up in one draw.
  lemma NothingCarriesIff(grants: seq<Grant>, allocations: seq<Allocation>, workspace: nat, now: int)
    requires Sound(grants, allocations)
    ensures UnspentPlanCredits(grants, allocations, workspace, now) == 0
       <==> forall g | g in grants && PlanLive(g, workspace, now) ::
              Spent(allocations, g.id) == g.credits && (|Draws(allocations, g.id)| <= 1 || g.credits == 0)
  {
    CarriesExactlyIff(grants, allocations, workspace, now);
    FilterMembers(grants, (g: Grant) => PlanLive(g, workspace, now));
    SumByZero(PlanLiveGrants(grants, workspace, now), (g: Grant) => g.credits - Spent(allocations, g.id));
  }

  // One allowance of 100 credits, drawn on twice for 10: 80 are left, 180 roll
  // over, which is more than was ever granted.
  lemma TwiceDrawnCarriesTooMuch()
    ensures
      var plan := Grant(1, 7, Plan, 100, Some(50), None, 0);
      var draws := [Allocation(Some(1), 1, Plan, 10), Allocation(Some(2), 1, Plan, 10)];
      && Sound([plan], draws)
      && Unspent([plan], draws, 7, 0) == 80
      && UnspentPlanCredits([plan], draws, 7, 0) == 180
  {
    var plan := Grant(1, 7, Plan, 100, Some(50), None, 0);
    var a, b := Allocation(Some(1), 1, Plan, 10), Allocation(Some(2), 1, Plan, 10);
    var draws := [a, b];
    assert draws[1..] == [b];
    assert Draws([b], 1) == [b];
    assert Draws(draws, 1) == [a] + Draws([b], 1);
    assert Draws(draws, 1) == draws;
    assert SumBy([b], (x: Allocation) => x.credits) == 10;
    assert Spent(draws, 1) == 20;
    assert [plan][1..] == [];
    assert PlanLiveGrants([plan], 7, 0) == [plan];
    SumBySnoc([], plan, (g: Grant) => g.credits - Spent(draws, g.id));
    SumBySnoc([], plan, (g: Grant) => Repeated(draws, g));
    assert [] + [plan] == [plan];
    assert FanOut([plan], draws, 7, 0) == 100;
    JoinSumLaw([plan], draws, 7, 0);
  }

  // Only the live plan grants and their draws matter: rollover, top-up and
  // reward grants, other workspaces and dead allowances are invisible to it.
  lemma DependsOnPlanOnly(grants: seq<Grant>, allocations: seq<Allocation>,
                          grants': seq<Grant>, allocations': seq<Allocation>, workspace: nat, now: int)
    requires PlanLiveGrants(grants, workspace, now) == PlanLiveGrants(grants', workspace, now)
    requires forall g | g in PlanLiveGrants(grants, workspace, now) ::
               Draws(allocations, g.id) == Draws(allocations', g.id)
    ensures UnspentPlanCredits(grants, allocations, workspace, now)
         == UnspentPlanCredits(grants', allocations', workspace, now)
  {
    var chosen := PlanLiveGrants(grants, workspace, now);
    JoinSumLaw(grants, allocations, workspace, now);
    JoinSumLaw(grants', allocations', workspace, now);
    SumByEqual(chosen, (g: Grant) => g.credits - Spent(allocations, g.id),
               (g: Grant) => g.credits - Spent(allocations', g.id));
    SumByEqual(chosen, (g: Grant) => Repeated(allocations, g), (g: Grant) => Repeated(allocations', g));
  }

  // Why the measurement must precede the new allowance: taken afterwards, the
  // whole allowance would roll into its own successor.
  lemma MeasuredTooLate(grants: seq<Grant>, allocations: seq<Allocation>, workspace: nat, now: int, allowance: Grant)
    requires PlanLive(allowance, workspace, now)
    requires Draws(allocations, allowance.id) == []
    ensures JoinSum(grants + [allowance], allocations, workspace, now)
         == JoinSum(grants, allocations, workspace, now) + allowance.credits
  {
    var p := (g: Grant) => PlanLive(g, workspace, now);
    JoinSumLaw(grants, allocations, workspace, now);
    JoinSumLaw(grants + [allowance], allocations, workspace, now);
    FilterAppend(grants, [allowance], p);
    FilterAll([allowance], p);
    SumBySnoc(Filter(grants, p), allowance, (g: Grant) => g.credits - Spent(allocations, g.id));
    SumBySnoc(Filter(grants, p), allowance, (g: Grant) => Repeated(allocations, g));
  }

  // An allowance that has already expired when the invoice is paid carries
  // nothing, however much of it was left.
  lemma NothingCarriedAfterExpiry(grants: seq<Grant>, allocations: seq<Allocation>, workspace: nat, now: int)
    requires forall g | g in grants && g.workspace == workspace && g.bucket == Plan ::
               g.expiresAt.Some? && g.expiresAt.value <= now
    ensures UnspentPlanCredits(grants, allocations, workspace, now) == 0
  {
    JoinSumLaw(grants, allocations, workspace, now);
    FilterNone(grants, (g: Grant) => PlanLive(g, workspace, now));
  }
}
