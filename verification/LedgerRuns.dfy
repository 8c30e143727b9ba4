// The ledger as a running system: grants, metered runs, renewals and the clock.
// One recordEvent (event, planning query and allocations) is one atomic step.
module LedgerRuns {
  import opened Prelude
  import opened LedgerTables
  import Balance
  import SpendPlan
  import Rollover

  const CREDITS_PER_DOLLAR := 400
  const FREE_SEATS := 4
  const SEAT_BONUS_CREDITS := 25 * CREDITS_PER_DOLLAR
  const SEAT_BONUS_CAP := 1000 * CREDITS_PER_DOLLAR

  function SeatBonusFor(seats: int): int {
    Min(Max(0, seats - FREE_SEATS) * SEAT_BONUS_CREDITS, SEAT_BONUS_CAP)
  }

  // What one renewal did; history kept for the proofs, not a table.
  datatype Renewal = Renewal(
    workspace: nat,
    at: int,
    periodEnd: int,
    planGrant: nat,
    rollover: Option<nat>,
    measured: seq<nat>)

  datatype State = State(
    grants: seq<Grant>,
    allocations: seq<Allocation>,
    events: seq<Event>,
    renewals: seq<Renewal>,
    nextId: nat,
    now: int)

  // ---- metering a run -------------------------------------------------------

  predicate Spendable(g: Grant, workspace: nat, now: int) {
    g.workspace == workspace && Live(g, now)
  }

  function HavingCredits(rows: seq<GrantRow>): seq<GrantRow> {
    Filter(rows, (r: GrantRow) => r.grant.credits > r.spent)
  }

  // liveGrantsForSpending: the grouped query, HAVING credits left, oldest
  // first; rows created at the same instant may come in either order.
  ghost predicate SpendingAnswer(s: State, workspace: nat, rows: seq<GrantRow>) {
    && (exists all: seq<GrantRow> ::
          && multiset(all)
             == multiset(GroupedQuery(s.grants, s.allocations, (g: Grant) => Spendable(g, workspace, s.now)))
          && rows == HavingCredits(all))
    && forall i, j | 0 <= i < j < |rows| :: rows[i].grant.createdAt <= rows[j].grant.createdAt
  }

  function Planner(rows: seq<GrantRow>): seq<SpendPlan.Spendable> {
    if rows == [] then []
    else [SpendPlan.Spendable(rows[0].grant.id, rows[0].grant.bucket, rows[0].grant.credits - rows[0].spent)]
         + Planner(rows[1..])
  }

  function Charges(planned: seq<SpendPlan.Planned>, event: nat): seq<Allocation> {
    if planned == [] then []
    else [Allocation(Some(event), planned[0].grantId, planned[0].bucket, planned[0].credits)]
         + Charges(planned[1..], event)
  }

  function Recorded(s: State, workspace: nat, charge: nat, rows: seq<GrantRow>): State {
    s.(events := s.events + [Event(s.nextId, workspace, charge)],
       allocations := s.allocations + Charges(SpendPlan.Allocations(Planner(rows), charge), s.nextId),
       nextId := s.nextId + 1)
  }

  // ---- granting and renewing ------------------------------------------------

  function Granted(s: State, workspace: nat, bucket: Bucket, credits: nat, expiresAt: Option<int>,
                   paid: Option<int>): State {
    s.(grants := s.grants + [Grant(s.nextId, workspace, bucket, credits, expiresAt, paid, s.now)],
       nextId := s.nextId + 1)
  }

  function IdsOf(grants: seq<Grant>): seq<nat> {
    if grants == [] then [] else [grants[0].id] + IdsOf(grants[1..])
  }

  function Carried(s: State, workspace: nat): nat {
    Rollover.UnspentPlanCredits(s.grants, s.allocations, workspace, s.now)
  }

  function WithRollover(s: State, workspace: nat, periodEnd: int): State {
    if Carried(s, workspace) > 0
    then Granted(s, workspace, Bucket.Rollover, Carried(s, workspace), Some(periodEnd), None)
    else s
  }

  function WithBonus(s: State, workspace: nat, seats: int): State {
    if SeatBonusFor(seats) > 0 then Granted(s, workspace, Reward, SeatBonusFor(seats), None, None) else s
  }

  // applyRenewal's transaction: measure, then rollover, allowance and bonus.
  function Renewed(s: State, workspace: nat, allowance: nat, price: int, seats: int, periodEnd: int): State {
    var s1 := WithRollover(s, workspace, periodEnd);
    var s2 := Granted(s1, workspace, Plan, allowance, Some(periodEnd), Some(price));
    var s3 := WithBonus(s2, workspace, seats);
    s3.(renewals := s.renewals + [Renewal(workspace, s.now, periodEnd, s1.nextId,
                                          if Carried(s, workspace) > 0 then Some(s.nextId) else None,
                                          IdsOf(Rollover.PlanLiveGrants(s.grants, workspace, s.now)))])
  }

  // ---- runs -----------------------------------------------------------------

  datatype Op =
    | MeterRun(workspace: nat, charge: nat)
    | AddGrant(workspace: nat, bucket: Bucket, credits: nat, expiresAt: Option<int>, paid: Option<int>)
    | Renew(workspace: nat, allowance: nat, price: int, seats: int, periodEnd: int)
    | Tick(seconds: nat)

  ghost predicate Step(s: State, op: Op, s': State) {
    match op
    case MeterRun(w, charge) => exists rows :: SpendingAnswer(s, w, rows) && s' == Recorded(s, w, charge, rows)
    case AddGrant(w, b, credits, e, paid) => s' == Granted(s, w, b, credits, e, paid)
    case Renew(w, allowance, price, seats, end) => s' == Renewed(s, w, allowance, price, seats, end)
    case Tick(seconds) => s' == s.(now := s.now + seconds)
  }

  // ---- the invariant --------------------------------------------------------

  function AllocatedTo(s: State, workspace: nat): int {
    SumBy(s.grants, (g: Grant) => if Balance.Owned(g, workspace) then Spent(s.allocations, g.id) else 0)
  }

  // What was charged but found no credits to pay for it.
  function Shortfall(s: State, workspace: nat): int {
    Balance.UsedBy(s.events, workspace) - AllocatedTo(s, workspace)
  }

  ghost predicate Inv(s: State) {
    && UniqueIds(s.grants)
    && (forall g | g in s.grants :: g.id < s.nextId)
    && (forall a | a in s.allocations :: exists g | g in s.grants :: g.id == a.grantId)
    && Rollover.Sound(s.grants, s.allocations)
    && (forall w: nat :: Shortfall(s, w) >= 0)
  }

  lemma {:induction false} PlannerFacts(rows: seq<GrantRow>)
    ensures |Planner(rows)| == |rows|
    ensures forall i | 0 <= i < |rows| ::
              Planner(rows)[i]
              == SpendPlan.Spendable(rows[i].grant.id, rows[i].grant.bucket, rows[i].grant.credits - rows[i].spent)
  {
    if rows != [] {
      PlannerFacts(rows[1..]);
    }
  }

  lemma {:induction false} ChargesFacts(planned: seq<SpendPlan.Planned>, event: nat)
    ensures |Charges(planned, event)| == |planned|
    ensures forall i | 0 <= i < |planned| :: Charges(planned, event)[i]
                == Allocation(Some(event), planned[i].grantId, planned[i].bucket, planned[i].credits)
    ensures SumBy(Charges(planned, event), (a: Allocation) => a.credits)
         == SumBy(planned, (p: SpendPlan.Planned) => p.credits)
  {
    if planned != [] {
      ChargesFacts(planned[1..], event);
    }
  }

  lemma {:induction false} FilterUnique(rows: seq<GrantRow>, p: GrantRow -> bool)
    requires UniqueRows(rows)
    ensures UniqueRows(Filter(rows, p))
  {
    if rows != [] {
      var tail := rows[1..];
      assert UniqueRows(tail);
      FilterUnique(tail, p);
      FilterMembers(tail, p);
      var kept := Filter(rows, p);
      forall i, j | 0 <= i < j < |kept| ensures kept[i].grant.id != kept[j].grant.id {
        if p(rows[0]) && i == 0 {
          assert kept[j] in Filter(tail, p);
          var k :| 0 <= k < |tail| && tail[k] == kept[j];
          assert rows[k + 1] == kept[j];
        }
      }
    }
  }

  // The planner is shown each spendable grant once, with what it really holds.
  lemma AnswerFacts(s: State, workspace: nat, rows: seq<GrantRow>)
    requires Inv(s) && SpendingAnswer(s, workspace, rows)
    ensures SpendPlan.UniqueSpendables(Planner(rows))
    ensures forall p | p in Planner(rows) ::
              p.remaining > 0 && exists g | g in s.grants ::
                g.id == p.id && Spendable(g, workspace, s.now) && p.remaining == g.credits - Spent(s.allocations, g.id)
  {
    var wanted := (g: Grant) => Spendable(g, workspace, s.now);
    var all :| multiset(all) == multiset(GroupedQuery(s.grants, s.allocations, wanted)) && rows == HavingCredits(all);
    QueryMembers(s.grants, s.allocations, wanted, all);
    QueryUnique(s.grants, s.allocations, wanted, all);
    FilterUnique(all, (r: GrantRow) => r.grant.credits > r.spent);
    FilterMembers(all, (r: GrantRow) => r.grant.credits > r.spent);
    PlannerFacts(rows);
    forall p | p in Planner(rows)
      ensures p.remaining > 0 && exists g | g in s.grants ::
                g.id == p.id && Spendable(g, workspace, s.now) && p.remaining == g.credits - Spent(s.allocations, g.id)
    {
      var i :| 0 <= i < |rows| && Planner(rows)[i] == p;
      assert rows[i] in rows;
      assert rows[i].grant in s.grants;
    }
  }

  lemma SpentAppend(a: seq<Allocation>, b: seq<Allocation>, id: nat)
    ensures Spent(a + b, id) == Spent(a, id) + Spent(b, id)
  {
    FilterAppend(a, b, (x: Allocation) => x.grantId == id);
    SumByAppend(Draws(a, id), Draws(b, id), (x: Allocation) => x.credits);
  }

  lemma {:induction false} SpentNone(drawn: seq<Allocation>, id: nat)
    requires forall a | a in drawn :: a.grantId != id
    ensures Spent(drawn, id) == 0
  {
    FilterNone(drawn, (x: Allocation) => x.grantId == id);
  }

  // With one entry per grant, what is newly spent on a grant is that entry.
  lemma {:induction false} SpentOnce(drawn: seq<Allocation>, id: nat)
    requires forall i, j | 0 <= i < j < |drawn| :: drawn[i].grantId != drawn[j].grantId
    ensures Spent(drawn, id) == 0 || exists a | a in drawn :: a.grantId == id && Spent(drawn, id) == a.credits
  {
    if drawn != [] {
      var a, rest := drawn[0], drawn[1..];
      assert drawn == [a] + rest;
      SpentAppend([a], rest, id);
      if a.grantId == id {
        forall x | x in rest ensures x.grantId != id {
          var k :| 0 <= k < |rest| && rest[k] == x;
          assert drawn[k + 1] == x;
        }
        SpentNone(rest, id);
        assert Draws([a], id) == [a];
        SumBySnoc([], a, (x: Allocation) => x.credits);
        assert [] + [a] == [a];
        assert a in drawn;
      } else {
        SpentNone([a], id);
        SpentOnce(rest, id);
        assert forall x | x in rest :: x in drawn;
      }
    }
  }

  lemma {:induction false} OneOwner(grants: seq<Grant>, workspace: nat, id: nat, credits: int, owner: Grant)
    requires UniqueIds(grants)
    requires owner in grants && owner.id == id && Balance.Owned(owner, workspace)
    ensures SumBy(grants, (g: Grant) => if Balance.Owned(g, workspace) && g.id == id then credits else 0) == credits
  {
    var f := (g: Grant) => if Balance.Owned(g, workspace) && g.id == id then credits else 0;
    if grants[0].id == id {
      forall g | g in grants[1..] ensures f(g) == 0 {
        var k :| 0 <= k < |grants[1..]| && grants[1..][k] == g;
        assert grants[k + 1] == g;
      }
      SumByEqual(grants[1..], f, (g: Grant) => 0);
      ZeroSum(grants[1..]);
      var k :| 0 <= k < |grants| && grants[k] == owner;
    } else {
      var k :| 0 <= k < |grants| && grants[k] == owner;
      assert grants[1..][k - 1] == owner;
      assert UniqueIds(grants[1..]);
      OneOwner(grants[1..], workspace, id, credits, owner);
    }
  }

  lemma {:induction false} ZeroSum(grants: seq<Grant>)
    ensures SumBy(grants, (g: Grant) => 0) == 0
  {
    if grants != [] {
      ZeroSum(grants[1..]);
    }
  }

  // Charged allocations land on exactly one grant each, so nothing is counted
  // twice when they are summed per grant.
  lemma {:induction false} SpentAcrossGrants(grants: seq<Grant>, drawn: seq<Allocation>, workspace: nat)
    requires UniqueIds(grants)
    requires forall a | a in drawn :: exists g | g in grants :: g.id == a.grantId && Balance.Owned(g, workspace)
    ensures SumBy(grants, (g: Grant) => if Balance.Owned(g, workspace) then Spent(drawn, g.id) else 0)
         == SumBy(drawn, (a: Allocation) => a.credits)
  {
    var f := (g: Grant) => if Balance.Owned(g, workspace) then Spent(drawn, g.id) else 0;
    if drawn == [] {
      SumByEqual(grants, f, (g: Grant) => 0);
      ZeroSum(grants);
    } else {
      var a, rest := drawn[0], drawn[1..];
      assert a in drawn;
      assert forall x | x in rest :: x in drawn;
      var owner :| owner in grants && owner.id == a.grantId && Balance.Owned(owner, workspace);
      SpentAcrossGrants(grants, rest, workspace);
      OneOwner(grants, workspace, a.grantId, a.credits, owner);
      var f0 := (g: Grant) => if Balance.Owned(g, workspace) && g.id == a.grantId then a.credits else 0;
      var f1 := (g: Grant) => if Balance.Owned(g, workspace) then Spent(rest, g.id) else 0;
      forall g | g in grants ensures f(g) == f0(g) + f1(g) {
        if a.grantId == g.id {
          assert Draws(drawn, g.id) == [a] + Draws(rest, g.id);
        }
      }
      SumByPlus(grants, f0, f1, f);
    }
  }

  lemma SpentElsewhere(grants: seq<Grant>, drawn: seq<Allocation>, workspace: nat)
    requires forall a, g | a in drawn && g in grants && Balance.Owned(g, workspace) :: g.id != a.grantId
    ensures SumBy(grants, (g: Grant) => if Balance.Owned(g, workspace) then Spent(drawn, g.id) else 0) == 0
  {
    var f := (g: Grant) => if Balance.Owned(g, workspace) then Spent(drawn, g.id) else 0;
    forall g | g in grants ensures f(g) == 0 {
      if Balance.Owned(g, workspace) {
        SpentNone(drawn, g.id);
      }
    }
    SumByEqual(grants, f, (g: Grant) => 0);
    ZeroSum(grants);
  }

  // What a metered run writes: paid for by live grants of its workspace, at
  // most one entry per grant and within what it holds.
  ghost predicate GoodCharges(s: State, workspace: nat, charge: nat, drawn: seq<Allocation>) {
    && (forall i, j | 0 <= i < j < |drawn| :: drawn[i].grantId != drawn[j].grantId)
    && (forall a | a in drawn :: a.credits > 0 && exists g | g in s.grants ::
          g.id == a.grantId && Spendable(g, workspace, s.now) && a.credits <= g.credits - Spent(s.allocations, g.id))
    && 0 <= SumBy(drawn, (a: Allocation) => a.credits) <= charge
  }

  lemma ChargesAreGood(s: State, workspace: nat, charge: nat, rows: seq<GrantRow>)
    requires Inv(s) && SpendingAnswer(s, workspace, rows)
    ensures GoodCharges(s, workspace, charge, Charges(SpendPlan.Allocations(Planner(rows), charge), s.nextId))
  {
    var planned := SpendPlan.Allocations(Planner(rows), charge);
    var drawn := Charges(planned, s.nextId);
    AnswerFacts(s, workspace, rows);
    SpendPlan.PlanTakesOnce(Planner(rows), charge);
    SpendPlan.PlanTotal(Planner(rows), charge);
    SumByZero(Planner(rows), SpendPlan.Holding);
    ChargesFacts(planned, s.nextId);
    forall a | a in drawn
      ensures a.credits > 0 && exists g | g in s.grants ::
          g.id == a.grantId && Spendable(g, workspace, s.now) && a.credits <= g.credits - Spent(s.allocations, g.id)
    {
      var i :| 0 <= i < |drawn| && drawn[i] == a;
      assert planned[i] in planned;
      var p :| p in Planner(rows) && p.id == a.grantId && 0 < a.credits <= p.remaining;
    }
  }

  lemma SoundAfterCharges(s: State, workspace: nat, charge: nat, drawn: seq<Allocation>)
    requires Inv(s) && GoodCharges(s, workspace, charge, drawn)
    ensures Rollover.Sound(s.grants, s.allocations + drawn)
  {
    forall g | g in s.grants ensures 0 <= Spent(s.allocations + drawn, g.id) <= g.credits {
      SpentAppend(s.allocations, drawn, g.id);
      SpentOnce(drawn, g.id);
      if Spent(drawn, g.id) != 0 {
        var a :| a in drawn && a.grantId == g.id && Spent(drawn, g.id) == a.credits;
        var payer :| payer in s.grants && payer.id == a.grantId &&
                     a.credits <= payer.credits - Spent(s.allocations, payer.id);
        var i :| 0 <= i < |s.grants| && s.grants[i] == g;
        var j :| 0 <= j < |s.grants| && s.grants[j] == payer;
        assert i == j;
      }
    }
  }

  lemma AllocatedAfterCharges(s: State, workspace: nat, charge: nat, drawn: seq<Allocation>, w: nat, s': State)
    requires Inv(s) && GoodCharges(s, workspace, charge, drawn)
    requires s'.grants == s.grants && s'.allocations == s.allocations + drawn
    ensures AllocatedTo(s', w)
         == AllocatedTo(s, w) + if w == workspace then SumBy(drawn, (a: Allocation) => a.credits) else 0
  {
    var before := (g: Grant) => if Balance.Owned(g, w) then Spent(s.allocations, g.id) else 0;
    var added := (g: Grant) => if Balance.Owned(g, w) then Spent(drawn, g.id) else 0;
    var after := (g: Grant) => if Balance.Owned(g, w) then Spent(s'.allocations, g.id) else 0;
    forall g | g in s.grants ensures after(g) == before(g) + added(g) {
      SpentAppend(s.allocations, drawn, g.id);
    }
    SumByPlus(s.grants, before, added, after);
    if w == workspace {
      SpentAcrossGrants(s.grants, drawn, w);
    } else {
      forall a, g | a in drawn && g in s.grants && Balance.Owned(g, w) ensures g.id != a.grantId {
        var payer :| payer in s.grants && payer.id == a.grantId && Spendable(payer, workspace, s.now);
        var i :| 0 <= i < |s.grants| && s.grants[i] == g;
        var j :| 0 <= j < |s.grants| && s.grants[j] == payer;
        assert i != j;
      }
      SpentElsewhere(s.grants, drawn, w);
    }
  }

  lemma UsedAfter(events: seq<Event>, e: Event, w: nat)
    ensures Balance.UsedBy(events + [e], w) == Balance.UsedBy(events, w) + if e.workspace == w then e.creditsUsed else 0
  {
    var mine := (x: Event) => x.workspace == w;
    FilterAppend(events, [e], mine);
    if e.workspace == w {
      FilterAll([e], mine);
      SumBySnoc(Filter(events, mine), e, (x: Event) => x.creditsUsed);
    } else {
      FilterNone([e], mine);
      assert Filter(events, mine) + [] == Filter(events, mine);
    }
  }

  lemma RecordedKeepsInv(s: State, workspace: nat, charge: nat, rows: seq<GrantRow>)
    requires Inv(s) && SpendingAnswer(s, workspace, rows)
    ensures Inv(Recorded(s, workspace, charge, rows))
    ensures forall w: nat :: Shortfall(Recorded(s, workspace, charge, rows), w) >= Shortfall(s, w)
  {
    var s' := Recorded(s, workspace, charge, rows);
    var drawn := Charges(SpendPlan.Allocations(Planner(rows), charge), s.nextId);
    ChargesAreGood(s, workspace, charge, rows);
    SoundAfterCharges(s, workspace, charge, drawn);
    forall w: nat ensures Shortfall(s', w) >= Shortfall(s, w) {
      AllocatedAfterCharges(s, workspace, charge, drawn, w, s');
      UsedAfter(s.events, Event(s.nextId, workspace, charge), w);
    }
    forall a | a in s'.allocations ensures exists g | g in s'.grants :: g.id == a.grantId {
      if a in s.allocations { } else { assert a in drawn; }
    }
    forall w: nat ensures Shortfall(s', w) >= 0 {
      assert Shortfall(s', w) >= Shortfall(s, w);
    }
  }

  lemma GrantedKeepsInv(s: State, workspace: nat, bucket: Bucket, credits: nat, expiresAt: Option<int>,
                        paid: Option<int>)
    requires Inv(s)
    ensures Inv(Granted(s, workspace, bucket, credits, expiresAt, paid))
    ensures forall w: nat :: Shortfall(Granted(s, workspace, bucket, credits, expiresAt, paid), w) == Shortfall(s, w)
  {
    var s' := Granted(s, workspace, bucket, credits, expiresAt, paid);
    var g := s'.grants[|s.grants|];
    assert forall a | a in s.allocations :: a.grantId != s.nextId;
    SpentNone(s.allocations, s.nextId);
    forall x | x in s'.grants ensures 0 <= Spent(s'.allocations, x.id) <= x.credits {
      if x in s.grants { } else { assert x == g; }
    }
    forall w: nat ensures Shortfall(s', w) == Shortfall(s, w) {
      SumBySnoc(s.grants, g, (x: Grant) => if Balance.Owned(x, w) then Spent(s.allocations, x.id) else 0);
    }
    forall a | a in s'.allocations ensures exists x | x in s'.grants :: x.id == a.grantId {
      var x :| x in s.grants && x.id == a.grantId;
      assert x in s'.grants;
    }
    forall w: nat ensures Shortfall(s', w) >= 0 {
      assert Shortfall(s', w) == Shortfall(s, w);
    }
  }

  lemma RenewedKeepsInv(s: State, workspace: nat, allowance: nat, price: int, seats: int, periodEnd: int)
    requires Inv(s)
    ensures Inv(Renewed(s, workspace, allowance, price, seats, periodEnd))
    ensures forall w: nat :: Shortfall(Renewed(s, workspace, allowance, price, seats, periodEnd), w) == Shortfall(s, w)
  {
    if Carried(s, workspace) > 0 {
      GrantedKeepsInv(s, workspace, Bucket.Rollover, Carried(s, workspace), Some(periodEnd), None);
    }
    var s1 := WithRollover(s, workspace, periodEnd);
    GrantedKeepsInv(s1, workspace, Plan, allowance, Some(periodEnd), Some(price));
    var s2 := Granted(s1, workspace, Plan, allowance, Some(periodEnd), Some(price));
    if SeatBonusFor(seats) > 0 {
      GrantedKeepsInv(s2, workspace, Reward, SeatBonusFor(seats), None, None);
    }
    var s3 := WithBonus(s2, workspace, seats);
    var s' := Renewed(s, workspace, allowance, price, seats, periodEnd);
    assert s' == s3.(renewals := s'.renewals);
    forall w: nat ensures Shortfall(s', w) == Shortfall(s, w) {
      assert Shortfall(s3, w) == Shortfall(s2, w) == Shortfall(s1, w) == Shortfall(s, w);
      assert Shortfall(s', w) == Shortfall(s3, w);
    }
    forall w: nat ensures Shortfall(s', w) >= 0 {
      assert Shortfall(s', w) == Shortfall(s, w);
    }
  }

  lemma StepKeepsInv(s: State, op: Op, s': State)
    requires Inv(s) && Step(s, op, s')
    ensures Inv(s')
    ensures forall w: nat :: Shortfall(s', w) >= Shortfall(s, w)
  {
    match op
    case MeterRun(w, charge) =>
      var rows :| SpendingAnswer(s, w, rows) && s' == Recorded(s, w, charge, rows);
      RecordedKeepsInv(s, w, charge, rows);
    case AddGrant(w, b, credits, e, paid) =>
      GrantedKeepsInv(s, w, b, credits, e, paid);
    case Renew(w, allowance, price, seats, end) =>
      RenewedKeepsInv(s, w, allowance, price, seats, end);
    case Tick(seconds) =>
      forall w: nat ensures Shortfall(s', w) == Shortfall(s, w) { }
  }

  ghost predicate StepAt(states: seq<State>, ops: seq<Op>, i: nat)
    requires |states| == |ops| + 1 && i < |ops|
  {
    Step(states[i], ops[i], states[i + 1])
  }

  ghost predicate Run(states: seq<State>, ops: seq<Op>) {
    |states| == |ops| + 1 && forall i | 0 <= i < |ops| :: StepAt(states, ops, i)
  }

  lemma RunStep(states: seq<State>, ops: seq<Op>, i: nat)
    requires Run(states, ops) && i < |ops| && Inv(states[i])
    ensures Inv(states[i + 1])
    ensures forall w: nat :: Shortfall(states[i + 1], w) >= Shortfall(states[i], w)
  {
    assert StepAt(states, ops, i);
    StepKeepsInv(states[i], ops[i], states[i + 1]);
  }

  lemma {:induction false} RunStaysSound(states: seq<State>, ops: seq<Op>, i: nat)
    requires Run(states, ops) && Inv(states[0]) && i < |states|
    ensures Inv(states[i])
  {
    if i > 0 {
      RunStaysSound(states, ops, i - 1);
      RunStep(states, ops, i - 1);
    }
  }

  lemma RunStepGrows(states: seq<State>, ops: seq<Op>, i: nat, w: nat)
    requires Run(states, ops) && Inv(states[0]) && i < |ops|
    ensures Shortfall(states[i], w) <= Shortfall(states[i + 1], w)
  {
    RunStaysSound(states, ops, i);
    RunStep(states, ops, i);
  }

  lemma {:induction false} ShortfallGrows(states: seq<State>, ops: seq<Op>, i: nat, j: nat, w: nat)
    requires Run(states, ops) && Inv(states[0]) && i <= j < |states|
    ensures Shortfall(states[i], w) <= Shortfall(states[j], w)
    decreases j
  {
    if i < j {
      ShortfallGrows(states, ops, i, j - 1, w);
      RunStepGrows(states, ops, j - 1, w);
    }
  }

  // Over every run, no grant is ever overdrawn and the shortfall of every
  // workspace is non-negative and never shrinks.
  lemma RunKeepsInv(states: seq<State>, ops: seq<Op>, i: nat, j: nat)
    requires Run(states, ops) && Inv(states[0])
    requires i <= j < |states|
    ensures Inv(states[i]) && Inv(states[j])
    ensures forall w: nat :: 0 <= Shortfall(states[i], w) <= Shortfall(states[j], w)
  {
    RunStaysSound(states, ops, i);
    RunStaysSound(states, ops, j);
    forall w: nat ensures Shortfall(states[i], w) <= Shortfall(states[j], w) {
      ShortfallGrows(states, ops, i, j, w);
    }
  }

  // Credits are conserved: everything granted is live, expired or allocated.
  lemma Conservation(s: State, workspace: nat)
    requires Inv(s)
    ensures Balance.GrantedTo(s.grants, workspace)
         == Balance.LiveBalance(s.grants, s.allocations, workspace, s.now)
          + Balance.ExpiredCredits(s.grants, s.allocations, workspace, s.now)
          + AllocatedTo(s, workspace)
  {
    var granted := (g: Grant) => if Balance.Owned(g, workspace) then g.credits else 0;
    var live := (g: Grant) => if Balance.Owned(g, workspace) && Live(g, s.now) then Remaining(g, s.allocations) else 0;
    var dead := (g: Grant) => if Balance.Owned(g, workspace) && !Live(g, s.now) then Remaining(g, s.allocations) else 0;
    var left := (g: Grant) => if Balance.Owned(g, workspace) then Remaining(g, s.allocations) else 0;
    var spent := (g: Grant) => if Balance.Owned(g, workspace) then Spent(s.allocations, g.id) else 0;
    SumByPlus(s.grants, live, dead, left);
    SumByPlus(s.grants, left, spent, granted);
  }

  // ---- the balance is exactly what can be spent ------------------------------

  lemma {:induction false} PlannerHolds(rows: seq<GrantRow>)
    requires forall r | r in rows :: r.grant.credits > r.spent
    ensures SumBy(Planner(rows), SpendPlan.Holding) == SumBy(rows, Balance.RowLeft)
  {
    if rows != [] {
      PlannerHolds(rows[1..]);
    }
  }

  lemma SpendableIsBalance(s: State, workspace: nat, rows: seq<GrantRow>)
    requires Inv(s) && SpendingAnswer(s, workspace, rows)
    ensures SumBy(Planner(rows), SpendPlan.Holding)
         == Balance.LiveBalance(s.grants, s.allocations, workspace, s.now)
  {
    var wanted := (g: Grant) => Spendable(g, workspace, s.now);
    var having := (r: GrantRow) => r.grant.credits > r.spent;
    var all :| multiset(all) == multiset(GroupedQuery(s.grants, s.allocations, wanted)) && rows == HavingCredits(all);
    var chosen := Filter(s.grants, wanted);
    FilterMembers(all, having);
    PlannerHolds(rows);
    SumByFilter(all, having, Balance.RowLeft, Balance.RowLeft);
    SumByPermutation(all, GroupedQuery(s.grants, s.allocations, wanted), Balance.RowLeft);
    GroupedQueryMeaning(s.grants, s.allocations, wanted);
    GrantRowsSum(chosen, s.allocations, Balance.RowLeft, (g: Grant) => Remaining(g, s.allocations));
    SumByFilter(s.grants, wanted, (g: Grant) => Remaining(g, s.allocations), (g: Grant) =>
      if Balance.Owned(g, workspace) && Live(g, s.now) then Remaining(g, s.allocations) else 0);
  }

  // A run the workspace can afford is paid in full; otherwise it drains the
  // balance to zero and the gap is added to the visible shortfall.
  lemma RunSettlesAgainstBalance(s: State, workspace: nat, charge: nat, rows: seq<GrantRow>)
    requires Inv(s) && SpendingAnswer(s, workspace, rows)
    ensures
      var s' := Recorded(s, workspace, charge, rows);
      var balance := Balance.LiveBalance(s.grants, s.allocations, workspace, s.now);
      && Balance.LiveBalance(s'.grants, s'.allocations, workspace, s'.now) == Max(0, balance - charge)
      && Shortfall(s', workspace) == Shortfall(s, workspace) + Max(0, charge - balance)
  {
    var s' := Recorded(s, workspace, charge, rows);
    var planned := SpendPlan.Allocations(Planner(rows), charge);
    var drawn := Charges(planned, s.nextId);
    ChargesAreGood(s, workspace, charge, rows);
    ChargesFacts(planned, s.nextId);
    SpendPlan.PlanTotal(Planner(rows), charge);
    SpendableIsBalance(s, workspace, rows);
    AllocatedAfterCharges(s, workspace, charge, drawn, workspace, s');
    UsedAfter(s.events, Event(s.nextId, workspace, charge), workspace);
    RecordedKeepsInv(s, workspace, charge, rows);
    Conservation(s, workspace);
    Conservation(s', workspace);
    ExpiredUntouched(s, workspace, charge, drawn, s');
  }

  // One more event, the workspace's, with the full charge; and new allocations, each
  // naming that event, a live grant of the workspace and that grant's bucket.
  ghost predicate Charged(s: State, s': State, workspace: nat, charge: int) {
    && |s'.events| == |s.events| + 1 && s.events <= s'.events
    && s'.events[|s.events|].workspace == workspace && s'.events[|s.events|].creditsUsed == charge
    && s.allocations <= s'.allocations
    && forall a | a in s'.allocations[|s.allocations|..] ::
         && a.event == Some(s'.events[|s.events|].id) && a.credits > 0
         && exists g | g in s.grants ::
              && g.id == a.grantId && g.bucket == a.bucket && g.workspace == workspace
              && (g.expiresAt.None? || s.now < g.expiresAt.value)
  }

  lemma RecordedCharges(s: State, workspace: nat, charge: nat, rows: seq<GrantRow>)
    requires Inv(s) && SpendingAnswer(s, workspace, rows)
    ensures Charged(s, Recorded(s, workspace, charge, rows), workspace, charge)
  {
    var planned := SpendPlan.Allocations(Planner(rows), charge);
    var drawn := Charges(planned, s.nextId);
    AnswerFacts(s, workspace, rows);
    SpendPlan.PlanTakesOnce(Planner(rows), charge);
    ChargesFacts(planned, s.nextId);
    assert (s.allocations + drawn)[|s.allocations|..] == drawn;
    forall a | a in drawn
      ensures a.event == Some(s.nextId) && a.credits > 0
      ensures exists g | g in s.grants ::
                && g.id == a.grantId && g.bucket == a.bucket && g.workspace == workspace
                && (g.expiresAt.None? || s.now < g.expiresAt.value)
    {
      var k :| 0 <= k < |drawn| && drawn[k] == a;
      assert planned[k] in planned;
      var p :| p in Planner(rows) && p.id == a.grantId && p.bucket == a.bucket;
      SpendableBucket(s, workspace, rows, p);
    }
  }

  lemma SpendableBucket(s: State, workspace: nat, rows: seq<GrantRow>, p: SpendPlan.Spendable)
    requires Inv(s) && SpendingAnswer(s, workspace, rows) && p in Planner(rows)
    ensures exists g | g in s.grants :: g.id == p.id && g.bucket == p.bucket && Spendable(g, workspace, s.now)
  {
    PlannerFacts(rows);
    var k :| 0 <= k < |Planner(rows)| && Planner(rows)[k] == p;
    var all: seq<GrantRow> :|
      multiset(all) == multiset(GroupedQuery(s.grants, s.allocations, (g: Grant) => Spendable(g, workspace, s.now)))
      && rows == HavingCredits(all);
    FilterMembers(all, (r: GrantRow) => r.grant.credits > r.spent);
    assert rows[k] in all;
    QueryMembers(s.grants, s.allocations, (g: Grant) => Spendable(g, workspace, s.now), all);
    assert rows[k].grant in s.grants;
  }

  lemma ExpiredUntouched(s: State, workspace: nat, charge: nat, drawn: seq<Allocation>, s': State)
    requires Inv(s) && GoodCharges(s, workspace, charge, drawn)
    requires s'.grants == s.grants && s'.allocations == s.allocations + drawn && s'.now == s.now
    ensures Balance.ExpiredCredits(s'.grants, s'.allocations, workspace, s.now)
         == Balance.ExpiredCredits(s.grants, s.allocations, workspace, s.now)
  {
    forall g | g in s.grants && !Live(g, s.now)
      ensures Remaining(g, s'.allocations) == Remaining(g, s.allocations)
    {
      forall a | a in drawn ensures a.grantId != g.id {
        var payer :| payer in s.grants && payer.id == a.grantId && Spendable(payer, workspace, s.now);
        var i :| 0 <= i < |s.grants| && s.grants[i] == g;
        var j :| 0 <= j < |s.grants| && s.grants[j] == payer;
        assert i != j;
      }
      SpentNone(drawn, g.id);
      SpentAppend(s.allocations, drawn, g.id);
    }
    SumByEqual(s.grants,
      (g: Grant) => if Balance.Owned(g, workspace) && !Live(g, s.now) then Remaining(g, s'.allocations) else 0,
      (g: Grant) => if Balance.Owned(g, workspace) && !Live(g, s.now) then Remaining(g, s.allocations) else 0);
  }
}
