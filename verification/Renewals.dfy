// What renewals do to a balance over time: how much a renewal adds, and how
// long an allowance can survive through its rollover.
module Renewals {
  import opened Prelude
  import opened LedgerTables
  import opened LedgerRuns
  import Balance
  import Rollover

  // ---- one renewal ----------------------------------------------------------

  function BalanceOf(s: State, workspace: nat): int {
    Balance.LiveBalance(s.grants, s.allocations, workspace, s.now)
  }

  lemma GrantedAdds(s: State, workspace: nat, bucket: Bucket, credits: nat, expiresAt: Option<int>, paid: Option<int>)
    requires Inv(s)
    requires expiresAt.None? || expiresAt.value > s.now
    ensures BalanceOf(Granted(s, workspace, bucket, credits, expiresAt, paid), workspace)
         == BalanceOf(s, workspace) + credits
  {
    var g := Grant(s.nextId, workspace, bucket, credits, expiresAt, paid, s.now);
    SumBySnoc(s.grants, g, (x: Grant) =>
      if Balance.Owned(x, workspace) && Live(x, s.now) then Remaining(x, s.allocations) else 0);
    assert forall a | a in s.allocations :: a.grantId != s.nextId;
    SpentNone(s.allocations, s.nextId);
  }

  lemma WithRolloverAdds(s: State, workspace: nat, periodEnd: int)
    requires Inv(s) && periodEnd > s.now
    ensures Inv(WithRollover(s, workspace, periodEnd))
    ensures BalanceOf(WithRollover(s, workspace, periodEnd), workspace)
         == BalanceOf(s, workspace) + Carried(s, workspace)
  {
    if Carried(s, workspace) > 0 {
      GrantedKeepsInv(s, workspace, Bucket.Rollover, Carried(s, workspace), Some(periodEnd), None);
      GrantedAdds(s, workspace, Bucket.Rollover, Carried(s, workspace), Some(periodEnd), None);
    }
  }

  lemma WithBonusAdds(s: State, workspace: nat, seats: int)
    requires Inv(s)
    ensures BalanceOf(WithBonus(s, workspace, seats), workspace) == BalanceOf(s, workspace) + SeatBonusFor(seats)
  {
    if SeatBonusFor(seats) > 0 {
      GrantedAdds(s, workspace, Reward, SeatBonusFor(seats), None, None);
    }
  }

  // A renewal for a period still to come adds the carried amount on top of the
  // allowance and the bonus: the old allowance is not retired by its rollover.
  // The balance grows by exactly what was bought if and only if nothing carried.
  lemma RenewalAdds(s: State, workspace: nat, allowance: nat, price: int, seats: int, periodEnd: int)
    requires Inv(s) && periodEnd > s.now
    ensures
      var after := BalanceOf(Renewed(s, workspace, allowance, price, seats, periodEnd), workspace);
      var bought := allowance + SeatBonusFor(seats);
      && after == BalanceOf(s, workspace) + bought + Carried(s, workspace)
      && (after == BalanceOf(s, workspace) + bought <==> Carried(s, workspace) == 0)
  {
    var s1 := WithRollover(s, workspace, periodEnd);
    var s2 := Granted(s1, workspace, Plan, allowance, Some(periodEnd), Some(price));
    WithRolloverAdds(s, workspace, periodEnd);
    GrantedKeepsInv(s1, workspace, Plan, allowance, Some(periodEnd), Some(price));
    GrantedAdds(s1, workspace, Plan, allowance, Some(periodEnd), Some(price));
    WithBonusAdds(s2, workspace, seats);
  }

  // In terms of the ledger: the balance grows by what was bought exactly when every
  // live allowance is used up, in one draw unless it was empty.
  lemma RenewalAddsNoMoreIff(s: State, workspace: nat, allowance: nat, price: int, seats: int, periodEnd: int)
    requires Inv(s) && periodEnd > s.now
    ensures
      var after := BalanceOf(Renewed(s, workspace, allowance, price, seats, periodEnd), workspace);
      after == BalanceOf(s, workspace) + allowance + SeatBonusFor(seats) <==>
      forall g | g in s.grants && Rollover.PlanLive(g, workspace, s.now) ::
        Spent(s.allocations, g.id) == g.credits && (|Draws(s.allocations, g.id)| <= 1 || g.credits == 0)
  {
    RenewalAdds(s, workspace, allowance, price, seats, periodEnd);
    Rollover.NothingCarriesIff(s.grants, s.allocations, workspace, s.now);
  }

  // The ledger of one allowance of 100, drawn on twice for 10.
  function TwiceDrawn(): State {
    State([Grant(1, 7, Plan, 100, Some(50), None, 0)],
          [Allocation(Some(1), 1, Plan, 10), Allocation(Some(2), 1, Plan, 10)],
          [Event(1, 7, 10), Event(2, 7, 10)], [], 3, 0)
  }

  lemma TwiceDrawnFacts()
    ensures Inv(TwiceDrawn()) && BalanceOf(TwiceDrawn(), 7) == 80 && Carried(TwiceDrawn(), 7) == 180
  {
    var s := TwiceDrawn();
    Rollover.TwiceDrawnCarriesTooMuch();
    assert s.allocations[1..][1..] == [] && s.events[1..][1..] == [] && s.grants[1..] == [];
    assert Spent(s.allocations, 1) == 20 by {
      FilterAll(s.allocations, (a: Allocation) => a.grantId == 1);
    }
    forall w: nat ensures Shortfall(s, w) == 0 {
      if w == 7 {
        FilterAll(s.events, (e: Event) => e.workspace == w);
      } else {
        FilterNone(s.events, (e: Event) => e.workspace == w);
      }
    }
  }

  // Renewed in time for another 100: 80 were left and 100 bought, and 360 can be spent.
  lemma RenewalCopiesCredits(price: int)
    ensures BalanceOf(TwiceDrawn(), 7) == 80
    ensures BalanceOf(Renewed(TwiceDrawn(), 7, 100, price, 1, 100), 7) == 360
  {
    TwiceDrawnFacts();
    RenewalAdds(TwiceDrawn(), 7, 100, price, 1, 100);
  }

  // seatBonusFor: per seat above the free ones, from nothing up to the cap.
  lemma SeatBonusShape(seats: int, more: nat)
    ensures 0 <= SeatBonusFor(seats) <= SeatBonusFor(seats + more) <= SEAT_BONUS_CAP
    ensures SeatBonusFor(seats) == 0 <==> seats <= FREE_SEATS
    ensures SeatBonusFor(seats) == SEAT_BONUS_CAP <==> seats >= FREE_SEATS + 40
  {
  }

  // Ten thousand credits for each seat above four, for up to forty of them.
  lemma SeatBonusExact(seats: int)
    ensures seats <= 4 ==> SeatBonusFor(seats) == 0
    ensures 4 <= seats <= 44 ==> SeatBonusFor(seats) == 10000 * (seats - 4)
    ensures seats >= 44 ==> SeatBonusFor(seats) == 400000
  {
  }

  // ---- what a grant is worth, bucket by bucket, at every later instant -------------

  function BucketAt(s: State, workspace: nat, b: Bucket, t: int): int {
    Balance.BucketBalance(s.grants, s.allocations, workspace, t, b)
  }

  function PaidAt(s: State, workspace: nat): int {
    Balance.PaidBy(s.grants, workspace)
  }

  // s' is s with one more grant: this workspace's, worth `credits` of one bucket for
  // as long as it lives, `paid` cents; every other pot of every workspace is as it was.
  ghost predicate OneMore(s: State, s': State, workspace: nat, bucket: Bucket, credits: int, expiresAt: Option<int>,
                          paid: int) {
    && (forall w: nat, b: Bucket, t: int ::
          BucketAt(s', w, b, t) == BucketAt(s, w, b, t)
            + (if w == workspace && b == bucket && (expiresAt.None? || t < expiresAt.value) then credits else 0))
    && (forall w: nat :: PaidAt(s', w) == PaidAt(s, w) + (if w == workspace then paid else 0))
  }

  lemma GrantedIsOneMore(s: State, workspace: nat, bucket: Bucket, credits: nat, expiresAt: Option<int>,
                         paid: Option<int>)
    requires Inv(s)
    ensures OneMore(s, Granted(s, workspace, bucket, credits, expiresAt, paid), workspace, bucket, credits, expiresAt,
                    paid.GetOr(0))
    ensures
      var s' := Granted(s, workspace, bucket, credits, expiresAt, paid);
      && s'.grants != [] && s'.grants[..|s'.grants| - 1] == s.grants
      && s'.grants[|s'.grants| - 1].createdAt == s.now && s'.allocations == s.allocations && s'.events == s.events
  {
    var g := Grant(s.nextId, workspace, bucket, credits, expiresAt, paid, s.now);
    var s' := Granted(s, workspace, bucket, credits, expiresAt, paid);
    assert forall a | a in s.allocations :: a.grantId != s.nextId;
    SpentNone(s.allocations, s.nextId);
    forall w: nat, b: Bucket, t: int
      ensures BucketAt(s', w, b, t) == BucketAt(s, w, b, t)
                + (if w == workspace && b == bucket && (expiresAt.None? || t < expiresAt.value) then credits else 0)
    {
      SumBySnoc(s.grants, g, (x: Grant) =>
        if Balance.Owned(x, w) && Live(x, t) && x.bucket == b then Remaining(x, s.allocations) else 0);
    }
    forall w: nat ensures PaidAt(s', w) == PaidAt(s, w) + (if w == workspace then paid.GetOr(0) else 0) {
      SumBySnoc(s.grants, g, (x: Grant) => if Balance.Owned(x, w) then Balance.PaidCents(x) else 0);
    }
  }

  // What a renewal is worth, at every instant with no other step in between: the
  // bonus for good, the allowance and what was carried until the period ends, and
  // nothing to any other pot or workspace.
  ghost predicate Renews(s: State, s': State, workspace: nat, allowance: int, price: int, seats: int, periodEnd: int) {
    && (forall w: nat, b: Bucket, t: int :: BucketAt(s', w, b, t) == BucketAt(s, w, b, t)
          + (if w != workspace then 0
             else match b
               case Reward => SeatBonusFor(seats)
               case Plan => if t < periodEnd then allowance else 0
               case Rollover => if t < periodEnd then Carried(s, workspace) else 0
               case TopUp => 0))
    && (forall w: nat :: PaidAt(s', w) == PaidAt(s, w) + (if w == workspace then price else 0))
  }

  lemma RolloverIsOneMore(s: State, workspace: nat, periodEnd: int)
    requires Inv(s)
    ensures Inv(WithRollover(s, workspace, periodEnd))
    ensures OneMore(s, WithRollover(s, workspace, periodEnd), workspace, Bucket.Rollover, Carried(s, workspace),
                    Some(periodEnd), 0)
  {
    if Carried(s, workspace) > 0 {
      GrantedKeepsInv(s, workspace, Bucket.Rollover, Carried(s, workspace), Some(periodEnd), None);
      GrantedIsOneMore(s, workspace, Bucket.Rollover, Carried(s, workspace), Some(periodEnd), None);
    }
  }

  lemma BonusIsOneMore(s: State, workspace: nat, seats: int)
    requires Inv(s)
    ensures OneMore(s, WithBonus(s, workspace, seats), workspace, Reward, SeatBonusFor(seats), None, 0)
  {
    if SeatBonusFor(seats) > 0 {
      GrantedIsOneMore(s, workspace, Reward, SeatBonusFor(seats), None, None);
    }
  }

  lemma RenewedIsWorth(s: State, workspace: nat, allowance: nat, price: int, seats: int, periodEnd: int)
    requires Inv(s)
    ensures Renews(s, Renewed(s, workspace, allowance, price, seats, periodEnd), workspace, allowance, price, seats,
                   periodEnd)
  {
    var s1 := WithRollover(s, workspace, periodEnd);
    var s2 := Granted(s1, workspace, Plan, allowance, Some(periodEnd), Some(price));
    RolloverIsOneMore(s, workspace, periodEnd);
    GrantedKeepsInv(s1, workspace, Plan, allowance, Some(periodEnd), Some(price));
    GrantedIsOneMore(s1, workspace, Plan, allowance, Some(periodEnd), Some(price));
    BonusIsOneMore(s2, workspace, seats);
    ThreeMore(s, s1, s2, WithBonus(s2, workspace, seats), workspace, allowance, price, seats, periodEnd);
  }

  lemma ThreeMore(s: State, s1: State, s2: State, s3: State, workspace: nat, allowance: nat, price: int, seats: int,
                  periodEnd: int)
    requires OneMore(s, s1, workspace, Bucket.Rollover, Carried(s, workspace), Some(periodEnd), 0)
    requires OneMore(s1, s2, workspace, Plan, allowance, Some(periodEnd), price)
    requires OneMore(s2, s3, workspace, Reward, SeatBonusFor(seats), None, 0)
    ensures Renews(s, s3, workspace, allowance, price, seats, periodEnd)
  {
  }

  // ---- provenance over whole runs --------------------------------------------

  ghost predicate HasGrant(grants: seq<Grant>, id: nat, bucket: Bucket, workspace: nat, expiresAt: int) {
    exists g | g in grants :: g == Grant(id, workspace, bucket, g.credits, Some(expiresAt), g.paidCents, g.createdAt)
  }

  // One history entry agrees with the grants table.
  ghost predicate InLedger(s: State, r: Renewal) {
    && HasGrant(s.grants, r.planGrant, Plan, r.workspace, r.periodEnd)
    && (r.rollover.Some? ==> HasGrant(s.grants, r.rollover.value, Bucket.Rollover, r.workspace, r.periodEnd))
    && (forall id | id in r.measured :: exists g | g in s.grants ::
          g.id == id && g.bucket == Plan && g.workspace == r.workspace && Live(g, r.at))
  }

  ghost predicate HistoryInv(s: State) {
    && Inv(s)
    && (forall r | r in s.renewals :: InLedger(s, r) && r.at <= s.now)
  }

  lemma GrantsOnlyGrow(s: State, op: Op, s': State)
    requires Step(s, op, s')
    ensures s.grants <= s'.grants
  {
  }

  lemma RecordedStays(s: State, s': State, r: Renewal)
    requires InLedger(s, r) && s.grants <= s'.grants
    ensures InLedger(s', r)
  {
    forall g | g in s.grants ensures g in s'.grants {
      var i :| 0 <= i < |s.grants| && s.grants[i] == g;
      assert s'.grants[i] == g;
    }
    var plan :| plan in s.grants
                && plan == Grant(r.planGrant, r.workspace, Plan, plan.credits,
                                 Some(r.periodEnd), plan.paidCents, plan.createdAt);
    assert plan in s'.grants;
    if r.rollover.Some? {
      var over :| over in s.grants
                  && over == Grant(r.rollover.value, r.workspace, Bucket.Rollover, over.credits,
                                   Some(r.periodEnd), over.paidCents, over.createdAt);
      assert over in s'.grants;
    }
    forall id | id in r.measured
      ensures exists g | g in s'.grants :: g.id == id && g.bucket == Plan && g.workspace == r.workspace && Live(g, r.at)
    {
      var g :| g in s.grants && g.id == id && g.bucket == Plan && g.workspace == r.workspace && Live(g, r.at);
      assert g in s'.grants;
    }
  }

  lemma {:induction false} IdsOfMembers(grants: seq<Grant>)
    ensures forall id | id in IdsOf(grants) :: exists g | g in grants :: g.id == id
  {
    if grants != [] {
      IdsOfMembers(grants[1..]);
      forall id | id in IdsOf(grants) ensures exists g | g in grants :: g.id == id {
        if id == grants[0].id {
          assert grants[0] in grants;
        } else {
          assert id in IdsOf(grants[1..]);
          var g :| g in grants[1..] && g.id == id;
          assert g in grants;
        }
      }
    }
  }

  lemma NewEntryRecorded(s: State, workspace: nat, allowance: nat, price: int, seats: int, periodEnd: int)
    requires Inv(s)
    ensures
      var s' := Renewed(s, workspace, allowance, price, seats, periodEnd);
      InLedger(s', s'.renewals[|s.renewals|])
  {
    var s' := Renewed(s, workspace, allowance, price, seats, periodEnd);
    var r := s'.renewals[|s.renewals|];
    var carried := Rollover.UnspentPlanCredits(s.grants, s.allocations, workspace, s.now);
    var n := |s.grants|;
    if carried > 0 {
      assert s'.grants[n] in s'.grants && s'.grants[n + 1] in s'.grants;
      assert s'.grants[n] == Grant(s.nextId, workspace, Bucket.Rollover, carried, Some(periodEnd), None, s.now);
      assert s'.grants[n + 1] == Grant(r.planGrant, workspace, Plan, allowance, Some(periodEnd), Some(price), s.now);
    } else {
      assert s'.grants[n] in s'.grants;
      assert s'.grants[n] == Grant(r.planGrant, workspace, Plan, allowance, Some(periodEnd), Some(price), s.now);
    }
    var chosen := Rollover.PlanLiveGrants(s.grants, workspace, s.now);
    IdsOfMembers(chosen);
    FilterMembers(s.grants, (g: Grant) => Rollover.PlanLive(g, workspace, s.now));
    forall id | id in r.measured
      ensures exists g | g in s'.grants :: g.id == id && g.bucket == Plan && g.workspace == r.workspace && Live(g, r.at)
    {
      var g :| g in chosen && g.id == id;
      var i :| 0 <= i < |s.grants| && s.grants[i] == g;
      assert s'.grants[i] == g;
    }
  }

  lemma StepKeepsHistory(s: State, op: Op, s': State)
    requires HistoryInv(s) && Step(s, op, s')
    ensures HistoryInv(s')
  {
    StepKeepsInv(s, op, s');
    GrantsOnlyGrow(s, op, s');
    forall r | r in s'.renewals ensures InLedger(s', r) && r.at <= s'.now {
      if r in s.renewals {
        RecordedStays(s, s', r);
      } else {
        assert op.Renew?;
        NewEntryRecorded(s, op.workspace, op.allowance, op.price, op.seats, op.periodEnd);
        assert r == s'.renewals[|s.renewals|];
      }
    }
  }

  lemma {:induction false} RunKeepsHistory(states: seq<State>, ops: seq<Op>, i: nat)
    requires Run(states, ops) && HistoryInv(states[0]) && i < |states|
    ensures HistoryInv(states[i])
  {
    if i > 0 {
      RunKeepsHistory(states, ops, i - 1);
      assert StepAt(states, ops, i - 1);
      StepKeepsHistory(states[i - 1], ops[i - 1], states[i]);
    }
  }

  function RenewalsOf(s: State, workspace: nat): seq<Renewal> {
    Filter(s.renewals, (r: Renewal) => r.workspace == workspace)
  }

  // On schedule: periods do not shrink, and a second renewal never arrives
  // inside a period that began two renewals earlier.
  ghost predicate OnSchedule(rs: seq<Renewal>) {
    && (forall i, j | 0 <= i <= j < |rs| :: rs[i].periodEnd <= rs[j].periodEnd)
    && (forall i, j | 0 <= i && i + 2 <= j < |rs| :: rs[j].at >= rs[i].periodEnd)
  }

  // A grant holding credits of allowance i: the allowance itself, or the
  // rollover minted by a renewal that measured it.
  ghost predicate Carries(rs: seq<Renewal>, i: nat, id: nat) {
    && i < |rs|
    && (id == rs[i].planGrant
        || exists j | i < j < |rs| :: rs[i].planGrant in rs[j].measured && rs[j].rollover == Some(id))
  }

  lemma SameId(grants: seq<Grant>, a: Grant, b: Grant)
    requires UniqueIds(grants) && a in grants && b in grants && a.id == b.id
    ensures a == b
  {
    var i :| 0 <= i < |grants| && grants[i] == a;
    var j :| 0 <= j < |grants| && grants[j] == b;
    assert i == j;
  }

  // In every reachable ledger whose renewals ran on schedule, nothing of an
  // allowance is spendable once the following period has ended.
  lemma AllowanceIsGone(s: State, workspace: nat, i: nat, g: Grant, now: int)
    requires HistoryInv(s)
    requires OnSchedule(RenewalsOf(s, workspace))
    requires i + 1 < |RenewalsOf(s, workspace)|
    requires g in s.grants && Carries(RenewalsOf(s, workspace), i, g.id)
    requires now >= RenewalsOf(s, workspace)[i + 1].periodEnd
    ensures !Live(g, now)
  {
    var rs := RenewalsOf(s, workspace);
    FilterMembers(s.renewals, (r: Renewal) => r.workspace == workspace);
    assert rs[i] in s.renewals;
    var plan :| plan in s.grants
                && plan == Grant(rs[i].planGrant, rs[i].workspace, Plan, plan.credits,
                                 Some(rs[i].periodEnd), plan.paidCents, plan.createdAt);
    if g.id == rs[i].planGrant {
      SameId(s.grants, g, plan);
    } else {
      var j :| i < j < |rs| && rs[i].planGrant in rs[j].measured && rs[j].rollover == Some(g.id);
      assert rs[j] in s.renewals;
      var seen :| seen in s.grants && seen.id == rs[i].planGrant && seen.bucket == Plan && Live(seen, rs[j].at);
      SameId(s.grants, seen, plan);
      assert j == i + 1;
      var over :| over in s.grants
                  && over == Grant(g.id, rs[j].workspace, Bucket.Rollover, over.credits,
                                   Some(rs[j].periodEnd), over.paidCents, over.createdAt);
      SameId(s.grants, g, over);
    }
  }

  // A rollover is never measured again, so nothing rolls twice.
  lemma RolloverNeverRolls(s: State, r: Renewal, later: Renewal)
    requires HistoryInv(s) && r in s.renewals && later in s.renewals && r.rollover.Some?
    ensures r.rollover.value !in later.measured
  {
    if r.rollover.value in later.measured {
      var seen :| seen in s.grants && seen.id == r.rollover.value && seen.bucket == Plan;
      var over :| over in s.grants
                  && over == Grant(r.rollover.value, r.workspace, Bucket.Rollover, over.credits,
                                   Some(r.periodEnd), over.paidCents, over.createdAt);
      SameId(s.grants, seen, over);
    }
  }
}
