// The service object over the ledger tables. Every method that writes is proved
// to take exactly one step of the LedgerRuns machine, so what that machine keeps
// over all runs holds of the tables.
module UsageService {
  import opened Prelude
  import opened LedgerTables
  import opened LedgerRuns
  import SpendPlan
  import Rollover
  import Renewals

  // ---- ORDER BY "createdAt" ASC ----------------------------------------------

  ghost predicate Oldest(rows: seq<GrantRow>) {
    forall i, j | 0 <= i < j < |rows| :: rows[i].grant.createdAt <= rows[j].grant.createdAt
  }

  function Insert(row: GrantRow, rows: seq<GrantRow>): seq<GrantRow> {
    if rows == [] || row.grant.createdAt <= rows[0].grant.createdAt then [row] + rows
    else [rows[0]] + Insert(row, rows[1..])
  }

  function OldestFirst(rows: seq<GrantRow>): seq<GrantRow> {
    if rows == [] then [] else Insert(rows[0], OldestFirst(rows[1..]))
  }

  lemma {:induction false} InsertKeepsRows(row: GrantRow, rows: seq<GrantRow>)
    ensures multiset(Insert(row, rows)) == multiset{row} + multiset(rows)
  {
    if rows != [] && row.grant.createdAt > rows[0].grant.createdAt {
      InsertKeepsRows(row, rows[1..]);
      assert rows == [rows[0]] + rows[1..];
      assert Insert(row, rows) == [rows[0]] + Insert(row, rows[1..]);
    }
  }

  lemma {:induction false} InsertKeepsOrder(row: GrantRow, rows: seq<GrantRow>)
    requires Oldest(rows)
    ensures Oldest(Insert(row, rows))
    ensures forall r | r in Insert(row, rows) :: r == row || r in rows
  {
    if rows != [] && row.grant.createdAt > rows[0].grant.createdAt {
      assert forall r | r in rows[1..] :: r in rows;
      InsertKeepsOrder(row, rows[1..]);
      forall r | r in Insert(row, rows[1..]) ensures rows[0].grant.createdAt <= r.grant.createdAt {
        if r != row {
          var k :| 0 <= k < |rows[1..]| && rows[1..][k] == r;
          assert rows[k + 1] == r;
        }
      }
    }
  }

  lemma {:induction false} OldestFirstFacts(rows: seq<GrantRow>)
    ensures Oldest(OldestFirst(rows))
    ensures multiset(OldestFirst(rows)) == multiset(rows)
  {
    if rows != [] {
      OldestFirstFacts(rows[1..]);
      InsertKeepsRows(rows[0], OldestFirst(rows[1..]));
      InsertKeepsOrder(rows[0], OldestFirst(rows[1..]));
      assert rows == [rows[0]] + rows[1..];
    }
  }

  lemma {:induction false} OldestFilter(rows: seq<GrantRow>, p: GrantRow -> bool)
    requires Oldest(rows)
    ensures Oldest(Filter(rows, p))
  {
    if rows != [] {
      var tail := rows[1..];
      assert Oldest(tail);
      OldestFilter(tail, p);
      FilterMembers(tail, p);
      if p(rows[0]) {
        forall r | r in Filter(tail, p) ensures rows[0].grant.createdAt <= r.grant.createdAt {
          var k :| 0 <= k < |tail| && tail[k] == r;
          assert rows[k + 1] == r;
        }
      }
    }
  }

  class UsageService {
    var grants: seq<Grant>
    var allocations: seq<Allocation>
    var events: seq<Event>
    var nextId: nat
    ghost var renewals: seq<Renewal>

    ghost function Model(now: int): State
      reads this
    {
      State(grants, allocations, events, renewals, nextId, now)
    }

    constructor ()
      ensures grants == [] && allocations == [] && events == [] && renewals == []
      ensures forall now :: Inv(Model(now))
    {
      grants, allocations, events, nextId, renewals := [], [], [], 0, [];
    }

    method LiveGrantsForSpending(workspace: nat, now: int) returns (rows: seq<GrantRow>)
      ensures SpendingAnswer(Model(now), workspace, rows)
    {
      var query := GroupedQuery(grants, allocations, (g: Grant) => Spendable(g, workspace, now));
      var sorted := OldestFirst(query);
      OldestFirstFacts(query);
      OldestFilter(sorted, (r: GrantRow) => r.grant.credits > r.spent);
      rows := HavingCredits(sorted);
    }

    // Append one allocation row per planned draw.
    method SaveAllocations(planned: seq<SpendPlan.Planned>, event: nat)
      modifies this`allocations
      ensures allocations == old(allocations) + Charges(planned, event)
    {
      ChargesFacts(planned, event);
      ghost var rows := Charges(planned, event);
      for i := 0 to |planned|
        invariant allocations == old(allocations) + rows[..i]
      {
        allocations := allocations +
          [Allocation(Some(event), planned[i].grantId, planned[i].bucket, planned[i].credits)];
        assert rows[..i + 1] == rows[..i] + [rows[i]];
      }
      assert rows[..|planned|] == rows;
    }

    // The event records the full charge; the allocations, what paid for it.
    method RecordEvent(workspace: nat, charge: nat, now: int)
      requires Inv(Model(now))
      modifies this
      ensures Step(old(Model(now)), MeterRun(workspace, charge), Model(now))
      ensures Inv(Model(now))
      ensures grants == old(grants) && old(allocations) <= allocations
      ensures Charged(old(Model(now)), Model(now), workspace, charge)
    {
      ghost var before := Model(now);
      var event := nextId;
      events := events + [Event(event, workspace, charge)];
      nextId := nextId + 1;
      var rows := LiveGrantsForSpending(workspace, now);
      assert SpendingAnswer(before, workspace, rows);
      var planned := SpendPlan.PlanAllocations(Planner(rows), charge);
      SaveAllocations(planned, event);
      assert Model(now) == Recorded(before, workspace, charge, rows);
      RecordedKeepsInv(before, workspace, charge, rows);
      RecordedCharges(before, workspace, charge, rows);
    }

    method SaveGrant(workspace: nat, bucket: Bucket, credits: nat, expiresAt: Option<int>, paid: Option<int>, now: int)
      modifies this`grants, this`nextId
      ensures Model(now) == Granted(old(Model(now)), workspace, bucket, credits, expiresAt, paid)
    {
      grants := grants + [Grant(nextId, workspace, bucket, credits, expiresAt, paid, now)];
      nextId := nextId + 1;
    }

    method GrantCredits(workspace: nat, bucket: Bucket, credits: nat, expiresAt: Option<int>, paid: Option<int>,
                        now: int)
      requires Inv(Model(now))
      modifies this
      ensures Step(old(Model(now)), AddGrant(workspace, bucket, credits, expiresAt, paid), Model(now))
      ensures Renewals.OneMore(old(Model(now)), Model(now), workspace, bucket, credits, expiresAt, paid.GetOr(0))
      ensures Inv(Model(now))
    {
      GrantedKeepsInv(Model(now), workspace, bucket, credits, expiresAt, paid);
      Renewals.GrantedIsOneMore(Model(now), workspace, bucket, credits, expiresAt, paid);
      SaveGrant(workspace, bucket, credits, expiresAt, paid, now);
    }

    // The transaction of applyRenewal, measured before the allowance lands.
    method RenewalTransaction(workspace: nat, allowance: nat, price: int, seats: int, periodEnd: int, now: int)
      returns (rolledOver: nat, seatBonus: nat)
      modifies this
      ensures Model(now) == Renewed(old(Model(now)), workspace, allowance, price, seats, periodEnd)
      ensures rolledOver == Carried(old(Model(now)), workspace) && seatBonus == SeatBonusFor(seats)
    {
      ghost var before := Model(now);
      rolledOver := Rollover.UnspentPlanCredits(grants, allocations, workspace, now);
      assert rolledOver == Carried(before, workspace);
      if rolledOver > 0 {
        SaveGrant(workspace, Bucket.Rollover, rolledOver, Some(periodEnd), None, now);
      }
      assert Model(now) == WithRollover(before, workspace, periodEnd);
      SaveGrant(workspace, Plan, allowance, Some(periodEnd), Some(price), now);
      ghost var s2 := Model(now);
      seatBonus := SeatBonusFor(seats);
      if seatBonus > 0 {
        SaveGrant(workspace, Reward, seatBonus, None, None, now);
      }
      assert Model(now) == WithBonus(s2, workspace, seats);
      renewals := Renewed(before, workspace, allowance, price, seats, periodEnd).renewals;
    }

    method ApplyRenewal(workspace: nat, allowance: nat, price: int, seats: int, periodEnd: int, now: int)
      returns (rolledOver: nat, seatBonus: nat)
      requires Inv(Model(now))
      modifies this
      ensures Step(old(Model(now)), Renew(workspace, allowance, price, seats, periodEnd), Model(now))
      ensures Renewals.Renews(old(Model(now)), Model(now), workspace, allowance, price, seats, periodEnd)
      ensures rolledOver == Carried(old(Model(now)), workspace) && seatBonus == SeatBonusFor(seats)
      ensures Inv(Model(now))
    {
      RenewedKeepsInv(Model(now), workspace, allowance, price, seats, periodEnd);
      Renewals.RenewedIsWorth(Model(now), workspace, allowance, price, seats, periodEnd);
      rolledOver, seatBonus := RenewalTransaction(workspace, allowance, price, seats, periodEnd, now);
    }
  }
}
