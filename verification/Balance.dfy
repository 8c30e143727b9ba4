// One balance, three differently shaped queries: the join grouped per grant
// (UsageService.getBalance), the derived table of the consistency script, and
// the cross-tenant aggregate of the admin console.
module Balance {
  import opened Prelude
  import opened LedgerTables

  // ---- the meaning of a balance ---------------------------------------------

  predicate Owned(g: Grant, workspace: nat) {
    g.workspace == workspace
  }

  function GrantedTo(grants: seq<Grant>, workspace: nat): int {
    SumBy(grants, (g: Grant) => if Owned(g, workspace) then g.credits else 0)
  }

  // What is left on the live grants of one workspace.
  function LiveBalance(grants: seq<Grant>, allocations: seq<Allocation>, workspace: nat, now: int): int {
    SumBy(grants, (g: Grant) => if Owned(g, workspace) && Live(g, now) then Remaining(g, allocations) else 0)
  }

  function BucketBalance(grants: seq<Grant>, allocations: seq<Allocation>, workspace: nat, now: int,
                         b: Bucket): int {
    SumBy(grants, (g: Grant) =>
      if Owned(g, workspace) && Live(g, now) && g.bucket == b then Remaining(g, allocations) else 0)
  }

  function ExpiredCredits(grants: seq<Grant>, allocations: seq<Allocation>, workspace: nat, now: int): int {
    SumBy(grants, (g: Grant) =>
      if Owned(g, workspace) && !Live(g, now) then Remaining(g, allocations) else 0)
  }

  // e is the least non-null expiry among one bucket's live grants.
  ghost predicate SoonestExpiry(grants: seq<Grant>, workspace: nat, now: int, b: Bucket, e: Option<int>) {
    && (forall g | g in grants && Owned(g, workspace) && Live(g, now) && g.bucket == b && g.expiresAt.Some? ::
          e.Some? && e.value <= g.expiresAt.value)
    && (e.Some? ==> exists g | g in grants ::
          Owned(g, workspace) && Live(g, now) && g.bucket == b && g.expiresAt == e)
  }

  // ---- getBalance: LEFT JOIN, WHERE, GROUP BY grant.id, then a fold ----------

  function BalanceQuery(grants: seq<Grant>, allocations: seq<Allocation>, workspace: nat): seq<GrantRow> {
    GroupedQuery(grants, allocations, (g: Grant) => Owned(g, workspace))
  }

  // The database may return the groups in any order.
  method RunBalanceQuery(grants: seq<Grant>, allocations: seq<Allocation>, workspace: nat)
    returns (rows: seq<GrantRow>)
    ensures multiset(rows) == multiset(BalanceQuery(grants, allocations, workspace))
  {
    rows := BalanceQuery(grants, allocations, workspace);
  }

  function RowLeft(r: GrantRow): int {
    Max(0, r.grant.credits - r.spent)
  }

  function RowLive(r: GrantRow, now: int, b: Bucket): int {
    if Live(r.grant, now) && r.grant.bucket == b then RowLeft(r) else 0
  }

  function RowDead(r: GrantRow, now: int): int {
    if Live(r.grant, now) then 0 else RowLeft(r)
  }

  // A fold over the rows, in whatever order they came, is a sum over grants.
  lemma FoldOfQuery(grants: seq<Grant>, allocations: seq<Allocation>, workspace: nat, rows: seq<GrantRow>,
                    f: GrantRow -> int, h: Grant -> int)
    requires UniqueIds(grants)
    requires multiset(rows) == multiset(BalanceQuery(grants, allocations, workspace))
    requires forall g: Grant :: h(g) == if Owned(g, workspace) then f(GrantRow(g, Spent(allocations, g.id))) else 0
    ensures SumBy(rows, f) == SumBy(grants, h)
  {
    var mine := (g: Grant) => Owned(g, workspace);
    GroupedQueryMeaning(grants, allocations, mine);
    SumByPermutation(rows, BalanceQuery(grants, allocations, workspace), f);
    FilterMembers(grants, mine);
    GrantRowsSum(Filter(grants, mine), allocations, f, h);
    SumByFilter(grants, mine, h, h);
  }

  datatype Pot = Pot(bucket: Bucket, credits: int, expiresAt: Option<int>)

  datatype Position = Position(granted: int, used: int, balance: int, expired: int, pots: seq<Pot>)

  // min of the two when both are set, otherwise whichever is.
  function Sooner(existing: Option<int>, next: Option<int>): Option<int> {
    if existing.Some? && next.Some? then Some(Min(existing.value, next.value))
    else if existing.Some? then existing
    else next
  }

  ghost predicate SoonestRow(rows: seq<GrantRow>, now: int, b: Bucket, e: Option<int>) {
    && (forall r | r in rows && Live(r.grant, now) && r.grant.bucket == b && r.grant.expiresAt.Some? ::
          e.Some? && e.value <= r.grant.expiresAt.value)
    && (e.Some? ==> exists r | r in rows :: Live(r.grant, now) && r.grant.bucket == b && r.grant.expiresAt == e)
  }

  ghost predicate PotOf(rows: seq<GrantRow>, now: int, b: Bucket, pot: Pot) {
    && pot.bucket == b
    && pot.credits == SumBy(rows, (r: GrantRow) => RowLive(r, now, b))
    && SoonestRow(rows, now, b, pot.expiresAt)
  }

  function PotFor(live: map<Bucket, Pot>, b: Bucket): Pot {
    if b in live then live[b] else Pot(b, 0, None)
  }

  lemma SoonestStep(rows: seq<GrantRow>, row: GrantRow, now: int, b: Bucket, e: Option<int>)
    requires SoonestRow(rows, now, b, e)
    ensures Live(row.grant, now) && row.grant.bucket == b ==>
              SoonestRow(rows + [row], now, b, Sooner(e, row.grant.expiresAt))
    ensures !(Live(row.grant, now) && row.grant.bucket == b) ==> SoonestRow(rows + [row], now, b, e)
  {
    forall r | r in rows ensures r in rows + [row] { }
    assert row in rows + [row];
  }

  lemma PotStep(rows: seq<GrantRow>, row: GrantRow, now: int, b: Bucket, pot: Pot)
    requires PotOf(rows, now, b, pot)
    ensures Live(row.grant, now) && row.grant.bucket == b ==>
              PotOf(rows + [row], now, b,
                    Pot(b, pot.credits + RowLeft(row), Sooner(pot.expiresAt, row.grant.expiresAt)))
    ensures !(Live(row.grant, now) && row.grant.bucket == b) ==> PotOf(rows + [row], now, b, pot)
  {
    SoonestStep(rows, row, now, b, pot.expiresAt);
    SumBySnoc(rows, row, (r: GrantRow) => RowLive(r, now, b));
  }

  // Dead rows leave the pots alone.
  function AddRow(live: map<Bucket, Pot>, row: GrantRow, now: int): map<Bucket, Pot> {
    var b := row.grant.bucket;
    var existing := PotFor(live, b);
    if !Live(row.grant, now) then live
    else live[b := Pot(b, existing.credits + RowLeft(row), Sooner(existing.expiresAt, row.grant.expiresAt))]
  }

  lemma PotsStep(rows: seq<GrantRow>, row: GrantRow, now: int, live: map<Bucket, Pot>)
    requires forall b: Bucket :: PotOf(rows, now, b, PotFor(live, b))
    ensures forall b: Bucket ::
              PotOf(rows + [row], now, b, PotFor(AddRow(live, row, now), b))
  {
    forall b: Bucket
      ensures PotOf(rows + [row], now, b, PotFor(AddRow(live, row, now), b))
    {
      assert PotOf(rows, now, b, PotFor(live, b));
      PotStep(rows, row, now, b, PotFor(live, b));
    }
  }

  method FoldRows(rows: seq<GrantRow>, now: int)
    returns (granted: int, expired: int, live: map<Bucket, Pot>)
    ensures granted == SumBy(rows, (r: GrantRow) => r.grant.credits)
    ensures expired == SumBy(rows, (r: GrantRow) => RowDead(r, now))
    ensures forall b: Bucket :: PotOf(rows, now, b, PotFor(live, b))
  {
    granted, expired, live := 0, 0, map[];
    for i := 0 to |rows|
      invariant granted == SumBy(rows[..i], (r: GrantRow) => r.grant.credits)
      invariant expired == SumBy(rows[..i], (r: GrantRow) => RowDead(r, now))
      invariant forall b: Bucket :: PotOf(rows[..i], now, b, PotFor(live, b))
    {
      var row := rows[i];
      SumBySnoc(rows[..i], row, (r: GrantRow) => r.grant.credits);
      SumBySnoc(rows[..i], row, (r: GrantRow) => RowDead(r, now));
      assert rows[..i + 1] == rows[..i] + [row];
      PotsStep(rows[..i], row, now, live);

      var remaining := RowLeft(row);
      granted := granted + row.grant.credits;
      if !Live(row.grant, now) {
        expired := expired + remaining;
        assert AddRow(live, row, now) == live;
        continue;
      }
      live := AddRow(live, row, now);
    }
    assert rows[..|rows|] == rows;
  }

  lemma FoldMeaning(grants: seq<Grant>, allocations: seq<Allocation>, workspace: nat, now: int, rows: seq<GrantRow>)
    requires UniqueIds(grants)
    requires multiset(rows) == multiset(BalanceQuery(grants, allocations, workspace))
    ensures SumBy(rows, (r: GrantRow) => r.grant.credits) == GrantedTo(grants, workspace)
    ensures SumBy(rows, (r: GrantRow) => RowDead(r, now)) == ExpiredCredits(grants, allocations, workspace, now)
    ensures forall b: Bucket :: SumBy(rows, (r: GrantRow) => RowLive(r, now, b))
                             == BucketBalance(grants, allocations, workspace, now, b)
  {
    FoldOfQuery(grants, allocations, workspace, rows, (r: GrantRow) => r.grant.credits,
                (g: Grant) => if Owned(g, workspace) then g.credits else 0);
    FoldOfQuery(grants, allocations, workspace, rows, (r: GrantRow) => RowDead(r, now),
                (g: Grant) => if Owned(g, workspace) && !Live(g, now) then Remaining(g, allocations) else 0);
    forall b: Bucket
      ensures SumBy(rows, (r: GrantRow) => RowLive(r, now, b)) == BucketBalance(grants, allocations, workspace, now, b)
    {
      FoldOfQuery(grants, allocations, workspace, rows, (r: GrantRow) => RowLive(r, now, b), (g: Grant) =>
        if Owned(g, workspace) && Live(g, now) && g.bucket == b then Remaining(g, allocations) else 0);
    }
  }

  lemma SoonestMeaning(grants: seq<Grant>, allocations: seq<Allocation>, workspace: nat, now: int,
                       rows: seq<GrantRow>, b: Bucket, e: Option<int>)
    requires UniqueIds(grants)
    requires multiset(rows) == multiset(BalanceQuery(grants, allocations, workspace))
    requires SoonestRow(rows, now, b, e)
    ensures SoonestExpiry(grants, workspace, now, b, e)
  {
    QueryMembers(grants, allocations, (g: Grant) => Owned(g, workspace), rows);
    forall g | g in grants && Owned(g, workspace) && Live(g, now) && g.bucket == b && g.expiresAt.Some?
      ensures e.Some? && e.value <= g.expiresAt.value
    {
      assert GrantRow(g, Spent(allocations, g.id)) in rows;
    }
  }

  // The four buckets partition the live balance.
  lemma BucketsAddUp(grants: seq<Grant>, allocations: seq<Allocation>, workspace: nat, now: int)
    ensures LiveBalance(grants, allocations, workspace, now)
         == BucketBalance(grants, allocations, workspace, now, Rollover)
          + BucketBalance(grants, allocations, workspace, now, Plan)
          + BucketBalance(grants, allocations, workspace, now, TopUp)
          + BucketBalance(grants, allocations, workspace, now, Reward)
  {
    if grants != [] {
      BucketsAddUp(grants[1..], allocations, workspace, now);
    }
  }

  // getBalance: the position reported to the customer. Summing a grant's
  // credits once per draw, skipping the dead branch or keeping a later expiry
  // would each break one of these clauses.
  method GetBalance(grants: seq<Grant>, allocations: seq<Allocation>, events: seq<Event>, workspace: nat, now: int)
    returns (p: Position)
    requires UniqueIds(grants)
    ensures p.granted == GrantedTo(grants, workspace)
    ensures p.used == UsedBy(events, workspace)
    ensures p.balance == LiveBalance(grants, allocations, workspace, now)
    ensures p.expired == ExpiredCredits(grants, allocations, workspace, now)
    ensures |p.pots| == 4
    ensures forall i | 0 <= i < 4 ::
              && p.pots[i].bucket == SPEND_ORDER[i]
              && p.pots[i].credits == BucketBalance(grants, allocations, workspace, now, SPEND_ORDER[i])
              && SoonestExpiry(grants, workspace, now, SPEND_ORDER[i], p.pots[i].expiresAt)
  {
    var rows := RunBalanceQuery(grants, allocations, workspace);
    var granted, expired, live := FoldRows(rows, now);
    var pots := [PotFor(live, Rollover), PotFor(live, Plan), PotFor(live, TopUp), PotFor(live, Reward)];
    FoldMeaning(grants, allocations, workspace, now, rows);
    forall i | 0 <= i < 4
      ensures pots[i].bucket == SPEND_ORDER[i]
      ensures pots[i].credits == BucketBalance(grants, allocations, workspace, now, SPEND_ORDER[i])
      ensures SoonestExpiry(grants, workspace, now, SPEND_ORDER[i], pots[i].expiresAt)
    {
      assert PotOf(rows, now, SPEND_ORDER[i], PotFor(live, SPEND_ORDER[i]));
      SoonestMeaning(grants, allocations, workspace, now, rows, SPEND_ORDER[i], pots[i].expiresAt);
    }
    BucketsAddUp(grants, allocations, workspace, now);
    var balance := 0;
    for i := 0 to 4
      invariant balance == SumBy(pots[..i], (pot: Pot) => pot.credits)
    {
      SumByPrefix(pots, i, (pot: Pot) => pot.credits);
      balance := balance + pots[i].credits;
    }
    PotsTotal(pots);
    assert pots[..4] == pots;
    p := Position(granted, UsedBy(events, workspace), balance, expired, pots);
  }

  lemma PotsTotal(pots: seq<Pot>)
    requires |pots| == 4
    ensures SumBy(pots, (pot: Pot) => pot.credits)
         == pots[0].credits + pots[1].credits + pots[2].credits + pots[3].credits
  {
    var f := (pot: Pot) => pot.credits;
    assert pots[1..][1..] == pots[2..];
    assert pots[2..][1..] == pots[3..];
    assert pots[3..][1..] == [];
    assert SumBy(pots[3..], f) == f(pots[3]) + SumBy([], f);
    assert SumBy(pots[2..], f) == f(pots[2]) + SumBy(pots[3..], f);
  }

  // summarizeForWorkspace: SUM("creditsUsed") WHERE "workspaceId" = $1.
  function UsedBy(events: seq<Event>, workspace: nat): int {
    SumBy(Filter(events, (e: Event) => e.workspace == workspace), (e: Event) => e.creditsUsed)
  }

  // ---- the derived table: SUM(credits) GROUP BY "grantId", joined afterwards --

  datatype SpendJoined = SpendJoined(grant: Grant, spent: Option<int>)

  function GrantIdOf(a: Allocation): nat {
    a.grantId
  }

  function CreditsOf(a: Allocation): int {
    a.credits
  }

  function SpendTable(allocations: seq<Allocation>): seq<(nat, seq<Allocation>)> {
    Groups(allocations, GrantIdOf)
  }

  function MatchSpend(g: Grant, matches: seq<(nat, seq<Allocation>)>): seq<SpendJoined> {
    if matches == [] then []
    else [SpendJoined(g, Some(SumBy(matches[0].1, CreditsOf)))] + MatchSpend(g, matches[1..])
  }

  function JoinSpend(grants: seq<Grant>, spend: seq<(nat, seq<Allocation>)>): seq<SpendJoined> {
    if grants == [] then []
    else
      var matches := GroupsWith(spend, grants[0].id);
      (if matches == [] then [SpendJoined(grants[0], None)] else MatchSpend(grants[0], matches))
      + JoinSpend(grants[1..], spend)
  }

  function SpentColumn(r: SpendJoined): int {
    Max(0, r.grant.credits - r.spent.GetOr(0))
  }

  // Because the derived table has one row per grant, this join cannot fan out.
  lemma {:induction false} JoinSpendOne(grants: seq<Grant>, allocations: seq<Allocation>)
    ensures |JoinSpend(grants, SpendTable(allocations))| == |grants|
    ensures forall i | 0 <= i < |grants| ::
              var r := JoinSpend(grants, SpendTable(allocations))[i];
              r.grant == grants[i] && r.spent.GetOr(0) == Spent(allocations, grants[i].id)
  {
    if grants != [] {
      var g := grants[0];
      JoinSpendOne(grants[1..], allocations);
      GroupsAt(allocations, GrantIdOf, g.id);
      KeyedIsDraws(allocations, g.id);
      var draws := Draws(allocations, g.id);
      if draws != [] {
        assert [(g.id, draws)][1..] == [];
        assert MatchSpend(g, [(g.id, draws)]) == [SpendJoined(g, Some(SumBy(draws, CreditsOf)))];
        SumByEqual(draws, CreditsOf, (a: Allocation) => a.credits);
      }
    }
  }

  lemma KeyedIsDraws(allocations: seq<Allocation>, id: nat)
    ensures Keyed(allocations, GrantIdOf, id) == Draws(allocations, id)
  {
    KeyedIsFilter(allocations, GrantIdOf, id, (a: Allocation) => a.grantId == id);
  }

  lemma {:induction false} JoinSpendSum(grants: seq<Grant>, allocations: seq<Allocation>, rows: seq<SpendJoined>,
                                        f: SpendJoined -> int, h: Grant -> int)
    requires |rows| == |grants|
    requires forall i | 0 <= i < |grants| ::
               rows[i].grant == grants[i] && rows[i].spent.GetOr(0) == Spent(allocations, grants[i].id)
    requires forall r: SpendJoined | r.spent.GetOr(0) == Spent(allocations, r.grant.id) :: f(r) == h(r.grant)
    ensures SumBy(rows, f) == SumBy(grants, h)
  {
    if grants != [] {
      JoinSpendSum(grants[1..], allocations, rows[1..], f, h);
    }
  }

  // TRUTH, the reference query of scripts/check-credit-balances.ts.
  function TruthQuery(grants: seq<Grant>, allocations: seq<Allocation>, workspace: nat, now: int): int {
    SumBy(Filter(JoinSpend(grants, SpendTable(allocations)),
                 (r: SpendJoined) => Owned(r.grant, workspace) && Live(r.grant, now)),
          SpentColumn)
  }

  lemma TruthIsLiveBalance(grants: seq<Grant>, allocations: seq<Allocation>, workspace: nat, now: int)
    ensures TruthQuery(grants, allocations, workspace, now) == LiveBalance(grants, allocations, workspace, now)
  {
    var rows := JoinSpend(grants, SpendTable(allocations));
    var f := (r: SpendJoined) => if Owned(r.grant, workspace) && Live(r.grant, now) then SpentColumn(r) else 0;
    JoinSpendOne(grants, allocations);
    SumByFilter(rows, (r: SpendJoined) => Owned(r.grant, workspace) && Live(r.grant, now), SpentColumn, f);
    JoinSpendSum(grants, allocations, rows, f, (g: Grant) =>
      if Owned(g, workspace) && Live(g, now) then Remaining(g, allocations) else 0);
  }

  // ---- creditsByWorkspace: the same derived table, grouped by workspace ------

  datatype Totals = Totals(granted: int, used: int, balance: int, paidCents: int)

  function WorkspaceOf(r: SpendJoined): nat {
    r.grant.workspace
  }

  function PaidCents(g: Grant): int {
    g.paidCents.GetOr(0)
  }

  function PaidBy(grants: seq<Grant>, workspace: nat): int {
    SumBy(grants, (g: Grant) => if Owned(g, workspace) then PaidCents(g) else 0)
  }

  function LiveColumn(r: SpendJoined, now: int): int {
    if Live(r.grant, now) then SpentColumn(r) else 0
  }

  // WHERE "workspaceId" IN (...) GROUP BY "workspaceId".
  function WorkspaceGroups(grants: seq<Grant>, allocations: seq<Allocation>, ids: seq<nat>)
    : seq<(nat, seq<SpendJoined>)>
  {
    Groups(Filter(JoinSpend(grants, SpendTable(allocations)), (r: SpendJoined) => r.grant.workspace in ids),
           WorkspaceOf)
  }

  // grantRows.find(row => row.workspaceId === id), as the rows of that group.
  function FoundRows<T>(groups: seq<(nat, seq<T>)>, id: nat): seq<T> {
    var found := GroupsWith(groups, id);
    if found == [] then [] else found[0].1
  }

  lemma FoundIsOwned(grants: seq<Grant>, allocations: seq<Allocation>, ids: seq<nat>, id: nat)
    requires id in ids
    ensures FoundRows(WorkspaceGroups(grants, allocations, ids), id)
         == Filter(JoinSpend(grants, SpendTable(allocations)), (r: SpendJoined) => Owned(r.grant, id))
  {
    var rows := JoinSpend(grants, SpendTable(allocations));
    GroupsAt(Filter(rows, (r: SpendJoined) => r.grant.workspace in ids), WorkspaceOf, id);
    KeyedWithin(rows, (r: SpendJoined) => r.grant.workspace in ids, WorkspaceOf, id,
                (r: SpendJoined) => Owned(r.grant, id));
  }

  lemma FoundSum(grants: seq<Grant>, allocations: seq<Allocation>, ids: seq<nat>, id: nat,
                 f: SpendJoined -> int, h: Grant -> int)
    requires id in ids
    requires forall r: SpendJoined | r.spent.GetOr(0) == Spent(allocations, r.grant.id) ::
               h(r.grant) == if Owned(r.grant, id) then f(r) else 0
    ensures SumBy(FoundRows(WorkspaceGroups(grants, allocations, ids), id), f) == SumBy(grants, h)
  {
    var rows := JoinSpend(grants, SpendTable(allocations));
    var own := (r: SpendJoined) => Owned(r.grant, id);
    var g := (r: SpendJoined) => if own(r) then f(r) else 0;
    FoundIsOwned(grants, allocations, ids, id);
    JoinSpendOne(grants, allocations);
    SumByFilter(rows, own, f, g);
    JoinSpendSum(grants, allocations, rows, g, h);
  }

  function EventWorkspace(e: Event): nat {
    e.workspace
  }

  function UsedGroups(events: seq<Event>, ids: seq<nat>): seq<(nat, seq<Event>)> {
    Groups(Filter(events, (e: Event) => e.workspace in ids), EventWorkspace)
  }

  ghost predicate TotalsOf(grants: seq<Grant>, allocations: seq<Allocation>, events: seq<Event>, id: nat, now: int,
                           t: Totals) {
    && t.granted == GrantedTo(grants, id)
    && t.used == UsedBy(events, id)
    && t.balance == LiveBalance(grants, allocations, id, now)
    && t.paidCents == PaidBy(grants, id)
  }

  method WorkspaceTotals(grants: seq<Grant>, allocations: seq<Allocation>, events: seq<Event>, ids: seq<nat>,
                         id: nat, now: int)
    returns (t: Totals)
    requires id in ids
    ensures TotalsOf(grants, allocations, events, id, now, t)
  {
    var found := FoundRows(WorkspaceGroups(grants, allocations, ids), id);
    var used := FoundRows(UsedGroups(events, ids), id);
    t := Totals(SumBy(found, (r: SpendJoined) => r.grant.credits),
                SumBy(used, (e: Event) => e.creditsUsed),
                SumBy(found, (r: SpendJoined) => LiveColumn(r, now)),
                SumBy(found, (r: SpendJoined) => PaidCents(r.grant)));
    FoundSum(grants, allocations, ids, id, (r: SpendJoined) => r.grant.credits,
             (g: Grant) => if Owned(g, id) then g.credits else 0);
    FoundSum(grants, allocations, ids, id, (r: SpendJoined) => PaidCents(r.grant),
             (g: Grant) => if Owned(g, id) then PaidCents(g) else 0);
    FoundSum(grants, allocations, ids, id, (r: SpendJoined) => LiveColumn(r, now), (g: Grant) =>
      if Owned(g, id) && Live(g, now) then Remaining(g, allocations) else 0);
    GroupsAt(Filter(events, (e: Event) => e.workspace in ids), EventWorkspace, id);
    KeyedWithin(events, (e: Event) => e.workspace in ids, EventWorkspace, id, (e: Event) => e.workspace == id);
  }

  // creditsByWorkspace: one row per requested workspace, absent ones at zero.
  method CreditsByWorkspace(grants: seq<Grant>, allocations: seq<Allocation>, events: seq<Event>, ids: seq<nat>,
                            now: int)
    returns (out: map<nat, Totals>)
    ensures out.Keys == set id | id in ids
    ensures forall id | id in ids :: TotalsOf(grants, allocations, events, id, now, out[id])
  {
    out := map[];
    for i := 0 to |ids|
      invariant out.Keys == set id | id in ids[..i]
      invariant forall id | id in out.Keys :: TotalsOf(grants, allocations, events, id, now, out[id])
    {
      var t := WorkspaceTotals(grants, allocations, events, ids, ids[i], now);
      out := out[ids[i] := t];
      assert ids[..i + 1] == ids[..i] + [ids[i]];
    }
    assert ids[..|ids|] == ids;
  }

  // What check-credit-balances.ts asserts of every workspace, for every ledger
  // and every instant, together with the admin console's row.
  method CheckWorkspace(grants: seq<Grant>, allocations: seq<Allocation>, events: seq<Event>, ids: seq<nat>,
                        workspace: nat, now: int)
    returns (reported: int, truth: int, console: int)
    requires UniqueIds(grants)
    requires workspace in ids
    ensures reported == truth == console == LiveBalance(grants, allocations, workspace, now)
  {
    var p := GetBalance(grants, allocations, events, workspace, now);
    reported := p.balance;
    truth := TruthQuery(grants, allocations, workspace, now);
    TruthIsLiveBalance(grants, allocations, workspace, now);
    var rows := CreditsByWorkspace(grants, allocations, events, ids, now);
    console := rows[workspace].balance;
  }
}
