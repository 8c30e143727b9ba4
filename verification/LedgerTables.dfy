// The three append-only ledger tables, and the relational operators the
// balance queries are written in: LEFT JOIN, WHERE, GROUP BY and SUM. A table
// is a sequence of rows; a query's answer is stated up to the order of its rows.
module LedgerTables {
  import opened Prelude

  datatype Bucket = Rollover | Plan | TopUp | Reward

  datatype Grant = Grant(
    id: nat,
    workspace: nat,
    bucket: Bucket,
    credits: int,
    expiresAt: Option<int>,
    paidCents: Option<int>,
    createdAt: int)

  datatype Allocation = Allocation(event: Option<nat>, grantId: nat, bucket: Bucket, credits: int)

  datatype Event = Event(id: nat, workspace: nat, creditsUsed: int)

  const SPEND_ORDER: seq<Bucket> := [Rollover, Plan, TopUp, Reward]

  predicate Live(g: Grant, now: int) {
    g.expiresAt.None? || g.expiresAt.value > now
  }

  // The primary key of the grants table.
  ghost predicate UniqueIds(grants: seq<Grant>) {
    forall i, j | 0 <= i < j < |grants| :: grants[i].id != grants[j].id
  }

  // ---- what the queries are about: credits drawn from one grant -------------

  function Draws(allocations: seq<Allocation>, grantId: nat): seq<Allocation> {
    Filter(allocations, (a: Allocation) => a.grantId == grantId)
  }

  function Spent(allocations: seq<Allocation>, grantId: nat): int {
    SumBy(Draws(allocations, grantId), (a: Allocation) => a.credits)
  }

  function Remaining(g: Grant, allocations: seq<Allocation>): int {
    Max(0, g.credits - Spent(allocations, g.id))
  }

  // ---- LEFT JOIN credit_allocations ON "grantId" = grant.id -----------------

  datatype Joined = Joined(grant: Grant, allocation: Option<Allocation>)

  function JoinRows(g: Grant, draws: seq<Allocation>): seq<Joined> {
    if draws == [] then [] else [Joined(g, Some(draws[0]))] + JoinRows(g, draws[1..])
  }

  // One row per draw, or a single row with a NULL allocation.
  function JoinOne(g: Grant, allocations: seq<Allocation>): seq<Joined> {
    var draws := Draws(allocations, g.id);
    if draws == [] then [Joined(g, None)] else JoinRows(g, draws)
  }

  function LeftJoin(grants: seq<Grant>, allocations: seq<Allocation>): seq<Joined> {
    if grants == [] then []
    else JoinOne(grants[0], allocations) + LeftJoin(grants[1..], allocations)
  }

  function Where(rows: seq<Joined>, p: Grant -> bool): seq<Joined> {
    Filter(rows, (r: Joined) => p(r.grant))
  }

  // SUM ignores NULLs; COALESCE turns an all-NULL sum into zero.
  function AllocatedCredits(r: Joined): int {
    if r.allocation.Some? then r.allocation.value.credits else 0
  }

  function SumAllocated(rows: seq<Joined>): int {
    SumBy(rows, AllocatedCredits)
  }

  function SumGranted(rows: seq<Joined>): int {
    SumBy(rows, (r: Joined) => r.grant.credits)
  }

  lemma {:induction false} JoinRowsFacts(g: Grant, draws: seq<Allocation>)
    ensures forall r | r in JoinRows(g, draws) :: r.grant == g
    ensures SumAllocated(JoinRows(g, draws)) == SumBy(draws, (a: Allocation) => a.credits)
    ensures SumGranted(JoinRows(g, draws)) == |draws| * g.credits
    ensures |JoinRows(g, draws)| == |draws|
  {
    if draws != [] {
      JoinRowsFacts(g, draws[1..]);
      var rows := JoinRows(g, draws);
      assert rows[1..] == JoinRows(g, draws[1..]);
      assert SumGranted(rows) == g.credits + SumGranted(rows[1..]);
      assert SumAllocated(rows) == draws[0].credits + SumAllocated(rows[1..]);
    }
  }

  // A grant's slice of the join: its draws sum correctly, but its own credits
  // are repeated once per draw.
  lemma JoinOneFacts(g: Grant, allocations: seq<Allocation>)
    ensures |JoinOne(g, allocations)| > 0
    ensures forall r | r in JoinOne(g, allocations) :: r.grant == g
    ensures SumAllocated(JoinOne(g, allocations)) == Spent(allocations, g.id)
    ensures SumGranted(JoinOne(g, allocations)) == Max(1, |Draws(allocations, g.id)|) * g.credits
  {
    var draws := Draws(allocations, g.id);
    if draws == [] {
      assert [Joined(g, None)][1..] == [];
      assert SumAllocated([Joined(g, None)]) == 0 + SumAllocated([]);
      assert SumGranted([Joined(g, None)]) == g.credits + SumGranted([]);
    } else {
      JoinRowsFacts(g, draws);
    }
  }

  lemma {:induction false} JoinMembers(grants: seq<Grant>, allocations: seq<Allocation>)
    ensures forall r | r in LeftJoin(grants, allocations) :: r.grant in grants
  {
    if grants != [] {
      JoinOneFacts(grants[0], allocations);
      JoinMembers(grants[1..], allocations);
    }
  }

  // A condition on the grant may be applied before the join or after it.
  lemma {:induction false} WhereOfJoin(grants: seq<Grant>, allocations: seq<Allocation>, p: Grant -> bool)
    ensures Where(LeftJoin(grants, allocations), p) == LeftJoin(Filter(grants, p), allocations)
  {
    if grants != [] {
      var g := grants[0];
      var onRow := (r: Joined) => p(r.grant);
      var head, tail := JoinOne(g, allocations), LeftJoin(grants[1..], allocations);
      FilterAppend(head, tail, onRow);
      JoinOneFacts(g, allocations);
      if p(g) {
        FilterAll(head, onRow);
        assert ([g] + Filter(grants[1..], p))[1..] == Filter(grants[1..], p);
      } else {
        FilterNone(head, onRow);
      }
      WhereOfJoin(grants[1..], allocations, p);
    }
  }

  lemma {:induction false} UniqueFilter(grants: seq<Grant>, p: Grant -> bool)
    requires UniqueIds(grants)
    ensures UniqueIds(Filter(grants, p))
  {
    if grants != [] {
      var tail := grants[1..];
      assert UniqueIds(tail);
      UniqueFilter(tail, p);
      FilterMembers(tail, p);
      if p(grants[0]) {
        var kept := Filter(grants, p);
        forall i, j | 0 <= i < j < |kept| ensures kept[i].id != kept[j].id {
          if i == 0 {
            assert kept[j] in Filter(tail, p);
            var k :| 0 <= k < |tail| && tail[k] == kept[j];
            assert grants[k + 1] == kept[j];
          }
        }
      }
    }
  }

  // ---- GROUP BY grant.id ----------------------------------------------------

  // One output row per group: the columns that depend on the key, and the
  // aggregate over the group.
  datatype GrantRow = GrantRow(grant: Grant, spent: int)

  function GrantId(r: Joined): nat {
    r.grant.id
  }

  function Summarise(groups: seq<(nat, seq<Joined>)>): seq<GrantRow> {
    if groups == [] then []
    else if groups[0].1 == [] then Summarise(groups[1..])
    else [GrantRow(groups[0].1[0].grant, SumAllocated(groups[0].1))] + Summarise(groups[1..])
  }

  function PerGrant(rows: seq<Joined>): seq<GrantRow> {
    Summarise(Groups(rows, GrantId))
  }

  // The obvious answer, with no join in it.
  function GrantRows(grants: seq<Grant>, allocations: seq<Allocation>): seq<GrantRow> {
    if grants == [] then []
    else [GrantRow(grants[0], Spent(allocations, grants[0].id))] + GrantRows(grants[1..], allocations)
  }

  // Grouping the fanned-out join by the primary key undoes the fan-out.
  lemma {:induction false} PerGrantOfJoin(grants: seq<Grant>, allocations: seq<Allocation>)
    requires UniqueIds(grants)
    ensures PerGrant(LeftJoin(grants, allocations)) == GrantRows(grants, allocations)
  {
    if grants != [] {
      var g, rest := grants[0], grants[1..];
      var head, tail := JoinOne(g, allocations), LeftJoin(rest, allocations);
      JoinOneFacts(g, allocations);
      JoinMembers(rest, allocations);
      assert forall r | r in tail :: GrantId(r) != g.id;
      GroupsSplit(head, tail, GrantId, g.id);
      var groups := Groups(tail, GrantId);
      assert ([(g.id, head)] + groups)[1..] == groups;
      assert head[0] in head;
      assert UniqueIds(rest);
      PerGrantOfJoin(rest, allocations);
    }
  }

  lemma {:induction false} GrantRowsMembers(grants: seq<Grant>, allocations: seq<Allocation>)
    ensures |GrantRows(grants, allocations)| == |grants|
    ensures forall i | 0 <= i < |grants| ::
              GrantRows(grants, allocations)[i] == GrantRow(grants[i], Spent(allocations, grants[i].id))
  {
    if grants != [] {
      GrantRowsMembers(grants[1..], allocations);
    }
  }

  lemma {:induction false} GrantRowsSum(grants: seq<Grant>, allocations: seq<Allocation>,
                                        f: GrantRow -> int, h: Grant -> int)
    requires forall g | g in grants :: h(g) == f(GrantRow(g, Spent(allocations, g.id)))
    ensures SumBy(GrantRows(grants, allocations), f) == SumBy(grants, h)
  {
    if grants != [] {
      GrantRowsSum(grants[1..], allocations, f, h);
    }
  }

  // ---- SELECT ... LEFT JOIN ... WHERE p GROUP BY grant.id, as every caller uses it

  function GroupedQuery(grants: seq<Grant>, allocations: seq<Allocation>, p: Grant -> bool): seq<GrantRow> {
    PerGrant(Where(LeftJoin(grants, allocations), p))
  }

  lemma GroupedQueryMeaning(grants: seq<Grant>, allocations: seq<Allocation>, p: Grant -> bool)
    requires UniqueIds(grants)
    ensures GroupedQuery(grants, allocations, p) == GrantRows(Filter(grants, p), allocations)
  {
    WhereOfJoin(grants, allocations, p);
    UniqueFilter(grants, p);
    PerGrantOfJoin(Filter(grants, p), allocations);
  }

  // The rows are exactly the chosen grants, each with what was spent on it.
  lemma QueryMembers(grants: seq<Grant>, allocations: seq<Allocation>, p: Grant -> bool, rows: seq<GrantRow>)
    requires UniqueIds(grants)
    requires multiset(rows) == multiset(GroupedQuery(grants, allocations, p))
    ensures forall r | r in rows :: r.grant in grants && p(r.grant) && r.spent == Spent(allocations, r.grant.id)
    ensures forall g | g in grants && p(g) :: GrantRow(g, Spent(allocations, g.id)) in rows
  {
    var chosen := Filter(grants, p);
    GroupedQueryMeaning(grants, allocations, p);
    FilterMembers(grants, p);
    GrantRowsMembers(chosen, allocations);
    var answer := GrantRows(chosen, allocations);
    forall r | r in rows ensures r.grant in grants && p(r.grant) && r.spent == Spent(allocations, r.grant.id) {
      assert r in multiset(answer);
      var i :| 0 <= i < |answer| && answer[i] == r;
      assert r.grant == chosen[i] && chosen[i] in chosen;
    }
    forall g | g in grants && p(g) ensures GrantRow(g, Spent(allocations, g.id)) in rows {
      assert g in chosen;
      var i :| 0 <= i < |chosen| && chosen[i] == g;
      assert answer[i] in multiset(rows);
    }
  }

  ghost predicate UniqueRows(rows: seq<GrantRow>) {
    forall i, j | 0 <= i < j < |rows| :: rows[i].grant.id != rows[j].grant.id
  }

  lemma UniqueUnderPermutation(rows: seq<GrantRow>, answer: seq<GrantRow>)
    requires UniqueRows(answer) && multiset(rows) == multiset(answer)
    ensures UniqueRows(rows)
  {
    forall i, j | 0 <= i < j < |rows| ensures rows[i].grant.id != rows[j].grant.id {
      assert rows[i] in multiset(answer) && rows[j] in multiset(answer);
      var x :| 0 <= x < |answer| && answer[x] == rows[i];
      var y :| 0 <= y < |answer| && answer[y] == rows[j];
      if x == y {
        CountTwice(rows, i, j);
        CountOnce(answer, x);
      }
    }
  }

  lemma QueryUnique(grants: seq<Grant>, allocations: seq<Allocation>, p: Grant -> bool, rows: seq<GrantRow>)
    requires UniqueIds(grants)
    requires multiset(rows) == multiset(GroupedQuery(grants, allocations, p))
    ensures UniqueRows(rows)
  {
    var chosen := Filter(grants, p);
    var answer := GrantRows(chosen, allocations);
    GroupedQueryMeaning(grants, allocations, p);
    UniqueFilter(grants, p);
    GrantRowsMembers(chosen, allocations);
    assert UniqueRows(answer);
    UniqueUnderPermutation(rows, answer);
  }
}
