// planAllocations: which grants pay for a run. The greedy loop is proved equal
// to a closed form (increments of the capped running capacity), and the closed
// form is proved optimal at every prefix of the spend order.
module SpendPlan {
  import opened Prelude
  import opened LedgerTables

  // A grant with credits still on it, as the planner sees it.
  datatype Spendable = Spendable(id: nat, bucket: Bucket, remaining: int)

  datatype Planned = Planned(grantId: nat, bucket: Bucket, credits: int)

  // ---- the stable sort by SPEND_ORDER ---------------------------------------

  function Rank(b: Bucket): nat {
    match b
    case Rollover => 0
    case Plan => 1
    case TopUp => 2
    case Reward => 3
  }

  function InBucket(grants: seq<Spendable>, b: Bucket): seq<Spendable> {
    Filter(grants, (s: Spendable) => s.bucket == b)
  }

  function Ordered(grants: seq<Spendable>): seq<Spendable> {
    InBucket(grants, Rollover) + InBucket(grants, Plan) + InBucket(grants, TopUp) + InBucket(grants, Reward)
  }

  lemma BucketOfBucket(grants: seq<Spendable>, b: Bucket, c: Bucket)
    ensures InBucket(InBucket(grants, b), c) == if b == c then InBucket(grants, b) else []
  {
    FilterMembers(grants, (s: Spendable) => s.bucket == b);
    if b == c {
      FilterAll(InBucket(grants, b), (s: Spendable) => s.bucket == c);
    } else {
      FilterNone(InBucket(grants, b), (s: Spendable) => s.bucket == c);
    }
  }

  // Sorting keeps the order inside every bucket: oldest stays first.
  lemma OrderedIsStable(grants: seq<Spendable>, c: Bucket)
    ensures InBucket(Ordered(grants), c) == InBucket(grants, c)
  {
    var p := (s: Spendable) => s.bucket == c;
    var r, l, t, w := InBucket(grants, Rollover), InBucket(grants, Plan),
                      InBucket(grants, TopUp), InBucket(grants, Reward);
    FilterAppend(r + l + t, w, p);
    FilterAppend(r + l, t, p);
    FilterAppend(r, l, p);
    BucketOfBucket(grants, Rollover, c);
    BucketOfBucket(grants, Plan, c);
    BucketOfBucket(grants, TopUp, c);
    BucketOfBucket(grants, Reward, c);
  }

  lemma OrderedIsSorted(grants: seq<Spendable>)
    ensures forall i, j | 0 <= i < j < |Ordered(grants)| ::
              Rank(Ordered(grants)[i].bucket) <= Rank(Ordered(grants)[j].bucket)
  {
    forall b: Bucket ensures forall s | s in InBucket(grants, b) :: s.bucket == b {
      FilterMembers(grants, (s: Spendable) => s.bucket == b);
    }
    var r, l, t, w := InBucket(grants, Rollover), InBucket(grants, Plan),
                      InBucket(grants, TopUp), InBucket(grants, Reward);
    forall i | 0 <= i < |Ordered(grants)|
      ensures Rank(Ordered(grants)[i].bucket) == if i < |r| then 0 else if i < |r| + |l| then 1
                                                 else if i < |r| + |l| + |t| then 2 else 3
    {
      var s := Ordered(grants)[i];
      assert if i < |r| then s in r else if i < |r| + |l| then s in l
             else if i < |r| + |l| + |t| then s in t else s in w;
    }
  }

  lemma {:induction false} BucketsPartition(grants: seq<Spendable>)
    ensures multiset(grants) == multiset(InBucket(grants, Rollover)) + multiset(InBucket(grants, Plan))
                              + multiset(InBucket(grants, TopUp)) + multiset(InBucket(grants, Reward))
  {
    if grants != [] {
      var g, rest := grants[0], grants[1..];
      BucketsPartition(rest);
      assert grants == [g] + rest;
      assert multiset(grants) == multiset{g} + multiset(rest);
      BucketHead(grants, Rollover);
      BucketHead(grants, Plan);
      BucketHead(grants, TopUp);
      BucketHead(grants, Reward);
    }
  }

  lemma BucketHead(grants: seq<Spendable>, b: Bucket)
    requires grants != []
    ensures multiset(InBucket(grants, b)) ==
            (if grants[0].bucket == b then multiset{grants[0]} else multiset{}) + multiset(InBucket(grants[1..], b))
  {
    if grants[0].bucket == b {
      assert InBucket(grants, b) == [grants[0]] + InBucket(grants[1..], b);
    }
  }

  lemma OrderedIsPermutation(grants: seq<Spendable>)
    ensures multiset(Ordered(grants)) == multiset(grants)
  {
    BucketsPartition(grants);
  }

  // ---- the closed form ------------------------------------------------------

  function Holding(s: Spendable): int {
    Max(0, s.remaining)
  }

  // What the first k grants of the spend order hold between them.
  function Capacity(order: seq<Spendable>, k: nat): int
    requires k <= |order|
  {
    SumBy(order[..k], Holding)
  }

  // What a charge takes from the first k grants.
  function Drawn(order: seq<Spendable>, charge: int, k: nat): int
    requires k <= |order|
  {
    Min(Max(0, charge), Capacity(order, k))
  }

  function Amount(order: seq<Spendable>, charge: int, k: nat): int
    requires k < |order|
  {
    Drawn(order, charge, k + 1) - Drawn(order, charge, k)
  }

  function Entries(order: seq<Spendable>, charge: int, k: nat): seq<Planned>
    requires k <= |order|
  {
    if k == 0 then []
    else
      Entries(order, charge, k - 1) +
      (if Amount(order, charge, k - 1) > 0
       then [Planned(order[k - 1].id, order[k - 1].bucket, Amount(order, charge, k - 1))] else [])
  }

  function Allocations(grants: seq<Spendable>, charge: int): seq<Planned> {
    Entries(Ordered(grants), charge, |Ordered(grants)|)
  }

  lemma CapacityStep(order: seq<Spendable>, k: nat)
    requires k < |order|
    ensures Capacity(order, k + 1) == Capacity(order, k) + Holding(order[k])
  {
    SumByPrefix(order, k, Holding);
  }

  lemma AmountBounds(order: seq<Spendable>, charge: int, k: nat)
    requires k < |order|
    ensures 0 <= Amount(order, charge, k) <= Holding(order[k])
    ensures Amount(order, charge, k) == Max(0, Min(Max(0, charge) - Drawn(order, charge, k), order[k].remaining))
  {
    CapacityStep(order, k);
    SumByZero(order[..k], Holding);
  }

  lemma {:induction false} NothingOutstanding(order: seq<Spendable>, charge: int, i: nat, k: nat)
    requires i <= k <= |order|
    requires Drawn(order, charge, i) == Max(0, charge)
    ensures Entries(order, charge, k) == Entries(order, charge, i)
    ensures Drawn(order, charge, k) == Max(0, charge)
    decreases k
  {
    if i < k {
      NothingOutstanding(order, charge, i, k - 1);
      CapacityStep(order, k - 1);
    }
  }

  method PlanAllocations(grants: seq<Spendable>, credits: int) returns (out: seq<Planned>)
    ensures out == Allocations(grants, credits)
  {
    var ordered := Ordered(grants);
    out := [];
    var outstanding := Max(0, credits);
    for i := 0 to |ordered|
      invariant out == Entries(ordered, credits, i)
      invariant outstanding == Max(0, credits) - Drawn(ordered, credits, i)
    {
      if outstanding <= 0 {
        NothingOutstanding(ordered, credits, i, |ordered|);
        break;
      }
      AmountBounds(ordered, credits, i);
      var take := Min(outstanding, ordered[i].remaining);
      if take <= 0 {
        continue;
      }
      out := out + [Planned(ordered[i].id, ordered[i].bucket, take)];
      outstanding := outstanding - take;
    }
  }

  // ---- what the plan is worth -----------------------------------------------

  lemma {:induction false} EntriesTotal(order: seq<Spendable>, charge: int, k: nat)
    requires k <= |order|
    ensures SumBy(Entries(order, charge, k), (p: Planned) => p.credits) == Drawn(order, charge, k)
  {
    var f := (p: Planned) => p.credits;
    if k > 0 {
      EntriesTotal(order, charge, k - 1);
      AmountBounds(order, charge, k - 1);
      if Amount(order, charge, k - 1) > 0 {
        SumBySnoc(Entries(order, charge, k - 1),
                  Planned(order[k - 1].id, order[k - 1].bucket, Amount(order, charge, k - 1)), f);
      } else {
        assert Entries(order, charge, k) == Entries(order, charge, k - 1);
      }
    }
  }

  // The plan covers the charge or drains the workspace, whichever is less.
  lemma PlanTotal(grants: seq<Spendable>, charge: int)
    ensures SumBy(Allocations(grants, charge), (p: Planned) => p.credits)
         == Min(Max(0, charge), SumBy(grants, Holding))
  {
    var order := Ordered(grants);
    EntriesTotal(order, charge, |order|);
    assert order[..|order|] == order;
    OrderedIsPermutation(grants);
    SumByPermutation(order, grants, Holding);
  }

  ghost predicate UniqueSpendables(grants: seq<Spendable>) {
    forall i, j | 0 <= i < j < |grants| :: grants[i].id != grants[j].id
  }

  // Entry e pays from the grant at position k, and no more than it holds.
  ghost predicate PaidFrom(order: seq<Spendable>, e: Planned, k: nat) {
    k < |order| && e.grantId == order[k].id && e.bucket == order[k].bucket && 0 < e.credits <= order[k].remaining
  }

  // The positions of the spend order that pay something.
  ghost function Payers(order: seq<Spendable>, charge: int, k: nat): seq<nat>
    requires k <= |order|
  {
    if k == 0 then []
    else Payers(order, charge, k - 1) + (if Amount(order, charge, k - 1) > 0 then [k - 1] else [])
  }

  lemma {:induction false} EntriesArePaid(order: seq<Spendable>, charge: int, k: nat)
    requires k <= |order|
    ensures |Payers(order, charge, k)| == |Entries(order, charge, k)|
    ensures forall i | 0 <= i < |Payers(order, charge, k)| ::
              && Payers(order, charge, k)[i] < k
              && PaidFrom(order, Entries(order, charge, k)[i], Payers(order, charge, k)[i])
    ensures forall i, j | 0 <= i < j < |Payers(order, charge, k)| ::
              Payers(order, charge, k)[i] < Payers(order, charge, k)[j]
  {
    if k > 0 {
      EntriesArePaid(order, charge, k - 1);
      AmountBounds(order, charge, k - 1);
      var at, paid := Payers(order, charge, k - 1), Entries(order, charge, k - 1);
      if Amount(order, charge, k - 1) <= 0 {
        assert Payers(order, charge, k) == at && Entries(order, charge, k) == paid;
      } else {
        var e := Planned(order[k - 1].id, order[k - 1].bucket, Amount(order, charge, k - 1));
        assert PaidFrom(order, e, k - 1);
        assert Payers(order, charge, k) == at + [k - 1] && Entries(order, charge, k) == paid + [e];
      }
    }
  }

  lemma UniqueUnderPermutation(a: seq<Spendable>, b: seq<Spendable>)
    requires multiset(a) == multiset(b)
    requires UniqueSpendables(a)
    ensures UniqueSpendables(b)
  {
    forall i, j | 0 <= i < j < |b| ensures b[i].id != b[j].id {
      assert b[i] in multiset(a) && b[j] in multiset(a);
      var x :| 0 <= x < |a| && a[x] == b[i];
      var y :| 0 <= y < |a| && a[y] == b[j];
      CountOnce(a, x);
      if b[i] == b[j] {
        CountTwice(b, i, j);
      }
    }
  }

  // Every grant pays at most once, and never more than it holds.
  lemma PlanTakesOnce(grants: seq<Spendable>, charge: int)
    requires UniqueSpendables(grants)
    ensures forall i, j | 0 <= i < j < |Allocations(grants, charge)| ::
              Allocations(grants, charge)[i].grantId != Allocations(grants, charge)[j].grantId
    ensures forall e | e in Allocations(grants, charge) ::
              exists s | s in grants :: s.id == e.grantId && s.bucket == e.bucket && 0 < e.credits <= s.remaining
  {
    var order := Ordered(grants);
    var at := Payers(order, charge, |order|);
    EntriesArePaid(order, charge, |order|);
    OrderedIsPermutation(grants);
    UniqueUnderPermutation(grants, order);
    var plan := Allocations(grants, charge);
    forall i, j | 0 <= i < j < |plan| ensures plan[i].grantId != plan[j].grantId {
      assert PaidFrom(order, plan[i], at[i]) && PaidFrom(order, plan[j], at[j]);
      assert at[i] < at[j];
    }
    forall e | e in plan
      ensures exists s | s in grants :: s.id == e.grantId && s.bucket == e.bucket && 0 < e.credits <= s.remaining
    {
      var i :| 0 <= i < |plan| && plan[i] == e;
      assert PaidFrom(order, e, at[i]);
      assert order[at[i]] in multiset(grants);
    }
  }

  // ---- dominance ------------------------------------------------------------

  // Any way of paying: an amount per grant of the spend order, within holdings.
  ghost predicate Payment(order: seq<Spendable>, v: seq<int>) {
    |v| == |order| && forall k | 0 <= k < |v| :: 0 <= v[k] <= Holding(order[k])
  }

  function Total(v: seq<int>): int {
    SumBy(v, (x: int) => x)
  }

  lemma PaymentWithinCapacity(order: seq<Spendable>, v: seq<int>, k: nat)
    requires Payment(order, v) && k <= |order|
    ensures 0 <= Total(v[..k]) <= Capacity(order, k)
    ensures Total(v[..k]) <= Total(v)
  {
    PrefixWithinCapacity(order, v, k);
    assert v == v[..k] + v[k..];
    SumByAppend(v[..k], v[k..], (x: int) => x);
    SumByZero(v[k..], (x: int) => x);
  }

  lemma {:induction false} PrefixWithinCapacity(order: seq<Spendable>, v: seq<int>, k: nat)
    requires Payment(order, v) && k <= |order|
    ensures 0 <= Total(v[..k]) <= Capacity(order, k)
  {
    if k > 0 {
      PrefixWithinCapacity(order, v, k - 1);
      SumByPrefix(v, k - 1, (x: int) => x);
      CapacityStep(order, k - 1);
    }
  }

  // Among all payments of the planned total, the plan takes the most from every
  // prefix of the spend order: soonest-to-expire credits go first, always.
  lemma PlanDominates(grants: seq<Spendable>, charge: int, v: seq<int>, k: nat)
    requires Payment(Ordered(grants), v) && k <= |v|
    requires Total(v) == SumBy(Allocations(grants, charge), (p: Planned) => p.credits)
    ensures Total(v[..k]) <= SumBy(Entries(Ordered(grants), charge, k), (p: Planned) => p.credits)
  {
    var order := Ordered(grants);
    EntriesTotal(order, charge, k);
    EntriesTotal(order, charge, |order|);
    PaymentWithinCapacity(order, v, k);
  }

  // The plan itself is such a payment, so the bound is attained.
  lemma PlanIsPayment(order: seq<Spendable>, charge: int, v: seq<int>)
    requires |v| == |order| && forall k | 0 <= k < |v| :: v[k] == Amount(order, charge, k)
    ensures Payment(order, v)
    ensures forall k | 0 <= k <= |v| :: Total(v[..k]) == Drawn(order, charge, k)
  {
    forall k | 0 <= k < |v| ensures 0 <= v[k] <= Holding(order[k]) {
      AmountBounds(order, charge, k);
    }
    forall k | 0 <= k <= |v| ensures Total(v[..k]) == Drawn(order, charge, k) {
      PlanPrefix(order, charge, v, k);
    }
  }

  lemma {:induction false} PlanPrefix(order: seq<Spendable>, charge: int, v: seq<int>, k: nat)
    requires |v| == |order| && forall i | 0 <= i < |v| :: v[i] == Amount(order, charge, i)
    requires k <= |v|
    ensures Total(v[..k]) == Drawn(order, charge, k)
  {
    if k > 0 {
      PlanPrefix(order, charge, v, k - 1);
      SumByPrefix(v, k - 1, (x: int) => x);
    }
  }

  // A later grant is touched only once every earlier one is drained.
  lemma EarlierDrained(order: seq<Spendable>, charge: int, j: nat, k: nat)
    requires j < k < |order|
    requires Amount(order, charge, k) > 0
    ensures Amount(order, charge, j) == Holding(order[j])
  {
    CapacityMonotone(order, j + 1, k);
    CapacityStep(order, j);
    CapacityStep(order, k);
  }

  lemma {:induction false} CapacityMonotone(order: seq<Spendable>, j: nat, k: nat)
    requires j <= k <= |order|
    ensures Capacity(order, j) <= Capacity(order, k)
    decreases k
  {
    if j < k {
      CapacityMonotone(order, j, k - 1);
      CapacityStep(order, k - 1);
    }
  }

  // ---- the allowance first ------------------------------------------------------------

  // a is spent before b: rollover, then plan, then top-ups, then rewards.
  predicate SpentBefore(a: Bucket, b: Bucket) {
    || (a == Rollover && b != Rollover)
    || (a == Plan && (b == TopUp || b == Reward))
    || (a == TopUp && b == Reward)
  }

  lemma {:induction false} EntryOf(order: seq<Spendable>, charge: int, j: nat, k: nat)
    requires j < k <= |order| && Amount(order, charge, j) > 0
    ensures Planned(order[j].id, order[j].bucket, Amount(order, charge, j)) in Entries(order, charge, k)
    decreases k
  {
    if j < k - 1 {
      EntryOf(order, charge, j, k - 1);
    }
  }

  // A bucket is touched only once every grant of every earlier one is paid out whole:
  // top-ups and rewards are reached only when the allowance is exhausted.
  lemma EarlierBucketsFirst(grants: seq<Spendable>, charge: int, e: Planned, g: Spendable)
    requires e in Allocations(grants, charge) && g in grants && g.remaining > 0 && SpentBefore(g.bucket, e.bucket)
    ensures Planned(g.id, g.bucket, g.remaining) in Allocations(grants, charge)
  {
    var order := Ordered(grants);
    var at := Payers(order, charge, |order|);
    EntriesArePaid(order, charge, |order|);
    OrderedIsPermutation(grants);
    OrderedIsSorted(grants);
    assert g in multiset(order);
    var j :| 0 <= j < |order| && order[j] == g;
    var i :| 0 <= i < |Allocations(grants, charge)| && Allocations(grants, charge)[i] == e;
    var k := at[i];
    assert PaidFrom(order, e, k);
    PayersPay(order, charge, |order|, i);
    assert Rank(order[j].bucket) < Rank(order[k].bucket);
    EarlierDrained(order, charge, j, k);
    EntryOf(order, charge, j, |order|);
  }

  lemma {:induction false} PayersPay(order: seq<Spendable>, charge: int, k: nat, i: nat)
    requires k <= |order| && i < |Payers(order, charge, k)|
    ensures Payers(order, charge, k)[i] < k && Amount(order, charge, Payers(order, charge, k)[i]) > 0
  {
    if i < |Payers(order, charge, k - 1)| {
      PayersPay(order, charge, k - 1, i);
    }
  }
}
