// Where every committed grant came from: one delivery of a paid event that reached
// its commit, whose payload and subscription fix every row of the batch.
module BillingOrigins {
  import opened Prelude
  import opened Billing

  // Past its commit, whether Stripe has been answered, is about to be, or never was.
  predicate PastCommit(pc: Pc) {
    pc.Committed? || pc.Acked? || pc == Failed(true)
  }

  ghost predicate CameFrom(catalog: Catalog, me: Worker, b: Batch) {
    PastCommit(me.pc) &&
    match me.delivery
    case InvoicePaid(inv) => Renewal(inv) && b.key == InvoiceKey(inv.id) && PeriodOf(catalog, inv, me, b.rows)
    case CheckoutCompleted(session) => Paid(session) && b.key == SessionKey(session.id) && b.rows == [TopUp(session)]
    case _ => false
  }

  // A whole period of the subscription the delivery found: rollover, allowance
  // and bonus, or none of them.
  ghost predicate PeriodOf(catalog: Catalog, inv: Invoice, me: Worker, rows: seq<Row>) {
    && me.found.Some? && me.found.value.plan in catalog
    && exists carried: nat, seats: int ::
         rows == PeriodRows(inv, me.found.value, catalog[me.found.value.plan], carried, seats)
  }

  ghost predicate HasOrigin(catalog: Catalog, workers: map<nat, Worker>, b: Batch) {
    exists w | w in workers :: CameFrom(catalog, workers[w], b)
  }

  ghost predicate Originated(catalog: Catalog, s: Sys) {
    forall b | b in s.committed :: HasOrigin(catalog, s.workers, b)
  }

  // Past its commit a delivery can only be answered or fail to be, so what it
  // granted stays its own.
  lemma OriginStays(catalog: Catalog, s: Sys, a: Action, b: Batch)
    requires Enabled(s, a) && HasOrigin(catalog, s.workers, b)
    ensures HasOrigin(catalog, Apply(catalog, s, a).workers, b)
  {
    var w :| w in s.workers && CameFrom(catalog, s.workers[w], b);
    assert CameFrom(catalog, Apply(catalog, s, a).workers[w], b);
  }

  // Whatever a step commits, the worker that moved is its origin.
  lemma NewBatchHasOrigin(catalog: Catalog, s: Sys, a: Action, b: Batch)
    requires Inv(catalog, s) && Enabled(s, a)
    requires b in Apply(catalog, s, a).committed && b !in s.committed
    ensures HasOrigin(catalog, Apply(catalog, s, a).workers, b)
  {
    var me := s.workers[a.w];
    assert WorkerInv(catalog, s.committed, me);
    var next := Apply(catalog, s, a);
    assert CameFrom(catalog, next.workers[a.w], b);
  }

  lemma StepKeepsOrigins(catalog: Catalog, s: Sys, a: Action)
    requires Inv(catalog, s) && Originated(catalog, s) && Enabled(s, a)
    ensures Originated(catalog, Apply(catalog, s, a))
  {
    forall b | b in Apply(catalog, s, a).committed ensures HasOrigin(catalog, Apply(catalog, s, a).workers, b) {
      if b in s.committed {
        OriginStays(catalog, s, a, b);
      } else {
        NewBatchHasOrigin(catalog, s, a, b);
      }
    }
  }

  // Under every interleaving, every grant in the ledger belongs to a whole batch
  // written for one paid delivery that reached its commit.
  lemma {:induction false} EveryGrantWasPaidFor(catalog: Catalog, states: seq<Sys>, actions: seq<Action>, i: nat)
    requires Run(catalog, states, actions) && i < |states|
    ensures Originated(catalog, states[i])
  {
    if i > 0 {
      EveryGrantWasPaidFor(catalog, states, actions, i - 1);
      RunKeepsInv(catalog, states, actions, i - 1);
      StepKeepsOrigins(catalog, states[i - 1], actions[i - 1]);
    }
  }

  // ---- what an unknown plan means ---------------------------------------------------

  // A delivery of the invoice that found a known plan and got past its commit, or
  // to its acknowledgement.
  predicate FoundKnownPlan(catalog: Catalog, me: Worker, id: nat) {
    && me.delivery.InvoicePaid? && me.delivery.invoice.id == id
    && me.delivery.invoice.subscription.Some? && me.delivery.invoice.reason != Some(OtherReason)
    && me.found.Some? && me.found.value.plan in catalog
    && PastCommit(me.pc)
  }

  lemma KnownPlanIsClaimed(catalog: Catalog, s: Sys, w: nat, id: nat)
    requires Inv(catalog, s) && w in s.workers && FoundKnownPlan(catalog, s.workers[w], id)
    ensures Claimed(s.committed, InvoiceKey(id))
  {
    assert WorkerInv(catalog, s.committed, s.workers[w]);
  }

  // An invoice is granted, once, if and only if some delivery of it found a known
  // plan and was not lost before its commit; while every delivery finds an unknown
  // plan, however many are acknowledged, nothing is granted.
  lemma GrantedIffPlanWasKnown(catalog: Catalog, states: seq<Sys>, actions: seq<Action>, i: nat, id: nat)
    requires Run(catalog, states, actions) && i < |states|
    ensures |PlanGrants(Rows(states[i].committed), id)| <= 1
    ensures |PlanGrants(Rows(states[i].committed), id)| == 1 <==>
            exists w | w in states[i].workers :: FoundKnownPlan(catalog, states[i].workers[w], id)
  {
    var s := states[i];
    RunKeepsInv(catalog, states, actions, i);
    GrantedAtMostOnce(catalog, states, actions, i, id);
    EveryGrantWasPaidFor(catalog, states, actions, i);
    if Claimed(s.committed, InvoiceKey(id)) {
      var b :| b in s.committed && b.key == InvoiceKey(id);
      assert HasOrigin(catalog, s.workers, b);
      var w :| w in s.workers && CameFrom(catalog, s.workers[w], b);
      assert FoundKnownPlan(catalog, s.workers[w], id);
    } else {
      forall w | w in s.workers ensures !FoundKnownPlan(catalog, s.workers[w], id) {
        if FoundKnownPlan(catalog, s.workers[w], id) {
          KnownPlanIsClaimed(catalog, s, w, id);
        }
      }
    }
  }

  // A subscription synced on a plan the catalogue does not have, then its paid
  // invoice: acknowledged, and nothing is granted.
  lemma UnknownPlanIsAcked(catalog: Catalog, plan: nat, inv: Invoice) returns (states: seq<Sys>, actions: seq<Action>)
    requires plan !in catalog && inv.subscription.Some? && inv.reason != Some(OtherReason)
    ensures Run(catalog, states, actions)
    ensures
      var last := states[|actions|];
      && last.committed == []
      && 1 in last.workers && last.workers[1].delivery == InvoicePaid(inv) && last.workers[1].pc.Acked?
  {
    var sync := SubscriptionChanged(inv.subscription.value, Some(7), Some(plan), Some(100));
    var go := Proceed(0, 0);
    actions := [Arrive(0, sync), Move(0, go), Arrive(1, InvoicePaid(inv)), Move(1, go), Move(1, go)];
    var s1 := Apply(catalog, Start(), actions[0]);
    var s2 := Apply(catalog, s1, actions[1]);
    var s3 := Apply(catalog, s2, actions[2]);
    var s4 := Apply(catalog, s3, actions[3]);
    var s5 := Apply(catalog, s4, actions[4]);
    states := [Start(), s1, s2, s3, s4, s5];
  }
}
