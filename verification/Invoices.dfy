// What a granted invoice is worth, and to whom: every row it brought is fixed by the
// invoice, by what Stripe last said of its subscription, and by the catalogue.
module Invoices {
  import opened Prelude
  import LedgerTables
  import LedgerRuns
  import opened Billing
  import opened BillingOrigins
  import Checkouts

  // ---- where a subscription row came from ------------------------------------------------

  // Some acknowledged change named this workspace and plan for the subscription.
  ghost predicate Named(workers: map<nat, Worker>, id: nat, workspace: nat, plan: nat) {
    exists v | v in workers ::
      && workers[v].delivery.SubscriptionChanged? && workers[v].delivery.id == id && workers[v].pc.Acked?
      && workers[v].delivery.workspace == Some(workspace) && workers[v].delivery.plan == Some(plan)
  }

  // Some change of the subscription, or some invoice for it, named this period end.
  ghost predicate EndNamed(workers: map<nat, Worker>, id: nat, end: int) {
    exists v | v in workers ::
      || (workers[v].delivery.SubscriptionChanged? && workers[v].delivery.id == id
          && workers[v].delivery.periodEnd == Some(end))
      || (workers[v].delivery.InvoicePaid? && workers[v].delivery.invoice.subscription == Some(id)
          && workers[v].delivery.invoice.periodEnd == Some(end))
  }

  ghost predicate Known(workers: map<nat, Worker>, id: nat, sub: Subscription) {
    Named(workers, id, sub.workspace, sub.plan) && EndNamed(workers, id, sub.periodEnd)
  }

  ghost predicate Mirrored(s: Sys) {
    && (forall id | id in s.subscriptions :: Known(s.workers, id, s.subscriptions[id]))
    && (forall w | w in s.workers :: FoundIsKnown(s.workers, s.workers[w]))
    && (forall w | w in s.workers :: SyncIsKept(s, s.workers[w]))
  }

  // What a delivery of an invoice found was known of that invoice's subscription.
  ghost predicate FoundIsKnown(workers: map<nat, Worker>, me: Worker) {
    me.found.Some? ==>
      && me.delivery.InvoicePaid? && me.delivery.invoice.subscription.Some?
      && Known(workers, me.delivery.invoice.subscription.value, me.found.value)
  }

  // A change acknowledged with its workspace and plan is mirrored from then on.
  ghost predicate SyncIsKept(s: Sys, me: Worker) {
    me.pc.Acked? && me.delivery.SubscriptionChanged? && me.delivery.workspace.Some? && me.delivery.plan.Some? ==>
      me.delivery.id in s.subscriptions
  }

  // Deliveries never change and answered ones stay answered.
  ghost predicate Grows(before: map<nat, Worker>, after: map<nat, Worker>) {
    forall v | v in before ::
      v in after && after[v].delivery == before[v].delivery && (before[v].pc.Acked? ==> after[v].pc.Acked?)
  }

  lemma KnownGrows(before: map<nat, Worker>, after: map<nat, Worker>, id: nat, sub: Subscription)
    requires Grows(before, after) && Known(before, id, sub)
    ensures Known(after, id, sub)
  {
    var v :| v in before
             && before[v].delivery.SubscriptionChanged? && before[v].delivery.id == id && before[v].pc.Acked?
             && before[v].delivery.workspace == Some(sub.workspace) && before[v].delivery.plan == Some(sub.plan);
    assert v in after;
    var e :| e in before
             && (|| (before[e].delivery.SubscriptionChanged? && before[e].delivery.id == id
                     && before[e].delivery.periodEnd == Some(sub.periodEnd))
                 || (before[e].delivery.InvoicePaid? && before[e].delivery.invoice.subscription == Some(id)
                     && before[e].delivery.invoice.periodEnd == Some(sub.periodEnd)));
    assert e in after;
  }

  lemma StepGrows(catalog: Catalog, s: Sys, a: Action)
    requires Inv(catalog, s) && Enabled(s, a)
    ensures Grows(s.workers, Apply(catalog, s, a).workers)
    ensures forall id | id in s.subscriptions :: id in Apply(catalog, s, a).subscriptions
    ensures forall v | v in s.workers && v != a.w :: Apply(catalog, s, a).workers[v] == s.workers[v]
  {
    if a.Move? {
      MoverGrows(catalog, s, a);
    }
  }

  lemma MoverGrows(catalog: Catalog, s: Sys, a: Action)
    requires Inv(catalog, s) && Enabled(s, a) && a.Move?
    ensures a.w in Apply(catalog, s, a).workers
    ensures Apply(catalog, s, a).workers[a.w].delivery == s.workers[a.w].delivery
    ensures !s.workers[a.w].pc.Acked?
  {
    assert WorkerInv(catalog, s.committed, s.workers[a.w]);
  }

  // What the moving delivery is after its step.
  lemma MovedIs(catalog: Catalog, s: Sys, a: Action)
    requires Inv(catalog, s) && Enabled(s, a) && a.Move?
    ensures a.w in Apply(catalog, s, a).workers
    ensures Apply(catalog, s, a).workers[a.w].delivery == s.workers[a.w].delivery
    ensures
      var me, me' := s.workers[a.w], Apply(catalog, s, a).workers[a.w];
      me'.found == me.found
      || (&& me.delivery.InvoicePaid? && me.delivery.invoice.subscription.Some?
          && me.delivery.invoice.subscription.value in s.subscriptions
          && me'.found == Some(s.subscriptions[me.delivery.invoice.subscription.value]))
  {
    assert WorkerInv(catalog, s.committed, s.workers[a.w]);
  }

  // Which rows a step can write: the one a change names, or the period end of the one
  // an invoice is for.
  lemma RowsWritten(catalog: Catalog, s: Sys, a: Action, id: nat)
    requires Inv(catalog, s) && Enabled(s, a)
    requires id in Apply(catalog, s, a).subscriptions
    requires id !in s.subscriptions || Apply(catalog, s, a).subscriptions[id] != s.subscriptions[id]
    ensures a.Move?
    ensures ByChange(s, a, id, Apply(catalog, s, a)) || ByInvoice(s, a, id, Apply(catalog, s, a))
  {
    if a.Move? {
      assert WorkerInv(catalog, s.committed, s.workers[a.w]);
    }
  }

  ghost predicate ByChange(s: Sys, a: Action, id: nat, next: Sys)
    requires a.w in s.workers && id in next.subscriptions
  {
    var d, sub := s.workers[a.w].delivery, next.subscriptions[id];
    && d.SubscriptionChanged? && d.id == id && d.workspace == Some(sub.workspace) && d.plan == Some(sub.plan)
    && a.w in next.workers && next.workers[a.w].pc.Acked?
    && (d.periodEnd == Some(sub.periodEnd)
        || (d.periodEnd.None? && id in s.subscriptions && sub.periodEnd == s.subscriptions[id].periodEnd))
  }

  ghost predicate ByInvoice(s: Sys, a: Action, id: nat, next: Sys)
    requires a.w in s.workers && id in next.subscriptions
  {
    var me, sub := s.workers[a.w], next.subscriptions[id];
    && me.delivery.InvoicePaid? && me.delivery.invoice.subscription == Some(id) && me.found.Some?
    && id in s.subscriptions && sub == s.subscriptions[id].(periodEnd := sub.periodEnd)
    && (me.delivery.invoice.periodEnd == Some(sub.periodEnd)
        || (me.delivery.invoice.periodEnd.None? && sub.periodEnd == me.found.value.periodEnd))
  }

  lemma ChangedRowIsKnown(catalog: Catalog, s: Sys, a: Action, id: nat)
    requires Inv(catalog, s) && Mirrored(s) && Enabled(s, a) && a.Move? && id in Apply(catalog, s, a).subscriptions
    requires ByChange(s, a, id, Apply(catalog, s, a))
    ensures Known(Apply(catalog, s, a).workers, id, Apply(catalog, s, a).subscriptions[id])
  {
    var next := Apply(catalog, s, a);
    StepGrows(catalog, s, a);
    MovedIs(catalog, s, a);
    if s.workers[a.w].delivery.periodEnd.None? {
      KnownGrows(s.workers, next.workers, id, s.subscriptions[id]);
    }
  }

  lemma InvoicedRowIsKnown(catalog: Catalog, s: Sys, a: Action, id: nat)
    requires Inv(catalog, s) && Mirrored(s) && Enabled(s, a) && a.Move? && id in Apply(catalog, s, a).subscriptions
    requires ByInvoice(s, a, id, Apply(catalog, s, a))
    ensures Known(Apply(catalog, s, a).workers, id, Apply(catalog, s, a).subscriptions[id])
  {
    var next, me := Apply(catalog, s, a), s.workers[a.w];
    StepGrows(catalog, s, a);
    MovedIs(catalog, s, a);
    KnownGrows(s.workers, next.workers, id, s.subscriptions[id]);
    assert FoundIsKnown(s.workers, me);
    KnownGrows(s.workers, next.workers, id, me.found.value);
  }

  lemma RowStaysKnown(catalog: Catalog, s: Sys, a: Action, id: nat)
    requires Inv(catalog, s) && Mirrored(s) && Enabled(s, a) && id in Apply(catalog, s, a).subscriptions
    ensures Known(Apply(catalog, s, a).workers, id, Apply(catalog, s, a).subscriptions[id])
  {
    var next := Apply(catalog, s, a);
    if id in s.subscriptions && next.subscriptions[id] == s.subscriptions[id] {
      StepGrows(catalog, s, a);
      KnownGrows(s.workers, next.workers, id, s.subscriptions[id]);
    } else {
      RowsWritten(catalog, s, a, id);
      if ByChange(s, a, id, next) {
        ChangedRowIsKnown(catalog, s, a, id);
      } else {
        InvoicedRowIsKnown(catalog, s, a, id);
      }
    }
  }

  lemma FoundStaysKnown(catalog: Catalog, s: Sys, a: Action, w: nat)
    requires Inv(catalog, s) && Mirrored(s) && Enabled(s, a) && w in Apply(catalog, s, a).workers
    ensures FoundIsKnown(Apply(catalog, s, a).workers, Apply(catalog, s, a).workers[w])
  {
    var next := Apply(catalog, s, a);
    StepGrows(catalog, s, a);
    var me := next.workers[w];
    if w in s.workers && me.found.Some? {
      assert FoundIsKnown(s.workers, s.workers[w]);
      if w == a.w {
        MovedIs(catalog, s, a);
      }
      KnownGrows(s.workers, next.workers, me.delivery.invoice.subscription.value, me.found.value);
    }
  }

  lemma SyncStaysKept(catalog: Catalog, s: Sys, a: Action, w: nat)
    requires Inv(catalog, s) && Mirrored(s) && Enabled(s, a) && w in Apply(catalog, s, a).workers
    ensures SyncIsKept(Apply(catalog, s, a), Apply(catalog, s, a).workers[w])
  {
    StepGrows(catalog, s, a);
    if w in s.workers {
      assert SyncIsKept(s, s.workers[w]) && WorkerInv(catalog, s.committed, s.workers[w]);
    }
  }

  lemma StepKeepsMirror(catalog: Catalog, s: Sys, a: Action)
    requires Inv(catalog, s) && Mirrored(s) && Enabled(s, a)
    ensures Mirrored(Apply(catalog, s, a))
  {
    var next := Apply(catalog, s, a);
    forall id | id in next.subscriptions ensures Known(next.workers, id, next.subscriptions[id]) {
      RowStaysKnown(catalog, s, a, id);
    }
    forall w | w in next.workers
      ensures FoundIsKnown(next.workers, next.workers[w]) && SyncIsKept(next, next.workers[w])
    {
      FoundStaysKnown(catalog, s, a, w);
      SyncStaysKept(catalog, s, a, w);
    }
  }

  lemma {:induction false} RunKeepsMirror(catalog: Catalog, states: seq<Sys>, actions: seq<Action>, i: nat)
    requires Run(catalog, states, actions) && i < |states|
    ensures Mirrored(states[i])
  {
    if i > 0 {
      RunKeepsMirror(catalog, states, actions, i - 1);
      RunKeepsInv(catalog, states, actions, i - 1);
      StepKeepsMirror(catalog, states[i - 1], actions[i - 1]);
    }
  }

  // The newest change wins: once acknowledged, the mirror shows what it named, and
  // the period it named or else the one already there.
  lemma ChangeIsMirrored(catalog: Catalog, s: Sys, w: nat, c: Choice)
    requires Enabled(s, Move(w, c)) && c.Proceed?
    requires s.workers[w].pc.Received? && s.workers[w].delivery.SubscriptionChanged?
    requires
      var d := s.workers[w].delivery;
      d.workspace.Some? && d.plan.Some? && (d.periodEnd.Some? || d.id in s.subscriptions)
    ensures
      var d, next := s.workers[w].delivery, Apply(catalog, s, Move(w, c));
      && next.workers[w].pc.Acked? && d.id in next.subscriptions
      && next.subscriptions[d.id].workspace == d.workspace.value && next.subscriptions[d.id].plan == d.plan.value
      && (d.periodEnd.Some? ==> next.subscriptions[d.id].periodEnd == d.periodEnd.value)
      && (d.periodEnd.None? ==> next.subscriptions[d.id].periodEnd == s.subscriptions[d.id].periodEnd)
      && (forall id | id != d.id :: id in next.subscriptions <==> id in s.subscriptions)
      && (forall id | id != d.id && id in s.subscriptions :: next.subscriptions[id] == s.subscriptions[id])
  {
  }

  // The commit moves the subscription to the period just granted, and nothing else
  // about it.
  lemma CommitMovesPeriod(catalog: Catalog, s: Sys, w: nat, c: Choice)
    requires Inv(catalog, s) && Enabled(s, Move(w, c)) && c.Proceed?
    requires s.workers[w].delivery.InvoicePaid? && s.workers[w].pc.Updated?
    ensures
      var inv, sub, next := s.workers[w].delivery.invoice, s.workers[w].found.value, Apply(catalog, s, Move(w, c));
      && next.subscriptions.Keys == s.subscriptions.Keys
      && forall id | id in s.subscriptions ::
           && next.subscriptions[id].workspace == s.subscriptions[id].workspace
           && next.subscriptions[id].plan == s.subscriptions[id].plan
           && next.subscriptions[id].periodEnd == (
                if inv.subscription != Some(id) then s.subscriptions[id].periodEnd
                else if inv.periodEnd.Some? then inv.periodEnd.value else sub.periodEnd)
  {
    assert WorkerInv(catalog, s.committed, s.workers[w]);
  }

  // ---- what a plan grant says ----------------------------------------------------------------

  // The allowance of one delivered invoice: its subscription's workspace and plan as
  // Stripe named them, the plan's credits, and the period the invoice pays for.
  ghost predicate AllowanceOf(catalog: Catalog, workers: map<nat, Worker>, inv: Invoice, id: nat, r: Row) {
    && inv.id == id && inv.subscription.Some? && inv.reason != Some(OtherReason)
    && (exists plan | plan in catalog ::
          Named(workers, inv.subscription.value, r.workspace, plan) && r.credits == catalog[plan].monthlyCredits)
    && r.expiresAt.Some? && (inv.periodEnd.Some? ==> r.expiresAt == inv.periodEnd)
    && EndNamed(workers, inv.subscription.value, r.expiresAt.value)
  }

  lemma PlanGrantsAreAsPaid(catalog: Catalog, states: seq<Sys>, actions: seq<Action>, i: nat, id: nat, r: Row)
    requires Run(catalog, states, actions) && i < |states|
    requires r in PlanGrants(Rows(states[i].committed), id)
    ensures exists w | w in states[i].workers ::
              states[i].workers[w].delivery.InvoicePaid?
              && AllowanceOf(catalog, states[i].workers, states[i].workers[w].delivery.invoice, id, r)
  {
    var s := states[i];
    EveryGrantWasPaidFor(catalog, states, actions, i);
    RunKeepsMirror(catalog, states, actions, i);
    FilterMembers(Rows(s.committed), (x: Row) => x.kind == PlanRow && x.invoiceId == Some(id));
    var b := Checkouts.RowOfSomeBatch(s.committed, r);
    assert HasOrigin(catalog, s.workers, b);
    var w :| w in s.workers && CameFrom(catalog, s.workers[w], b);
    PlanRowIsAllowance(catalog, s, w, b, id, r);
  }

  lemma PlanRowIsAllowance(catalog: Catalog, s: Sys, w: nat, b: Batch, id: nat, r: Row)
    requires Mirrored(s) && w in s.workers && CameFrom(catalog, s.workers[w], b)
    requires r in b.rows && r.kind == PlanRow && r.invoiceId == Some(id)
    ensures s.workers[w].delivery.InvoicePaid?
    ensures AllowanceOf(catalog, s.workers, s.workers[w].delivery.invoice, id, r)
  {
    var me := s.workers[w];
    assert me.delivery.InvoicePaid?;
    var inv, sub := me.delivery.invoice, me.found.value;
    assert FoundIsKnown(s.workers, me);
    assert r == AllowanceRow(inv, sub, catalog[sub.plan], PeriodEnd(inv, sub));
    if inv.periodEnd.Some? {
      assert s.workers[w].delivery.invoice.periodEnd == Some(r.expiresAt.value);
    }
  }

  // ---- the same renewal, seen from the ledger ---------------------------------------------------

  // A ledger grant as a committed row; the invoice id goes on the allowance alone.
  function AsRow(g: LedgerTables.Grant, invoice: nat): Row {
    match g.bucket
    case Rollover => Row(RolloverRow, g.workspace, g.credits, g.expiresAt, None, None)
    case Plan => Row(PlanRow, g.workspace, g.credits, g.expiresAt, Some(invoice), None)
    case TopUp => Row(TopUpRow, g.workspace, g.credits, g.expiresAt, None, None)
    case Reward => Row(BonusRow, g.workspace, g.credits, g.expiresAt, None, None)
  }

  function AsRows(grants: seq<LedgerTables.Grant>, invoice: nat): seq<Row> {
    if grants == [] then [] else [AsRow(grants[0], invoice)] + AsRows(grants[1..], invoice)
  }

  lemma {:induction false} AsRowsAppend(a: seq<LedgerTables.Grant>, b: seq<LedgerTables.Grant>, invoice: nat)
    ensures AsRows(a + b, invoice) == AsRows(a, invoice) + AsRows(b, invoice)
  {
    if a == [] {
      assert a + b == b;
    } else {
      assert (a + b)[0] == a[0] && (a + b)[1..] == a[1..] + b;
      AsRowsAppend(a[1..], b, invoice);
    }
  }

  lemma OneRow(g: LedgerTables.Grant, invoice: nat)
    ensures AsRows([g], invoice) == [AsRow(g, invoice)]
  {
    assert [g][1..] == [];
  }

  lemma RolloverAsRows(l: LedgerRuns.State, sub: Subscription, end: int, invoice: nat)
    returns (added: seq<LedgerTables.Grant>)
    ensures LedgerRuns.WithRollover(l, sub.workspace, end).grants == l.grants + added
    ensures AsRows(added, invoice) == RolloverRows(LedgerRuns.Carried(l, sub.workspace), sub, end)
  {
    var carried := LedgerRuns.Carried(l, sub.workspace);
    added := [];
    if carried > 0 {
      added := [LedgerTables.Grant(l.nextId, sub.workspace, LedgerTables.Bucket.Rollover, carried, Some(end), None,
                                   l.now)];
      OneRow(added[0], invoice);
    }
  }

  lemma BonusAsRows(l: LedgerRuns.State, sub: Subscription, seats: int, invoice: nat)
    returns (added: seq<LedgerTables.Grant>)
    ensures LedgerRuns.WithBonus(l, sub.workspace, seats).grants == l.grants + added
    ensures AsRows(added, invoice) == BonusRows(seats, sub)
  {
    var bonus := LedgerRuns.SeatBonusFor(seats);
    added := [];
    if bonus > 0 {
      added := [LedgerTables.Grant(l.nextId, sub.workspace, LedgerTables.Reward, bonus, None, None, l.now)];
      OneRow(added[0], invoice);
    }
  }

  // The batch a delivery commits is what the ledger's renewal adds, row for row.
  lemma PeriodIsRenewal(l: LedgerRuns.State, inv: Invoice, sub: Subscription, terms: PlanTerms, seats: int)
    ensures
      var end := if inv.periodEnd.Some? then inv.periodEnd.value else sub.periodEnd;
      var l' := LedgerRuns.Renewed(l, sub.workspace, terms.monthlyCredits, terms.priceCents, seats, end);
      && l.grants <= l'.grants
      && PeriodRows(inv, sub, terms, LedgerRuns.Carried(l, sub.workspace), seats)
         == AsRows(l'.grants[|l.grants|..], inv.id)
  {
    var end, bought := PeriodEnd(inv, sub), terms.monthlyCredits;
    var l1 := LedgerRuns.WithRollover(l, sub.workspace, end);
    var l2 := LedgerRuns.Granted(l1, sub.workspace, LedgerTables.Plan, bought, Some(end), Some(terms.priceCents));
    var a := RolloverAsRows(l, sub, end, inv.id);
    var g := LedgerTables.Grant(l1.nextId, sub.workspace, LedgerTables.Plan, bought, Some(end), Some(terms.priceCents),
                                l1.now);
    var c := BonusAsRows(l2, sub, seats, inv.id);
    OneRow(g, inv.id);
    AsRowsAppend(a + [g], c, inv.id);
    AsRowsAppend(a, [g], inv.id);
    var l' := LedgerRuns.Renewed(l, sub.workspace, bought, terms.priceCents, seats, end);
    assert l'.grants == l.grants + (a + [g] + c);
    assert l'.grants[|l.grants|..] == a + [g] + c;
  }
}
