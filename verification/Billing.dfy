// Stripe webhooks as interleaved steps. Deliveries are retried, may race on
// several instances, and may fail at any point; the guards are one transaction
// and the unique indexes on stripeInvoiceId and stripeSessionId.
module Billing {
  import opened Prelude
  import LedgerRuns

  // ---- payloads ---------------------------------------------------------------

  datatype Reason = SubscriptionCreate | SubscriptionCycle | OtherReason

  datatype Invoice = Invoice(id: nat, reason: Option<Reason>, subscription: Option<nat>, periodEnd: Option<int>)

  datatype Session = Session(id: nat, forSubscription: bool, workspace: Option<nat>, credits: int, paid: Option<bool>)

  datatype Delivery =
    | InvoicePaid(invoice: Invoice)
    | CheckoutCompleted(session: Session)
    | SubscriptionChanged(id: nat, workspace: Option<nat>, plan: Option<nat>, periodEnd: Option<int>)
    | Unhandled

  datatype PlanTerms = PlanTerms(monthlyCredits: nat, priceCents: nat)

  type Catalog = map<nat, PlanTerms>

  // ---- tables -----------------------------------------------------------------

  datatype Subscription = Subscription(workspace: nat, plan: nat, periodEnd: int)

  datatype Kind = RolloverRow | PlanRow | BonusRow | TopUpRow

  datatype Row = Row(kind: Kind, workspace: nat, credits: int, expiresAt: Option<int>,
                     invoiceId: Option<nat>, sessionId: Option<nat>)

  datatype Key = InvoiceKey(invoice: nat) | SessionKey(session: nat)

  // One committed transaction: the unique key it claimed and the rows it wrote.
  datatype Batch = Batch(key: Key, rows: seq<Row>)

  ghost predicate Claimed(committed: seq<Batch>, key: Key) {
    exists b | b in committed :: b.key == key
  }

  function Rows(committed: seq<Batch>): seq<Row> {
    if committed == [] then [] else committed[0].rows + Rows(committed[1..])
  }

  // ---- workers: one per delivery ------------------------------------------------

  datatype Pc =
    | Received
    | Renewing                              // applyRenewal entered
    | PreChecked                            // no committed grant for the invoice yet
    | Measured(carried: nat, seats: int)    // in the transaction, rollover buffered
    | PlanInserted(carried: nat, seats: int)
    | BonusInserted(carried: nat, seats: int)
    | Updated(carried: nat, seats: int)     // subscription row updated, ready to commit
    | SessionChecked
    | Committed                             // granted, Stripe not answered yet
    | Acked
    | Failed(granted: bool)

  datatype Worker = Worker(delivery: Delivery, pc: Pc, found: Option<Subscription>, buffer: seq<Row>)

  datatype Sys = Sys(committed: seq<Batch>, subscriptions: map<nat, Subscription>, workers: map<nat, Worker>)

  datatype Choice = Proceed(carried: nat, seats: int) | Abort

  datatype Action = Arrive(w: nat, delivery: Delivery) | Move(w: nat, choice: Choice)

  predicate Finished(w: Worker) {
    w.pc.Acked? || w.pc.Failed?
  }

  // Holds the uncommitted index entry for its invoice.
  predicate Holds(w: Worker, invoice: nat) {
    && w.delivery.InvoicePaid? && w.delivery.invoice.id == invoice
    && (w.pc.PlanInserted? || w.pc.BonusInserted? || w.pc.Updated?)
  }

  predicate Renewal(inv: Invoice) {
    (inv.reason.None? || !inv.reason.value.OtherReason?) && inv.subscription.Some?
  }

  function PeriodEnd(inv: Invoice, sub: Subscription): int {
    if inv.periodEnd.Some? then inv.periodEnd.value else sub.periodEnd
  }

  function RolloverRows(carried: nat, sub: Subscription, end: int): seq<Row> {
    if carried > 0 then [Row(RolloverRow, sub.workspace, carried, Some(end), None, None)] else []
  }

  function AllowanceRow(inv: Invoice, sub: Subscription, terms: PlanTerms, end: int): Row {
    Row(PlanRow, sub.workspace, terms.monthlyCredits, Some(end), Some(inv.id), None)
  }

  function BonusRows(seats: int, sub: Subscription): seq<Row> {
    var bonus := LedgerRuns.SeatBonusFor(seats);
    if bonus > 0 then [Row(BonusRow, sub.workspace, bonus, None, None, None)] else []
  }

  // Everything one paid period writes.
  function PeriodRows(inv: Invoice, sub: Subscription, terms: PlanTerms, carried: nat, seats: int): seq<Row> {
    var end := PeriodEnd(inv, sub);
    RolloverRows(carried, sub, end) + [AllowanceRow(inv, sub, terms, end)] + BonusRows(seats, sub)
  }

  function TopUp(s: Session): Row
    requires s.workspace.Some?
  {
    Row(TopUpRow, s.workspace.value, s.credits, None, None, Some(s.id))
  }

  // A one-off checkout that names its workspace and credits and is not unpaid.
  predicate Paid(s: Session) {
    && !s.forSubscription
    && s.workspace.Some? && s.credits > 0
    && s.paid != Some(false)
  }

  ghost predicate TakesSession(committed: seq<Batch>, s: Session) {
    Paid(s) && !Claimed(committed, SessionKey(s.id))
  }

  // ---- one step of one worker -------------------------------------------------

  // An INSERT of a claimed key waits for the transaction that holds it.
  ghost predicate Enabled(s: Sys, a: Action) {
    match a
    case Arrive(w, d) => w !in s.workers
    case Move(w, choice) =>
      && w in s.workers && !Finished(s.workers[w])
      && (choice.Proceed? && s.workers[w].pc.Measured? && s.workers[w].delivery.InvoicePaid? ==>
            forall v | v in s.workers && v != w :: !Holds(s.workers[v], s.workers[w].delivery.invoice.id))
  }

  ghost function ReceivedStep(s: Sys, me: Worker): (Worker, map<nat, Subscription>) {
    match me.delivery
    case Unhandled => (me.(pc := Acked), s.subscriptions)
    case SubscriptionChanged(id, workspace, plan, periodEnd) =>
      if workspace.None? || plan.None? then (me.(pc := Acked), s.subscriptions)
      else if periodEnd.None? && id !in s.subscriptions then (me.(pc := Failed(false)), s.subscriptions)
      else
        var end := if periodEnd.Some? then periodEnd.value else s.subscriptions[id].periodEnd;
        (me.(pc := Acked), s.subscriptions[id := Subscription(workspace.value, plan.value, end)])
    case CheckoutCompleted(session) =>
      (me.(pc := if TakesSession(s.committed, session) then SessionChecked else Acked), s.subscriptions)
    case InvoicePaid(inv) =>
      if !Renewal(inv) then (me.(pc := Acked), s.subscriptions)
      else if inv.subscription.value !in s.subscriptions then (me.(pc := Failed(false)), s.subscriptions)
      else (me.(pc := Renewing, found := Some(s.subscriptions[inv.subscription.value])), s.subscriptions)
  }

  ghost function Moved(catalog: Catalog, s: Sys, w: nat, carried: nat, seats: int): Sys
    requires w in s.workers
  {
    var me := s.workers[w];
    if me.pc.Received? then
      var (me', subs') := ReceivedStep(s, me);
      s.(workers := s.workers[w := me'], subscriptions := subs')
    else if me.pc.Committed? then s.(workers := s.workers[w := me.(pc := Acked)])
    else if me.delivery.CheckoutCompleted? && me.delivery.session.workspace.Some? && me.pc.SessionChecked? then
      var key := SessionKey(me.delivery.session.id);
      if Claimed(s.committed, key) then s.(workers := s.workers[w := me.(pc := Acked)])
      else s.(workers := s.workers[w := me.(pc := Committed, buffer := [])],
              committed := s.committed + [Batch(key, [TopUp(me.delivery.session)])])
    else if me.delivery.InvoicePaid? && me.found.Some? then
      InvoiceMoved(catalog, s, w, me, me.delivery.invoice, me.found.value, carried, seats)
    else s
  }

  ghost function InvoiceMoved(catalog: Catalog, s: Sys, w: nat, me: Worker, inv: Invoice, sub: Subscription,
                              carried: nat, seats: int): Sys
    requires w in s.workers
  {
    var end := PeriodEnd(inv, sub);
    if sub.plan !in catalog then s.(workers := s.workers[w := me.(pc := Acked)])
    else
      var terms := catalog[sub.plan];
      match me.pc
      case Renewing =>
        s.(workers := s.workers[w := me.(pc := if Claimed(s.committed, InvoiceKey(inv.id)) then Acked else PreChecked)])
      case PreChecked =>
        s.(workers := s.workers[w := me.(pc := Measured(carried, seats), buffer := RolloverRows(carried, sub, end))])
      case Measured(c, n) =>
        if Claimed(s.committed, InvoiceKey(inv.id)) then
          s.(workers := s.workers[w := me.(pc := Acked, buffer := [])])
        else
          s.(workers := s.workers[w := me.(pc := PlanInserted(c, n),
                                           buffer := me.buffer + [AllowanceRow(inv, sub, terms, end)])])
      case PlanInserted(c, n) =>
        s.(workers := s.workers[w := me.(pc := BonusInserted(c, n), buffer := me.buffer + BonusRows(n, sub))])
      case BonusInserted(c, n) =>
        s.(workers := s.workers[w := me.(pc := Updated(c, n))])
      case Updated(c, n) =>
        Sys(s.committed + [Batch(InvoiceKey(inv.id), me.buffer)],
            if inv.subscription.Some? && inv.subscription.value in s.subscriptions
            then s.subscriptions[inv.subscription.value := s.subscriptions[inv.subscription.value].(periodEnd := end)]
            else s.subscriptions,
            s.workers[w := me.(pc := Committed, buffer := [])])
      case _ => s
  }

  // Rolled back, unless the transaction had already committed.
  function Aborted(me: Worker): Worker {
    me.(pc := Failed(me.pc.Committed?), buffer := [])
  }

  ghost function Apply(catalog: Catalog, s: Sys, a: Action): Sys
    requires Enabled(s, a)
  {
    match a
    case Arrive(w, d) => s.(workers := s.workers[w := Worker(d, Received, None, [])])
    case Move(w, choice) =>
      match choice
      case Abort => s.(workers := s.workers[w := Aborted(s.workers[w])])
      case Proceed(carried, seats) => Moved(catalog, s, w, carried, seats)
  }

  // ---- the invariant ------------------------------------------------------------

  // A committed transaction is a whole period or a single top-up.
  ghost predicate WholeBatch(catalog: Catalog, b: Batch) {
    match b.key
    case InvoiceKey(id) =>
      exists inv: Invoice, sub: Subscription, carried: nat, seats: int ::
        inv.id == id && sub.plan in catalog && b.rows == PeriodRows(inv, sub, catalog[sub.plan], carried, seats)
    case SessionKey(id) =>
      exists session: Session :: session.id == id && Paid(session) && b.rows == [TopUp(session)]
  }

  ghost predicate DistinctKeys(committed: seq<Batch>) {
    forall i, j | 0 <= i < j < |committed| :: committed[i].key != committed[j].key
  }

  predicate InTransaction(pc: Pc) {
    pc.Measured? || pc.PlanInserted? || pc.BonusInserted? || pc.Updated?
  }

  // What the transaction has written so far.
  function Written(inv: Invoice, sub: Subscription, terms: PlanTerms, pc: Pc): seq<Row>
    requires InTransaction(pc)
  {
    var end := PeriodEnd(inv, sub);
    match pc
    case Measured(carried, seats) => RolloverRows(carried, sub, end)
    case PlanInserted(carried, seats) => RolloverRows(carried, sub, end) + [AllowanceRow(inv, sub, terms, end)]
    case _ => PeriodRows(inv, sub, terms, pc.carried, pc.seats)
  }

  // An acknowledged renewal found its subscription, and if the plan is known
  // the period has been granted.
  ghost predicate AckMeansGranted(catalog: Catalog, committed: seq<Batch>, inv: Invoice, me: Worker) {
    me.pc.Acked? && Renewal(inv) ==>
      && me.found.Some?
      && (me.found.value.plan in catalog ==> Claimed(committed, InvoiceKey(inv.id)))
  }

  ghost predicate InvoiceWorkerInv(catalog: Catalog, committed: seq<Batch>, inv: Invoice, me: Worker) {
    && !me.pc.SessionChecked?
    && (me.pc.Renewing? || me.pc.PreChecked? || InTransaction(me.pc) ==> Renewal(inv) && me.found.Some?)
    && (me.pc.PreChecked? || InTransaction(me.pc) ==> me.found.value.plan in catalog)
    && (InTransaction(me.pc) ==> me.buffer == Written(inv, me.found.value, catalog[me.found.value.plan], me.pc))
    && (Holds(me, inv.id) ==> !Claimed(committed, InvoiceKey(inv.id)))
    && AckMeansGranted(catalog, committed, inv, me)
    && (me.pc.Committed? || me.pc == Failed(true) ==>
          Renewal(inv) && me.found.Some? && Claimed(committed, InvoiceKey(inv.id)))
  }

  ghost predicate WorkerInv(catalog: Catalog, committed: seq<Batch>, me: Worker) {
    match me.delivery
    case InvoicePaid(inv) => InvoiceWorkerInv(catalog, committed, inv, me)
    case CheckoutCompleted(session) =>
      && (me.pc.Received? || me.pc.SessionChecked? || me.pc.Committed? || Finished(me))
      && (me.pc.SessionChecked? || me.pc.Committed? ==> Paid(session))
      && (Paid(session) && (me.pc.Committed? || me.pc.Acked? || me.pc == Failed(true)) ==>
            Claimed(committed, SessionKey(session.id)))
    case _ => me.pc.Received? || Finished(me)
  }

  ghost predicate OneHolder(workers: map<nat, Worker>) {
    forall v, w, id | v in workers && w in workers && Holds(workers[v], id) && Holds(workers[w], id) :: v == w
  }

  // A top-up was asked for by some one-off checkout.
  ghost predicate AskedFor(workers: map<nat, Worker>, session: nat) {
    exists w | w in workers ::
      && workers[w].delivery.CheckoutCompleted?
      && workers[w].delivery.session.id == session
      && !workers[w].delivery.session.forSubscription
  }

  ghost predicate Inv(catalog: Catalog, s: Sys) {
    && (forall b | b in s.committed :: WholeBatch(catalog, b))
    && DistinctKeys(s.committed)
    && (forall w | w in s.workers :: WorkerInv(catalog, s.committed, s.workers[w]))
    && OneHolder(s.workers)
    && (forall b | b in s.committed && b.key.SessionKey? :: AskedFor(s.workers, b.key.session))
  }

  function Start(): Sys {
    Sys([], map[], map[])
  }

  lemma StartInv(catalog: Catalog)
    ensures Inv(catalog, Start())
  {
  }

  lemma ClaimedAppend(committed: seq<Batch>, b: Batch, key: Key)
    ensures Claimed(committed + [b], key) <==> Claimed(committed, key) || b.key == key
  {
    if Claimed(committed, key) {
      var x :| x in committed && x.key == key;
      assert x in committed + [b];
    }
    assert b in committed + [b];
  }

  // A step that commits nothing: only the moving worker has to be checked.
  lemma QuietStep(catalog: Catalog, s: Sys, w: nat, me: Worker, subs: map<nat, Subscription>)
    requires Inv(catalog, s)
    requires w in s.workers ==> s.workers[w].delivery == me.delivery
    requires WorkerInv(catalog, s.committed, me)
    requires forall v, id | v in s.workers && v != w && Holds(me, id) :: !Holds(s.workers[v], id)
    ensures Inv(catalog, Sys(s.committed, subs, s.workers[w := me]))
  {
    var workers := s.workers[w := me];
    forall b | b in s.committed && b.key.SessionKey? ensures AskedFor(workers, b.key.session) {
      assert AskedFor(s.workers, b.key.session);
      var v :| v in s.workers && s.workers[v].delivery.CheckoutCompleted?
               && s.workers[v].delivery.session.id == b.key.session && !s.workers[v].delivery.session.forSubscription;
      assert workers[v].delivery == s.workers[v].delivery;
    }
  }

  // A commit claims a fresh key with a whole batch.
  lemma CommitStep(catalog: Catalog, s: Sys, w: nat, b: Batch, subs: map<nat, Subscription>)
    requires Inv(catalog, s) && w in s.workers
    requires !Claimed(s.committed, b.key) && WholeBatch(catalog, b)
    requires b.key.SessionKey? ==> AskedFor(s.workers, b.key.session)
    requires b.key.InvoiceKey? ==> forall v | v in s.workers && v != w :: !Holds(s.workers[v], b.key.invoice)
    requires WorkerInv(catalog, s.committed + [b], s.workers[w].(pc := Committed, buffer := []))
    ensures Inv(catalog, Sys(s.committed + [b], subs, s.workers[w := s.workers[w].(pc := Committed, buffer := [])]))
  {
    var me := s.workers[w].(pc := Committed, buffer := []);
    var workers, committed := s.workers[w := me], s.committed + [b];
    forall v | v in workers ensures WorkerInv(catalog, committed, workers[v]) {
      if v != w {
        if workers[v].delivery.InvoicePaid? {
          ClaimedAppend(s.committed, b, InvoiceKey(workers[v].delivery.invoice.id));
        } else if workers[v].delivery.CheckoutCompleted? {
          ClaimedAppend(s.committed, b, SessionKey(workers[v].delivery.session.id));
        }
      }
    }
    assert DistinctKeys(committed) by {
      forall i, j | 0 <= i < j < |committed| ensures committed[i].key != committed[j].key {
        if j == |s.committed| {
          assert s.committed[i] in s.committed;
        }
      }
    }
    QuietStep(catalog, s, w, s.workers[w], subs);
    forall c | c in committed && c.key.SessionKey? ensures AskedFor(workers, c.key.session) {
      assert AskedFor(s.workers, c.key.session);
      var v :| v in s.workers && s.workers[v].delivery.CheckoutCompleted?
               && s.workers[v].delivery.session.id == c.key.session && !s.workers[v].delivery.session.forSubscription;
      assert workers[v].delivery == s.workers[v].delivery;
    }
  }

  lemma ReceivedKeepsInv(catalog: Catalog, s: Sys, w: nat, carried: nat, seats: int)
    requires Inv(catalog, s) && w in s.workers && s.workers[w].pc.Received?
    ensures Inv(catalog, Moved(catalog, s, w, carried, seats))
  {
    var (me, subs) := ReceivedStep(s, s.workers[w]);
    assert WorkerInv(catalog, s.committed, s.workers[w]);
    QuietStep(catalog, s, w, me, subs);
  }

  lemma CheckoutKeepsInv(catalog: Catalog, s: Sys, w: nat, carried: nat, seats: int)
    requires Inv(catalog, s) && w in s.workers
    requires s.workers[w].delivery.CheckoutCompleted? && (s.workers[w].pc.SessionChecked? || s.workers[w].pc.Committed?)
    ensures Inv(catalog, Moved(catalog, s, w, carried, seats))
  {
    var me := s.workers[w];
    assert WorkerInv(catalog, s.committed, me);
    var session := me.delivery.session;
    var b := Batch(SessionKey(session.id), [TopUp(session)]);
    if me.pc.Committed? || Claimed(s.committed, b.key) {
      QuietStep(catalog, s, w, me.(pc := Acked), s.subscriptions);
    } else {
      ClaimedAppend(s.committed, b, b.key);
      CommitStep(catalog, s, w, b, s.subscriptions);
    }
  }

  lemma InvoiceKeepsInv(catalog: Catalog, s: Sys, w: nat, carried: nat, seats: int)
    requires Inv(catalog, s) && Enabled(s, Move(w, Proceed(carried, seats)))
    requires s.workers[w].delivery.InvoicePaid? && !s.workers[w].pc.Received?
    ensures Inv(catalog, Moved(catalog, s, w, carried, seats))
  {
    var me := s.workers[w];
    assert WorkerInv(catalog, s.committed, me);
    var inv, sub := me.delivery.invoice, me.found.value;
    var end := PeriodEnd(inv, sub);
    var key := InvoiceKey(inv.id);
    if me.pc.Committed? {
      QuietStep(catalog, s, w, me.(pc := Acked), s.subscriptions);
    } else if sub.plan !in catalog {
      QuietStep(catalog, s, w, me.(pc := Acked), s.subscriptions);
    } else if me.pc.Updated? {
      assert Holds(me, inv.id);
      CommitStep(catalog, s, w, Batch(key, me.buffer), Moved(catalog, s, w, carried, seats).subscriptions) by {
        assert WholeBatch(catalog, Batch(key, me.buffer));
        ClaimedAppend(s.committed, Batch(key, me.buffer), key);
      }
    } else {
      var next := Moved(catalog, s, w, carried, seats);
      QuietStep(catalog, s, w, next.workers[w], s.subscriptions) by {
        forall v, id | v in s.workers && v != w && Holds(next.workers[w], id) ensures !Holds(s.workers[v], id) {
          assert id == inv.id;
          if !me.pc.Measured? {
            assert Holds(me, inv.id);
          }
        }
      }
    }
  }

  lemma StepKeepsInv(catalog: Catalog, s: Sys, a: Action)
    requires Inv(catalog, s) && Enabled(s, a)
    ensures Inv(catalog, Apply(catalog, s, a))
  {
    match a
    case Arrive(w, d) => QuietStep(catalog, s, w, Worker(d, Received, None, []), s.subscriptions);
    case Move(w, choice) =>
      var me := s.workers[w];
      assert WorkerInv(catalog, s.committed, me);
      match choice
      case Abort => QuietStep(catalog, s, w, Aborted(me), s.subscriptions);
      case Proceed(carried, seats) =>
        if me.pc.Received? {
          ReceivedKeepsInv(catalog, s, w, carried, seats);
        } else if me.delivery.InvoicePaid? {
          InvoiceKeepsInv(catalog, s, w, carried, seats);
        } else {
          CheckoutKeepsInv(catalog, s, w, carried, seats);
        }
  }

  // ---- safety over every interleaving -------------------------------------------

  ghost predicate Run(catalog: Catalog, states: seq<Sys>, actions: seq<Action>) {
    && |states| == |actions| + 1
    && states[0] == Start()
    && forall i | 0 <= i < |actions| ::
         Enabled(states[i], actions[i]) && states[i + 1] == Apply(catalog, states[i], actions[i])
  }

  lemma {:induction false} RunKeepsInv(catalog: Catalog, states: seq<Sys>, actions: seq<Action>, i: nat)
    requires Run(catalog, states, actions) && i < |states|
    ensures Inv(catalog, states[i])
  {
    if i > 0 {
      RunKeepsInv(catalog, states, actions, i - 1);
      StepKeepsInv(catalog, states[i - 1], actions[i - 1]);
    } else {
      StartInv(catalog);
    }
  }

  // The ledger only grows, so a granted period stays granted.
  lemma {:induction false} CommittedGrows(catalog: Catalog, states: seq<Sys>, actions: seq<Action>, i: nat, j: nat)
    requires Run(catalog, states, actions) && i <= j < |states|
    ensures states[i].committed <= states[j].committed
    decreases j
  {
    if i < j {
      CommittedGrows(catalog, states, actions, i, j - 1);
    }
  }

  function PlanGrants(rows: seq<Row>, invoice: nat): seq<Row> {
    Filter(rows, (r: Row) => r.kind == PlanRow && r.invoiceId == Some(invoice))
  }

  function TopUps(rows: seq<Row>, session: nat): seq<Row> {
    Filter(rows, (r: Row) => r.kind == TopUpRow && r.sessionId == Some(session))
  }

  function BatchesOf(committed: seq<Batch>, key: Key): seq<Batch> {
    Filter(committed, (b: Batch) => b.key == key)
  }

  lemma PeriodRowsGrantOnce(inv: Invoice, sub: Subscription, terms: PlanTerms, carried: nat, seats: int, id: nat)
    ensures |PlanGrants(PeriodRows(inv, sub, terms, carried, seats), id)| == if inv.id == id then 1 else 0
    ensures TopUps(PeriodRows(inv, sub, terms, carried, seats), id) == []
  {
    var isPlan := (r: Row) => r.kind == PlanRow && r.invoiceId == Some(id);
    var isTopUp := (r: Row) => r.kind == TopUpRow && r.sessionId == Some(id);
    var end := PeriodEnd(inv, sub);
    var allowance := AllowanceRow(inv, sub, terms, end);
    var before, after := RolloverRows(carried, sub, end), BonusRows(seats, sub);
    FilterNone(before, isPlan);
    FilterNone(after, isPlan);
    FilterAppend(before + [allowance], after, isPlan);
    FilterAppend(before, [allowance], isPlan);
    if inv.id == id {
      FilterAll([allowance], isPlan);
    } else {
      FilterNone([allowance], isPlan);
    }
    FilterNone(before + [allowance] + after, isTopUp);
  }

  lemma BatchGrants(catalog: Catalog, b: Batch, id: nat)
    requires WholeBatch(catalog, b)
    ensures |PlanGrants(b.rows, id)| == if b.key == InvoiceKey(id) then 1 else 0
    ensures |TopUps(b.rows, id)| == if b.key == SessionKey(id) then 1 else 0
  {
    match b.key
    case InvoiceKey(invoice) =>
      var inv: Invoice, sub: Subscription, carried: nat, seats: int :|
        inv.id == invoice && sub.plan in catalog && b.rows == PeriodRows(inv, sub, catalog[sub.plan], carried, seats);
      PeriodRowsGrantOnce(inv, sub, catalog[sub.plan], carried, seats, id);
    case SessionKey(session) =>
      FilterNone(b.rows, (r: Row) => r.kind == PlanRow && r.invoiceId == Some(id));
      if session == id {
        FilterAll(b.rows, (r: Row) => r.kind == TopUpRow && r.sessionId == Some(id));
      } else {
        FilterNone(b.rows, (r: Row) => r.kind == TopUpRow && r.sessionId == Some(id));
      }
  }

  lemma {:induction false} RowsPerKey(catalog: Catalog, committed: seq<Batch>, id: nat)
    requires forall b | b in committed :: WholeBatch(catalog, b)
    ensures |PlanGrants(Rows(committed), id)| == |BatchesOf(committed, InvoiceKey(id))|
    ensures |TopUps(Rows(committed), id)| == |BatchesOf(committed, SessionKey(id))|
  {
    if committed != [] {
      var first, rest := committed[0], committed[1..];
      RowsPerKey(catalog, rest, id);
      BatchGrants(catalog, first, id);
      FilterAppend(first.rows, Rows(rest), (r: Row) => r.kind == PlanRow && r.invoiceId == Some(id));
      FilterAppend(first.rows, Rows(rest), (r: Row) => r.kind == TopUpRow && r.sessionId == Some(id));
    }
  }

  lemma {:induction false} OneBatchPerKey(committed: seq<Batch>, key: Key)
    requires DistinctKeys(committed)
    ensures |BatchesOf(committed, key)| == if Claimed(committed, key) then 1 else 0
  {
    if committed != [] {
      var first, rest := committed[0], committed[1..];
      assert DistinctKeys(rest);
      OneBatchPerKey(rest, key);
      assert forall b | b in rest :: b in committed;
      assert first in committed;
      if first.key == key {
        forall b | b in rest ensures b.key != key {
          var k :| 0 <= k < |rest| && rest[k] == b;
          assert committed[k + 1] == b;
        }
      } else if Claimed(committed, key) {
        var b :| b in committed && b.key == key;
        assert b in rest;
      }
    }
  }

  // Under every interleaving of retries, races and crashes, an invoice has at
  // most one plan grant and a checkout session at most one top-up.
  lemma GrantedAtMostOnce(catalog: Catalog, states: seq<Sys>, actions: seq<Action>, i: nat, id: nat)
    requires Run(catalog, states, actions) && i < |states|
    ensures |PlanGrants(Rows(states[i].committed), id)| == if Claimed(states[i].committed, InvoiceKey(id)) then 1 else 0
    ensures |TopUps(Rows(states[i].committed), id)| == if Claimed(states[i].committed, SessionKey(id)) then 1 else 0
  {
    RunKeepsInv(catalog, states, actions, i);
    RowsPerKey(catalog, states[i].committed, id);
    OneBatchPerKey(states[i].committed, InvoiceKey(id));
    OneBatchPerKey(states[i].committed, SessionKey(id));
  }

  // A delivery Stripe saw acknowledged has been granted, once, for good.
  lemma AcknowledgedMeansGrantedOnce(catalog: Catalog, states: seq<Sys>, actions: seq<Action>, i: nat, j: nat, w: nat)
    requires Run(catalog, states, actions) && i <= j < |states|
    requires w in states[i].workers && states[i].workers[w].pc.Acked?
    requires states[i].workers[w].delivery.InvoicePaid?
    requires
      var inv := states[i].workers[w].delivery.invoice;
      inv.subscription.Some? && inv.reason != Some(OtherReason)
    requires states[i].workers[w].found.Some? && states[i].workers[w].found.value.plan in catalog
    ensures |PlanGrants(Rows(states[j].committed), states[i].workers[w].delivery.invoice.id)| == 1
  {
    var id := states[i].workers[w].delivery.invoice.id;
    RunKeepsInv(catalog, states, actions, i);
    assert WorkerInv(catalog, states[i].committed, states[i].workers[w]);
    CommittedGrows(catalog, states, actions, i, j);
    var b :| b in states[i].committed && b.key == InvoiceKey(id);
    var k :| 0 <= k < |states[i].committed| && states[i].committed[k] == b;
    assert states[j].committed[k] == b;
    GrantedAtMostOnce(catalog, states, actions, j, id);
  }

  // A subscription checkout grants nothing itself; its first invoice grants the
  // one period, so the two together grant exactly one.
  lemma CheckoutPlusInvoiceGrantsOnePeriod(catalog: Catalog, states: seq<Sys>, actions: seq<Action>, i: nat,
                                           session: nat, w: nat)
    requires Run(catalog, states, actions) && i < |states|
    requires forall v | v in states[i].workers && states[i].workers[v].delivery.CheckoutCompleted?
               && states[i].workers[v].delivery.session.id == session ::
               states[i].workers[v].delivery.session.forSubscription
    requires w in states[i].workers && states[i].workers[w].pc.Acked?
    requires states[i].workers[w].delivery.InvoicePaid?
    requires
      var inv := states[i].workers[w].delivery.invoice;
      inv.subscription.Some? && inv.reason != Some(OtherReason)
    requires states[i].workers[w].found.Some? && states[i].workers[w].found.value.plan in catalog
    ensures TopUps(Rows(states[i].committed), session) == []
    ensures |PlanGrants(Rows(states[i].committed), states[i].workers[w].delivery.invoice.id)| == 1
  {
    RunKeepsInv(catalog, states, actions, i);
    GrantedAtMostOnce(catalog, states, actions, i, session);
    assert !Claimed(states[i].committed, SessionKey(session));
    AcknowledgedMeansGrantedOnce(catalog, states, actions, i, i, w);
  }

  // ---- progress -------------------------------------------------------------------

  // Steps a worker has left to take.
  function Left(pc: Pc): nat {
    match pc
    case Received => 9
    case Renewing => 8
    case PreChecked => 7
    case Measured(_, _) => 6
    case PlanInserted(_, _) => 5
    case BonusInserted(_, _) => 4
    case Updated(_, _) => 3
    case SessionChecked => 2
    case Committed => 1
    case Acked => 0
    case Failed(_) => 0
  }

  // Every step brings its worker nearer to an answer, so each delivery ends
  // within nine steps: acknowledged, or failed and delivered again.
  lemma StepsRunOut(catalog: Catalog, s: Sys, w: nat, choice: Choice)
    requires Inv(catalog, s) && Enabled(s, Move(w, choice))
    ensures Left(Apply(catalog, s, Move(w, choice)).workers[w].pc) < Left(s.workers[w].pc)
  {
    assert WorkerInv(catalog, s.committed, s.workers[w]);
  }

  // No deadlock: whoever waits, waits for a worker that can move.
  lemma SomeoneCanMove(catalog: Catalog, s: Sys, w: nat)
    requires Inv(catalog, s) && w in s.workers && !Finished(s.workers[w])
    ensures exists v, carried: nat, seats: int ::
              v in s.workers && !Finished(s.workers[v]) && Enabled(s, Move(v, Proceed(carried, seats)))
  {
    if !Enabled(s, Move(w, Proceed(0, 0))) {
      var v :| v in s.workers && v != w && Holds(s.workers[v], s.workers[w].delivery.invoice.id);
      assert Enabled(s, Move(v, Proceed(0, 0)));
    }
  }

  ghost predicate Schedule(catalog: Catalog, from: Sys, states: seq<Sys>, actions: seq<Action>) {
    && |states| == |actions| + 1
    && states[0] == from
    && forall i | 0 <= i < |actions| ::
         Enabled(states[i], actions[i]) && states[i + 1] == Apply(catalog, states[i], actions[i])
  }

  // Let worker w run on its own from inside its renewal until it is granted.
  lemma {:induction false} RunToGrant(catalog: Catalog, s: Sys, w: nat, inv: Invoice)
    returns (states: seq<Sys>, actions: seq<Action>)
    requires Inv(catalog, s) && w in s.workers
    requires s.workers[w].delivery == InvoicePaid(inv)
    requires !Finished(s.workers[w]) && !s.workers[w].pc.Received?
    requires s.workers[w].found.Some? && s.workers[w].found.value.plan in catalog
    requires forall v | v in s.workers && v != w :: !Holds(s.workers[v], inv.id)
    ensures Schedule(catalog, s, states, actions)
    ensures Inv(catalog, states[|actions|])
    ensures Claimed(states[|actions|].committed, InvoiceKey(inv.id))
    decreases Left(s.workers[w].pc)
  {
    var move := Move(w, Proceed(0, 0));
    assert WorkerInv(catalog, s.committed, s.workers[w]);
    StepsRunOut(catalog, s, w, Proceed(0, 0));
    StepKeepsInv(catalog, s, move);
    var next := Apply(catalog, s, move);
    if Claimed(next.committed, InvoiceKey(inv.id)) {
      states, actions := [s, next], [move];
    } else {
      assert WorkerInv(catalog, next.committed, next.workers[w]);
      var tail, rest := RunToGrant(catalog, next, w, inv);
      states, actions := [s] + tail, [move] + rest;
    }
  }

  lemma DeliverAgain(catalog: Catalog, s: Sys, inv: Invoice, again: nat)
    returns (states: seq<Sys>, actions: seq<Action>)
    requires Inv(catalog, s) && Renewal(inv) && again !in s.workers
    requires inv.subscription.value in s.subscriptions && s.subscriptions[inv.subscription.value].plan in catalog
    requires !Claimed(s.committed, InvoiceKey(inv.id)) && forall v | v in s.workers :: !Holds(s.workers[v], inv.id)
    ensures Schedule(catalog, s, states, actions)
    ensures Claimed(states[|actions|].committed, InvoiceKey(inv.id))
  {
    var arrive, look := Arrive(again, InvoicePaid(inv)), Move(again, Proceed(0, 0));
    var s1 := Apply(catalog, s, arrive);
    StepKeepsInv(catalog, s, arrive);
    var s2 := Apply(catalog, s1, look);
    StepKeepsInv(catalog, s1, look);
    var tail, rest := RunToGrant(catalog, s2, again, inv);
    states, actions := [s, s1] + tail, [arrive, look] + rest;
  }

  lemma GrantedOnceBySchedule(catalog: Catalog, s: Sys, states: seq<Sys>, actions: seq<Action>, id: nat)
    requires Inv(catalog, s) && Schedule(catalog, s, states, actions)
    requires Claimed(states[|actions|].committed, InvoiceKey(id))
    ensures |PlanGrants(Rows(states[|actions|].committed), id)| == 1
  {
    ScheduleKeepsInv(catalog, s, states, actions, |actions|);
    RowsPerKey(catalog, states[|actions|].committed, id);
    OneBatchPerKey(states[|actions|].committed, InvoiceKey(id));
  }

  // From every reachable state, a paid invoice of a synced subscription on a
  // known plan can still be granted by one more delivery: a 503 loses nothing.
  lemma RedeliveryCanGrant(catalog: Catalog, s: Sys, inv: Invoice, again: nat)
    returns (states: seq<Sys>, actions: seq<Action>)
    requires Inv(catalog, s) && inv.subscription.Some? && inv.reason != Some(OtherReason) && again !in s.workers
    requires inv.subscription.value in s.subscriptions && s.subscriptions[inv.subscription.value].plan in catalog
    ensures Schedule(catalog, s, states, actions)
    ensures Claimed(states[|actions|].committed, InvoiceKey(inv.id))
    ensures |PlanGrants(Rows(states[|actions|].committed), inv.id)| == 1
  {
    if Claimed(s.committed, InvoiceKey(inv.id)) {
      states, actions := [s], [];
    } else if exists v :: v in s.workers && Holds(s.workers[v], inv.id) {
      var holder :| holder in s.workers && Holds(s.workers[holder], inv.id);
      assert WorkerInv(catalog, s.committed, s.workers[holder]);
      states, actions := RunToGrant(catalog, s, holder, s.workers[holder].delivery.invoice);
    } else {
      states, actions := DeliverAgain(catalog, s, inv, again);
    }
    GrantedOnceBySchedule(catalog, s, states, actions, inv.id);
  }

  lemma {:induction false} ScheduleKeepsInv(catalog: Catalog, s: Sys, states: seq<Sys>, actions: seq<Action>, i: nat)
    requires Inv(catalog, s) && Schedule(catalog, s, states, actions) && i < |states|
    ensures Inv(catalog, states[i])
  {
    if i > 0 {
      ScheduleKeepsInv(catalog, s, states, actions, i - 1);
      StepKeepsInv(catalog, states[i - 1], actions[i - 1]);
    }
  }

  // The invoice's subscription is mirrored locally and names a known plan.
  predicate Synced(catalog: Catalog, s: Sys, inv: Invoice) {
    && inv.subscription.Some? && inv.subscription.value in s.subscriptions
    && s.subscriptions[inv.subscription.value].plan in catalog
  }

  // A delivery of the invoice that has not failed, and saw a known plan if it looked.
  predicate OnItsWay(catalog: Catalog, s: Sys, w: nat, inv: Invoice) {
    && w in s.workers && s.workers[w].delivery == InvoicePaid(inv)
    && !s.workers[w].pc.Failed?
    && (s.workers[w].found.Some? ==> s.workers[w].found.value.plan in catalog)
  }

  lemma StepKeepsOnItsWay(catalog: Catalog, s: Sys, a: Action, w: nat, inv: Invoice)
    requires Inv(catalog, s) && Enabled(s, a) && a != Move(w, Abort)
    requires Renewal(inv) && Synced(catalog, s, inv) && OnItsWay(catalog, s, w, inv)
    ensures OnItsWay(catalog, Apply(catalog, s, a), w, inv)
  {
    assert WorkerInv(catalog, s.committed, s.workers[w]);
  }

  lemma {:induction false} StaysOnItsWay(catalog: Catalog, s: Sys, states: seq<Sys>, actions: seq<Action>, i: nat,
                                         w: nat, inv: Invoice)
    requires Inv(catalog, s) && Schedule(catalog, s, states, actions) && i < |states|
    requires Renewal(inv) && OnItsWay(catalog, s, w, inv)
    requires forall j | 0 <= j < |states| :: Synced(catalog, states[j], inv)
    requires Move(w, Abort) !in actions
    ensures OnItsWay(catalog, states[i], w, inv)
  {
    if i > 0 {
      StaysOnItsWay(catalog, s, states, actions, i - 1, w, inv);
      ScheduleKeepsInv(catalog, s, states, actions, i - 1);
      assert actions[i - 1] in actions;
      StepKeepsOnItsWay(catalog, states[i - 1], actions[i - 1], w, inv);
    }
  }

  // Whatever else is going on, a new delivery of a synced invoice on a known plan
  // that is never aborted and comes to an answer leaves it granted exactly once.
  lemma UnabortedDeliveryGrants(catalog: Catalog, s: Sys, states: seq<Sys>, actions: seq<Action>, w: nat, inv: Invoice)
    requires Inv(catalog, s) && Schedule(catalog, s, states, actions)
    requires inv.subscription.Some? && inv.reason != Some(OtherReason)
    requires w in s.workers && s.workers[w] == Worker(InvoicePaid(inv), Received, None, [])
    requires forall j | 0 <= j < |states| :: Synced(catalog, states[j], inv)
    requires Move(w, Abort) !in actions
    requires w in states[|actions|].workers && Finished(states[|actions|].workers[w])
    ensures states[|actions|].workers[w].pc.Acked?
    ensures |PlanGrants(Rows(states[|actions|].committed), inv.id)| == 1
  {
    StaysOnItsWay(catalog, s, states, actions, |actions|, w, inv);
    ScheduleKeepsInv(catalog, s, states, actions, |actions|);
    assert WorkerInv(catalog, states[|actions|].committed, states[|actions|].workers[w]);
    GrantedOnceBySchedule(catalog, s, states, actions, inv.id);
  }
}
