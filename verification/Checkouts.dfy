// One-off checkouts from the customer's side: what was paid is credited, once, as
// it was paid, by every delivery that is answered.
module Checkouts {
  import opened Prelude
  import opened Billing
  import opened BillingOrigins

  lemma ClaimedStays(catalog: Catalog, states: seq<Sys>, actions: seq<Action>, i: nat, j: nat, key: Key)
    requires Run(catalog, states, actions) && i <= j < |states| && Claimed(states[i].committed, key)
    ensures Claimed(states[j].committed, key)
  {
    CommittedGrows(catalog, states, actions, i, j);
    var b :| b in states[i].committed && b.key == key;
    var k :| 0 <= k < |states[i].committed| && states[i].committed[k] == b;
    assert states[j].committed[k] == b;
  }

  // An acknowledged one-off checkout that names a workspace and credits and is not
  // unpaid has been credited exactly once, then and at every later moment.
  lemma AcknowledgedCheckoutIsCredited(catalog: Catalog, states: seq<Sys>, actions: seq<Action>, i: nat, j: nat,
                                       w: nat, session: Session)
    requires Run(catalog, states, actions) && i <= j < |states|
    requires w in states[i].workers && states[i].workers[w].pc.Acked?
    requires states[i].workers[w].delivery == CheckoutCompleted(session)
    requires !session.forSubscription && session.workspace.Some? && session.credits > 0 && session.paid != Some(false)
    ensures |TopUps(Rows(states[j].committed), session.id)| == 1
  {
    RunKeepsInv(catalog, states, actions, i);
    assert WorkerInv(catalog, states[i].committed, states[i].workers[w]);
    ClaimedStays(catalog, states, actions, i, j, SessionKey(session.id));
    GrantedAtMostOnce(catalog, states, actions, j, session.id);
  }

  // A top-up row is what one delivered session says: its workspace, its credits,
  // and no expiry; the session was a one-off checkout, not unpaid.
  ghost predicate TopsUp(session: Session, r: Row, id: nat) {
    && session.id == id && !session.forSubscription && session.credits > 0 && session.paid != Some(false)
    && session.workspace == Some(r.workspace) && r.credits == session.credits && r.expiresAt.None?
  }

  lemma {:induction false} RowOfSomeBatch(committed: seq<Batch>, r: Row) returns (b: Batch)
    requires r in Rows(committed)
    ensures b in committed && r in b.rows
  {
    if r in committed[0].rows {
      b := committed[0];
    } else {
      b := RowOfSomeBatch(committed[1..], r);
    }
  }

  lemma TopUpsAreAsPaid(catalog: Catalog, states: seq<Sys>, actions: seq<Action>, i: nat, id: nat, r: Row)
    requires Run(catalog, states, actions) && i < |states|
    requires r in TopUps(Rows(states[i].committed), id)
    ensures exists w | w in states[i].workers ::
              states[i].workers[w].delivery.CheckoutCompleted? && TopsUp(states[i].workers[w].delivery.session, r, id)
  {
    EveryGrantWasPaidFor(catalog, states, actions, i);
    FilterMembers(Rows(states[i].committed), (x: Row) => x.kind == TopUpRow && x.sessionId == Some(id));
    var b := RowOfSomeBatch(states[i].committed, r);
    assert HasOrigin(catalog, states[i].workers, b);
    var w :| w in states[i].workers && CameFrom(catalog, states[i].workers[w], b);
    assert states[i].workers[w].delivery.CheckoutCompleted?;
    assert TopsUp(states[i].workers[w].delivery.session, r, id);
  }

  // ---- every delivery that comes to an answer ------------------------------------------

  predicate Pending(s: Sys, w: nat, session: Session) {
    w in s.workers && s.workers[w].delivery == CheckoutCompleted(session) && !s.workers[w].pc.Failed?
  }

  lemma StepKeepsPending(catalog: Catalog, s: Sys, a: Action, w: nat, session: Session)
    requires Inv(catalog, s) && Enabled(s, a) && a != Move(w, Abort) && Pending(s, w, session)
    ensures Pending(Apply(catalog, s, a), w, session)
  {
    assert WorkerInv(catalog, s.committed, s.workers[w]);
  }

  lemma {:induction false} StaysPending(catalog: Catalog, s: Sys, states: seq<Sys>, actions: seq<Action>, i: nat,
                                        w: nat, session: Session)
    requires Inv(catalog, s) && Schedule(catalog, s, states, actions) && i < |states|
    requires Pending(s, w, session) && Move(w, Abort) !in actions
    ensures Pending(states[i], w, session)
  {
    if i > 0 {
      StaysPending(catalog, s, states, actions, i - 1, w, session);
      ScheduleKeepsInv(catalog, s, states, actions, i - 1);
      assert actions[i - 1] in actions;
      StepKeepsPending(catalog, states[i - 1], actions[i - 1], w, session);
    }
  }

  // Whatever else is going on, a delivery of such a checkout that is never aborted
  // and comes to an answer leaves it credited exactly once.
  lemma UnabortedCheckoutIsCredited(catalog: Catalog, s: Sys, states: seq<Sys>, actions: seq<Action>, w: nat,
                                    session: Session)
    requires Inv(catalog, s) && Schedule(catalog, s, states, actions)
    requires w in s.workers && s.workers[w] == Worker(CheckoutCompleted(session), Received, None, [])
    requires !session.forSubscription && session.workspace.Some? && session.credits > 0 && session.paid != Some(false)
    requires Move(w, Abort) !in actions
    requires w in states[|actions|].workers && Finished(states[|actions|].workers[w])
    ensures states[|actions|].workers[w].pc.Acked?
    ensures |TopUps(Rows(states[|actions|].committed), session.id)| == 1
  {
    var last := states[|actions|];
    StaysPending(catalog, s, states, actions, |actions|, w, session);
    ScheduleKeepsInv(catalog, s, states, actions, |actions|);
    assert WorkerInv(catalog, last.committed, last.workers[w]);
    RowsPerKey(catalog, last.committed, session.id);
    OneBatchPerKey(last.committed, SessionKey(session.id));
  }
}
