/** `handle_webhook` in plain terms: event types, statuses, replies and audit rows written out. */
module WebhookTerms {
  import opened Outcomes
  import opened Errors
  import opened Ledger
  import opened Statements
  import opened Invariant
  import opened Protocol
  import opened ProtocolTheorems
  import opened Operations
  import opened Audit
  import opened Webhooks
  import opened VerdictSteps
  import opened Verdicts

  // ---- whole handlers ----

  /** An event of any other type is registered and answered, and changes nothing else. */
  lemma OtherTypesOnlyRegister(db: Db, e: WebhookEvent)
    requires e.eventType != "refund.settled" && e.eventType != "refund.failed"
    ensures ApplyEvent(db, e) == db
    ensures e.id !in db.events ==>
      HandleWebhook(db, e, true) == (db.(events := db.events + {e.id}), Webhook(Applied))
  {
  }

  /** A forged event is refused and a repeated one is a duplicate; neither changes any table. */
  lemma ForgedOrRepeated(db: Db, e: WebhookEvent)
    ensures HandleWebhook(db, e, false) == (db, Rejected(BadSignature))
    ensures e.id in db.events ==> HandleWebhook(db, e, true) == (db, Webhook(Duplicate))
  {
  }

  /** The event settles this row. */
  predicate Settles(e: WebhookEvent, r: Refund) {
    && e.eventType == "refund.settled"
    && r.gatewayRef == Some(e.gatewayRef)
    && (r.status == Submitted || r.status == Requested)
  }

  /** The event fails this row, possibly again. */
  predicate Fails(e: WebhookEvent, r: Refund) {
    && e.eventType == "refund.failed"
    && r.gatewayRef == Some(e.gatewayRef)
    && r.status != Settled && r.status != Canceled
  }

  lemma TakesMeans(e: WebhookEvent, r: Refund)
    ensures TakesRow(e, r) <==> Settles(e, r) || Fails(e, r)
    ensures Settles(e, r) ==> RowEvent(r, e) == r.(status := Settled)
    ensures Fails(e, r) ==> RowEvent(r, e) == r.(status := Failed, failureReason := e.reason)
    ensures !Settles(e, r) && !Fails(e, r) ==> RowEvent(r, e) == r
    ensures !(Settles(e, r) && Fails(e, r))
  {
    SettledIsNotFailed(e);
  }

  /** What a verified new event does to any row: settles it, fails it with the event's reason, or nothing. */
  lemma NewEventOnRow(db: Db, e: WebhookEvent, id: Uuid)
    requires Indexed(db) && id in db.refunds && e.id !in db.events
    ensures var (after, reply) := HandleWebhook(db, e, true);
      var r := db.refunds[id];
      && reply == Webhook(Applied)
      && id in after.refunds
      && (Settles(e, r) ==> after.refunds[id] == r.(status := Settled))
      && (Fails(e, r) ==> after.refunds[id] == r.(status := Failed, failureReason := e.reason))
      && (!Settles(e, r) && !Fails(e, r) ==> after.refunds[id] == r)
  {
    RegisteredIsIndexed(db, e.id);
    EventOnRow(InsertEvent(db, e.id), e, id);
    TakesMeans(e, db.refunds[id]);
  }

  /** And to the tables as a whole: the id is registered, no row or charge comes or goes, and the one audit row is
      that of the row taken, from the status its latest audit row gives. */
  lemma NewEventOnTables(db: Db, e: WebhookEvent, id: Uuid)
    requires Indexed(db) && e.id !in db.events && id in db.refunds
    ensures var after := HandleWebhook(db, e, true).0; var r := db.refunds[id]; var es := Entries(db.log, id);
      && after.events == db.events + {e.id}
      && after.charges == db.charges && after.created == db.created && after.refunds.Keys == db.refunds.Keys
      && (Settles(e, r) ==> after.log == db.log + [Transition(
            refundId := id, from := if es == [] then None else Some(es[|es| - 1].to), to := Settled,
            actor := "webhook", reason := None)])
      && (Fails(e, r) ==> after.log == db.log + [Transition(
            refundId := id, from := if es == [] then None else Some(es[|es| - 1].to), to := Failed,
            actor := "webhook", reason := e.reason)])
  {
    var registered := InsertEvent(db, e.id);
    RegisteredIsIndexed(db, e.id);
    EventKeepsIndex(registered, e);
    LastLoggedIsLast(db.log, id);
    TakesMeans(e, db.refunds[id]);
    if TakesRow(e, db.refunds[id]) {
      FoundIsTheRow(registered, e.gatewayRef, id);
    }
  }

  /** With no row to take, the log stays as it is. */
  lemma NewEventOnNoRow(db: Db, e: WebhookEvent)
    requires Indexed(db) && e.id !in db.events
    requires forall id :: id in db.refunds ==> !Settles(e, db.refunds[id]) && !Fails(e, db.refunds[id])
    ensures HandleWebhook(db, e, true).0 == db.(events := db.events + {e.id})
  {
    var found := FindRef(InsertEvent(db, e.id), e.gatewayRef);
    if found.Some? {
      assert !Settles(e, db.refunds[found.value]) && !Fails(e, db.refunds[found.value]);
    }
  }

  // ---- any run ----

  /** A handler past its first statement was started with a verified event, new at the time. */
  lemma {:induction false} HandlerWasVerified(states: seq<State>, moves: seq<Move>, i: nat, who: nat) returns (j: nat)
    requires IsRunFromStart(states, moves) && i <= |moves|
    requires who in states[i].actors && states[i].actors[who].HookInserted?
    ensures j < i && moves[j].Step? && moves[j].who == who && who in states[j].actors
    ensures states[j].actors[who] == HookBegin(states[i].actors[who].event, true)
    ensures states[i].actors[who].event.id !in states[j].w.db.events
  {
    assert i > 0;
    var s, m := states[i - 1], moves[i - 1];
    assert IsStepAt(states, moves, i - 1);
    if m.Step? && m.who == who {
      InsertedFromBegin(s.w, s.actors[who], m.choice);
      j := i - 1;
    } else {
      j := HandlerWasVerified(states, moves, i - 1, who);
    }
  }

  lemma InsertedFromBegin(w: World, a: Actor, choice: Choice)
    requires Act(w, a, choice).1.HookInserted?
    ensures a == HookBegin(Act(w, a, choice).1.event, true)
    ensures Act(w, a, choice).1.event.id !in w.db.events
  {
  }

  /** In any run a verdict comes from a verified event of literally one of the two types, applied by a handler at
      a moment at which the event named the row's own ref. */
  lemma VerdictComesFromItsEvent(states: seq<State>, moves: seq<Move>, i: nat, id: Uuid)
    returns (b: nat, j: nat, e: WebhookEvent)
    requires IsRunFromStart(states, moves) && i <= |moves| && id in states[i].w.db.refunds
    requires var s := states[i].w.db.refunds[id].status; s == Settled || s == Failed || s == Canceled
    ensures b < j < i && moves[j].Step? && moves[b].Step? && moves[b].who == moves[j].who
    ensures moves[j].who in states[j].actors && states[j].actors[moves[j].who] == HookInserted(e)
    ensures moves[b].who in states[b].actors && states[b].actors[moves[b].who] == HookBegin(e, true)
    ensures id in states[j].w.db.refunds && states[j].w.db.refunds[id].gatewayRef == Some(e.gatewayRef)
    ensures var s := states[i].w.db.refunds[id].status;
      (s == Settled && e.eventType == "refund.settled") || (s == Failed && e.eventType == "refund.failed")
  {
    VerdictIsFirstDecision(states, moves, i, id);
    j := FirstDecision(states, moves, i, id).value;
    e := EventOf(states[j], moves[j]);
    TakesMeans(e, states[j].w.db.refunds[id]);
    b := HandlerWasVerified(states, moves, j, moves[j].who);
  }

  /** A refund whose event named it at such a moment has that verdict, from then on. */
  lemma EventGivesVerdict(states: seq<State>, moves: seq<Move>, j: nat, i: nat, id: Uuid, e: WebhookEvent)
    requires IsRunFromStart(states, moves) && j < i <= |moves|
    requires moves[j].Step? && moves[j].who in states[j].actors && states[j].actors[moves[j].who] == HookInserted(e)
    requires id in states[j].w.db.refunds && states[j].w.db.refunds[id].status == Submitted
    requires states[j].w.db.refunds[id].gatewayRef == Some(e.gatewayRef)
    ensures id in states[i].w.db.refunds
    ensures e.eventType == "refund.settled" ==> states[i].w.db.refunds[id].status == Settled
    ensures e.eventType == "refund.failed" ==> states[i].w.db.refunds[id].status == Failed
  {
    RowAfterMove(states, moves, j, id);
    TakesMeans(e, states[j].w.db.refunds[id]);
    RunIsMonotone(states, moves, j + 1, i);
  }
}
