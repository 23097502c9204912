/** Where the webhook handler does less, or more, than its comments promise: events that come before the ref
    is on record are spent for nothing, and a failed row can fail again. Each with its exact condition, and
    with a reachable state in which it happens. */
module WebhookLimits {
  import opened Outcomes
  import opened Errors
  import opened Ledger
  import opened GatewayRef
  import opened Statements
  import opened Invariant
  import opened Protocol
  import opened ProtocolInvariant
  import opened Operations
  import opened Audit
  import opened Webhooks
  import opened Scenario

  // ---- events that come too early ----

  /** The event ids that a list of deliveries spends. */
  function VerifiedIds(ds: seq<Delivery>): set<string> {
    if ds == [] then {} else (if ds[0].verified then {ds[0].event.id} else {}) + VerifiedIds(ds[1..])
  }

  predicate SameRefs(db: Db, after: Db) {
    && after.refunds.Keys == db.refunds.Keys
    && forall id :: id in db.refunds ==> after.refunds[id].gatewayRef == db.refunds[id].gatewayRef
  }

  lemma WebhookKeepsIndex(db: Db, d: Delivery)
    requires Indexed(db)
    ensures var after := HandleWebhook(db, d.event, d.verified).0;
      Indexed(after) && SameRefs(db, after) && after.events == db.events + VerifiedIds([d])
  {
    assert VerifiedIds([d][1..]) == {};
    if d.verified && d.event.id !in db.events {
      RegisteredIsIndexed(db, d.event.id);
      EventKeepsIndex(InsertEvent(db, d.event.id), d.event);
      EventsAfter(db, d.event);
    }
  }

  /** Deliveries keep the rows apart, rewrite no ref and register exactly their verified ids. */
  lemma {:induction false} DeliveriesKeepIndex(db: Db, ds: seq<Delivery>)
    requires Indexed(db)
    ensures var after := HandleAll(db, ds);
      Indexed(after) && SameRefs(db, after) && after.events == db.events + VerifiedIds(ds)
    decreases |ds|
  {
    if ds != [] {
      WebhookKeepsIndex(db, ds[0]);
      assert VerifiedIds([ds[0]][1..]) == {};
      DeliveriesKeepIndex(HandleWebhook(db, ds[0].event, ds[0].verified).0, ds[1..]);
    }
  }

  lemma RecordedIsIndexed(db: Db, id: Uuid, ref: string)
    requires Indexed(db) && id in db.refunds && !RefTaken(db, id, ref)
    ensures Indexed(RefRecorded(db, id, ref))
  {
  }

  lemma SameRefsTaken(db: Db, after: Db, id: Uuid, ref: string)
    requires SameRefs(db, after) && !RefTaken(db, id, ref)
    ensures !RefTaken(after, id, ref)
  {
  }

  /** What comes of deliveries `ds` before the ref is recorded and `es` after: the row and its log are the fold
      over the first deliveries of `es` that `ds` did not spend. */
  ghost predicate OnlyLaterEventsCount(w: World, ds: seq<Delivery>, es: seq<Delivery>, id: Uuid)
    requires id in w.db.refunds && id in w.gw.store
  {
    var ref := w.gw.store[id].id;
    var row := w.db.refunds[id].(gatewayRef := Some(ref));
    var events := FirstDeliveries(w.db.events + VerifiedIds(ds), es);
    var first := HandleAll(w.db, ds);
    && id in first.refunds && first.refunds[id] == w.db.refunds[id]
    && var after := HandleAll(RefRecorded(first, id, ref), es);
    && id in after.refunds && after.refunds[id] == RowAfter(row, events)
    && Entries(after.log, id) == EntriesAfter(Entries(w.db.log, id), id, row, events)
  }

  lemma DeliveriesWithoutRef(db: Db, ds: seq<Delivery>, id: Uuid)
    requires Indexed(db) && id in db.refunds && db.refunds[id].gatewayRef.None?
    ensures var first := HandleAll(db, ds);
      id in first.refunds && first.refunds[id] == db.refunds[id] && Entries(first.log, id) == Entries(db.log, id)
  {
    DeliveriesOnRow(db, ds, id);
    NoRefNoEffect(Entries(db.log, id), id, db.refunds[id], FirstDeliveries(db.events, ds));
  }

  /** Any deliveries at all around the recording of the ref: those before it are spent for nothing. */
  lemma DeliveriesAroundRecording(w: World, ds: seq<Delivery>, es: seq<Delivery>, id: Uuid)
    requires LedgerInv(w) && id in w.db.refunds && w.db.refunds[id].gatewayRef.None? && id in w.gw.store
    ensures OnlyLaterEventsCount(w, ds, es, id)
  {
    var ref, first := w.gw.store[id].id, HandleAll(w.db, ds);
    InvIndexed(w);
    RefNotTaken(w, id, ref);
    DeliveriesWithoutRef(w.db, ds, id);
    DeliveriesKeepIndex(w.db, ds);
    SameRefsTaken(w.db, first, id, ref);
    RecordedIsIndexed(first, id, ref);
    DeliveriesOnRow(RefRecorded(first, id, ref), es, id);
  }

  /** So, with deliveries handled whole, the refund gets its verdict exactly when some settled or failed event
      for it is delivered after its ref is recorded and was not spent before; and then the first such event
      decides. `Verdicts` has the condition for handlers that interleave or crash. */
  lemma EarlyEventsDecideNothing(w: World, ds: seq<Delivery>, es: seq<Delivery>, id: Uuid)
    requires LedgerInv(w) && id in w.db.refunds && w.db.refunds[id].gatewayRef.None? && id in w.gw.store
    ensures var ref := w.gw.store[id].id;
      var effective := Effective(FirstDeliveries(w.db.events + VerifiedIds(ds), es), ref);
      var after := HandleAll(RefRecordedAfter(w, ds, id), es);
      && id in after.refunds
      && after.refunds[id] == Verdict(w.db.refunds[id].(gatewayRef := Some(ref)), effective)
      && (IsTerminal(after.refunds[id].status) <==> effective != [])
  {
    var ref := w.gw.store[id].id;
    var row := w.db.refunds[id].(gatewayRef := Some(ref));
    RefPendingIsSubmitted(w, id);
    DeliveriesAroundRecording(w, ds, es, id);
    VerdictIsFinalIff(row, FirstDeliveries(w.db.events + VerifiedIds(ds), es), ref);
  }

  lemma RefPendingIsSubmitted(w: World, id: Uuid)
    requires RowsOk(w) && id in w.db.refunds && w.db.refunds[id].gatewayRef.None? && id in w.gw.store
    ensures w.db.refunds[id].status == Submitted
  {
    assert RowOk(w, id, w.db.refunds[id]);
  }

  lemma VerdictIsFinalIff(r: Refund, events: seq<WebhookEvent>, ref: string)
    requires r.status == Submitted && r.gatewayRef == Some(ref)
    ensures RowAfter(r, events) == Verdict(r, Effective(events, ref))
    ensures IsTerminal(RowAfter(r, events).status) <==> Effective(events, ref) != []
  {
    VerdictOfEvents(r, events, ref);
  }

  /** The tables after deliveries `ds` and the recording of the gateway's ref. */
  function RefRecordedAfter(w: World, ds: seq<Delivery>, id: Uuid): Db
    requires id in w.gw.store
  {
    var first := HandleAll(w.db, ds);
    if id in first.refunds then RefRecorded(first, id, w.gw.store[id].id) else first
  }

  lemma HandledOnRow(db: Db, e: WebhookEvent, id: Uuid)
    requires Indexed(db) && id in db.refunds && e.id !in db.events
    ensures var after := HandleWebhook(db, e, true).0;
      && id in after.refunds && after.refunds[id] == RowEvent(db.refunds[id], e) && e.id in after.events
  {
    RegisteredIsIndexed(db, e.id);
    EventOnRow(InsertEvent(db, e.id), e, id);
  }

  /** The event id is consumed before, and outside of, the transaction that applies the event. So a
      settlement delivered, then the ref recorded, then the same settlement redelivered, settles the row
      exactly when the ref was already on record at the first delivery: redelivery does not help. Both
      deliveries are handled whole here. */
  lemma EarlySettlementIsLost(w: World, id: Uuid, e: WebhookEvent)
    requires LedgerInv(w) && id in w.db.refunds && id in w.gw.store && w.db.refunds[id].status == Submitted
    requires IsSettledEvent(e) && e.gatewayRef == w.gw.store[id].id && e.id !in w.db.events
    ensures var first := HandleWebhook(w.db, e, true).0;
      && id in first.refunds
      && var recorded := RefRecorded(first, id, e.gatewayRef);
      && var again := HandleWebhook(recorded, e, true);
      && again == (recorded, Webhook(Duplicate))
      && (again.0.refunds[id].status == Settled <==> w.db.refunds[id].gatewayRef.Some?)
  {
    InvIndexed(w);
    assert RowOk(w, id, w.db.refunds[id]);
    HandledOnRow(w.db, e, id);
  }

  /** It happens: a reachable state in which the settled event was delivered twice, handled the first time
      and a duplicate the second, and the row, its ref on record, still waits. */
  lemma EarlySettlementHappens() returns (s: State)
    ensures Reachable(s) && SETTLED_EVENT.id in s.w.db.events
    ensures 3 in s.actors && s.actors[3] == Done(Webhook(Applied))
    ensures 4 in s.actors && s.actors[4] == Done(Webhook(Duplicate))
    ensures 1 in s.w.db.refunds && s.w.db.refunds[1] == Row(Submitted, Some(SETTLED_EVENT.gatewayRef))
  {
    var w, actors := EarlySettlementDelivered();
    ReachStep(w, actors, 2);
    RefIsRecorded({SETTLED_EVENT.id});
    var x := w.(db := Tables(Row(Submitted, Some(FormatRef(1))), {SETTLED_EVENT.id}));
    var recorded := actors[2 := Done(Submission(true))];
    ReachDelivery(x, recorded, 4, SETTLED_EVENT);
    s := State(x, recorded[4 := Done(Webhook(Duplicate))]);
  }

  /** The event has come and gone while the ref is still on its way to the row. */
  lemma EarlySettlementDelivered() returns (w: World, actors: map<nat, Actor>)
    ensures w == World(Tables(Row(Submitted, None), {SETTLED_EVENT.id}), HELD, map[])
    ensures Reachable(State(w, actors)) && 4 !in actors
    ensures 2 in actors && actors[2] == SubmitAccepted(1, FormatRef(1))
    ensures 3 in actors && actors[3] == Done(Webhook(Applied))
  {
    var first := SubmitMarked(1, Row(Requested, None));
    RefInFlight(first);
    var db := Tables(Row(Submitted, None), {});
    actors := map[1 := first, 2 := SubmitAccepted(1, FormatRef(1))];
    ReachDelivery(World(db, HELD, map[]), actors, 3, SETTLED_EVENT);
    assert FindRef(InsertEvent(db, SETTLED_EVENT.id), FormatRef(1)) == None;
    assert {} + {SETTLED_EVENT.id} == {SETTLED_EVENT.id};
    w := World(Tables(Row(Submitted, None), {SETTLED_EVENT.id}), HELD, map[]);
    actors := actors[3 := Done(Webhook(Applied))];
  }

  /** The condition of `EarlySettlementIsLost` at a reachable state. */
  lemma EarlySettlementWitness() returns (s: State)
    ensures Reachable(s) && LedgerInv(s.w) && 1 in s.w.gw.store && 1 in s.w.db.refunds
    ensures s.w.db.refunds[1] == Row(Submitted, None)
    ensures var first := HandleWebhook(s.w.db, SETTLED_EVENT, true).0;
      && 1 in first.refunds
      && var recorded := RefRecorded(first, 1, FormatRef(1));
      && var again := HandleWebhook(recorded, SETTLED_EVENT, true).0;
      && 1 in again.refunds && again.refunds[1].status != Settled
  {
    var first := SubmitMarked(1, Row(Requested, None));
    RefInFlight(first);
    s := State(World(Tables(Row(Submitted, None), {}), HELD, map[]),
               map[1 := first, 2 := SubmitAccepted(1, FormatRef(1))]);
    ReachableIsInv(s);
    EarlySettlementIsLost(s.w, 1, SETTLED_EVENT);
  }

  // ---- failing again ----

  /** A settled, failed or canceled row with this ref is left alone, tables and all, except by a failed event
      on a row that failed already. */
  lemma TerminalIsLeftAloneIff(db: Db, e: WebhookEvent, id: Uuid)
    requires Indexed(db) && id in db.refunds && db.refunds[id].gatewayRef == Some(e.gatewayRef)
    requires IsTerminal(db.refunds[id].status)
    ensures ApplyEvent(db, e) == db <==> !(IsFailedEvent(e) && db.refunds[id].status == Failed)
  {
    FoundIsTheRow(db, e.gatewayRef, id);
    SettledIsNotFailed(e);
    if IsFailedEvent(e) && db.refunds[id].status == Failed {
      assert |ApplyEvent(db, e).log| == |db.log| + 1;
    }
  }

  const FAILED_EVENT := WebhookEvent("evt_2", "refund.failed", FormatRef(1), Some("insufficient_funds"))

  const FAILED_AGAIN := WebhookEvent("evt_3", "refund.failed", FormatRef(1), Some("account_closed"))

  /** It happens: a reachable state with a failed row, in which another failed event replaces the reason and
      writes another audit row, from `failed` to `failed`. */
  lemma FailedRowFailsAgain() returns (s: State)
    ensures Reachable(s) && 1 in s.w.db.refunds
    ensures s.w.db.refunds[1].status == Failed && s.w.db.refunds[1].failureReason == FAILED_EVENT.reason
    ensures var after := ApplyEvent(s.w.db, FAILED_AGAIN);
      && 1 in after.refunds && after.refunds[1].failureReason == FAILED_AGAIN.reason
      && after.log == s.w.db.log + [Transition(1, Some(Failed), Failed, "webhook", FAILED_AGAIN.reason)]
  {
    var first := SubmitMarked(1, Row(Requested, None));
    RefRecordedUnlogged(first);
    var db := Tables(Row(Submitted, Some(FormatRef(1))), {});
    var w, actors := World(db, HELD, map[]), map[1 := first, 2 := Done(Submission(true))];
    ReachDelivery(w, actors, 3, FAILED_EVENT);
    var (failed, reply) := HandleWebhook(db, FAILED_EVENT, true);
    s := State(w.(db := failed), actors[3 := Done(reply)]);
    FailsTwice(db);
  }

  lemma FailsTwice(db: Db)
    requires db == Tables(Row(Submitted, Some(FormatRef(1))), {})
    ensures var failed := HandleWebhook(db, FAILED_EVENT, true).0;
      && 1 in failed.refunds
      && failed.refunds[1].status == Failed && failed.refunds[1].failureReason == FAILED_EVENT.reason
      && var after := ApplyEvent(failed, FAILED_AGAIN);
      && 1 in after.refunds && after.refunds[1].failureReason == FAILED_AGAIN.reason
      && after.log == failed.log + [Transition(1, Some(Failed), Failed, "webhook", FAILED_AGAIN.reason)]
  {
    SettledIsNotFailed(FAILED_EVENT);
    SettledIsNotFailed(FAILED_AGAIN);
    assert FindRef(InsertEvent(db, FAILED_EVENT.id), FormatRef(1)) == Some(1);
    var failed := HandleWebhook(db, FAILED_EVENT, true).0;
    assert FindRef(failed, FormatRef(1)) == Some(1);
    LastLoggedIsLast(failed.log, 1);
  }
}
