/** Hostile webhooks: duplicated, forged and reordered deliveries. What a list of deliveries does to a
    refund depends only on its own first deliveries, in their own order. */
module Webhooks {
  import opened Outcomes
  import opened Ledger
  import opened Statements
  import opened Invariant
  import opened ProtocolTheorems
  import opened Operations
  import opened Audit

  datatype Delivery = Delivery(event: WebhookEvent, verified: bool)

  function HandleAll(db: Db, ds: seq<Delivery>): Db
    decreases |ds|
  {
    if ds == [] then db else HandleAll(HandleWebhook(db, ds[0].event, ds[0].verified).0, ds[1..])
  }

  /** The deliveries that count: verified, and the first with their event id. */
  function FirstDeliveries(seen: set<string>, ds: seq<Delivery>): seq<WebhookEvent>
    decreases |ds|
  {
    if ds == [] then []
    else if !ds[0].verified || ds[0].event.id in seen then FirstDeliveries(seen, ds[1..])
    else [ds[0].event] + FirstDeliveries(seen + {ds[0].event.id}, ds[1..])
  }

  function Verified(es: seq<WebhookEvent>): seq<Delivery> {
    seq(|es|, i requires 0 <= i < |es| => Delivery(es[i], true))
  }

  predicate DistinctEvents(events: seq<WebhookEvent>) {
    forall i, j :: 0 <= i < j < |events| ==> events[i].id != events[j].id
  }

  predicate NoneIn(seen: set<string>, events: seq<WebhookEvent>) {
    forall e :: e in events ==> e.id !in seen
  }

  lemma {:induction false} FirstsAreFresh(seen: set<string>, ds: seq<Delivery>)
    ensures NoneIn(seen, FirstDeliveries(seen, ds)) && DistinctEvents(FirstDeliveries(seen, ds))
    decreases |ds|
  {
    if ds != [] {
      if !ds[0].verified || ds[0].event.id in seen {
        FirstsAreFresh(seen, ds[1..]);
      } else {
        var more := seen + {ds[0].event.id};
        FirstsAreFresh(more, ds[1..]);
        var rest := FirstDeliveries(more, ds[1..]);
        forall e | e in rest
          ensures e.id !in seen && e.id != ds[0].event.id
        {
          assert e.id !in more;
        }
        ConsIsFresh(seen, ds[0].event, rest);
      }
    }
  }

  lemma ConsIsFresh(seen: set<string>, first: WebhookEvent, rest: seq<WebhookEvent>)
    requires first.id !in seen && DistinctEvents(rest)
    requires forall e :: e in rest ==> e.id !in seen && e.id != first.id
    ensures NoneIn(seen, [first] + rest) && DistinctEvents([first] + rest)
  {
    var es := [first] + rest;
    forall i, j | 0 <= i < j < |es|
      ensures es[i].id != es[j].id
    {
      assert es[j] == rest[j - 1] && rest[j - 1] in rest;
      assert i > 0 ==> es[i] == rest[i - 1];
    }
  }

  /** Handling a list of deliveries is handling its first occurrences: replays and forgeries are no-ops,
      to the last column of every table. */
  lemma {:induction false} ReplaysAreNoOps(db: Db, ds: seq<Delivery>)
    ensures HandleAll(db, ds) == HandleAll(db, Verified(FirstDeliveries(db.events, ds)))
    decreases |ds|
  {
    if ds != [] {
      var d := ds[0];
      var after := HandleWebhook(db, d.event, d.verified).0;
      ReplaysAreNoOps(after, ds[1..]);
      if d.verified && d.event.id !in db.events {
        EventsAfter(db, d.event);
        var rest := FirstDeliveries(after.events, ds[1..]);
        assert Verified([d.event] + rest)[0] == Delivery(d.event, true);
        assert Verified([d.event] + rest)[1..] == Verified(rest);
      }
    } else {
      assert Verified([]) == [];
    }
  }

  lemma EventsAfter(db: Db, e: WebhookEvent)
    requires e.id !in db.events
    ensures HandleWebhook(db, e, true).0.events == db.events + {e.id}
  {
  }

  // ---- one refund's view ----

  /** The event changes a row with its ref and this status. */
  predicate Takes(e: WebhookEvent, s: Status) {
    (IsSettledEvent(e) && SettledApplies(s)) || (IsFailedEvent(e) && FailedApplies(s))
  }

  predicate TakesRow(e: WebhookEvent, r: Refund) {
    r.gatewayRef == Some(e.gatewayRef) && Takes(e, r.status)
  }

  /** What one event does to one row, by the row's own ref alone. */
  function RowEvent(r: Refund, e: WebhookEvent): Refund {
    if r.gatewayRef != Some(e.gatewayRef) then r
    else if IsSettledEvent(e) then (if SettledApplies(r.status) then r.(status := Settled) else r)
    else if IsFailedEvent(e) then
      (if FailedApplies(r.status) then r.(status := Failed, failureReason := e.reason) else r)
    else r
  }

  /** ... and to its log. */
  function EntriesEvent(es: seq<Transition>, id: Uuid, r: Refund, e: WebhookEvent): seq<Transition> {
    var from := if es == [] then None else Some(es[|es| - 1].to);
    if r.gatewayRef != Some(e.gatewayRef) then es
    else if IsSettledEvent(e) then
      (if SettledApplies(r.status) then es + [Transition(id, from, Settled, "webhook", None)] else es)
    else if IsFailedEvent(e) then
      (if FailedApplies(r.status) then es + [Transition(id, from, Failed, "webhook", e.reason)] else es)
    else es
  }

  /** A refund's row and log after a list of events. */
  function RowAfter(r: Refund, events: seq<WebhookEvent>): Refund
    decreases |events|
  {
    if events == [] then r else RowAfter(RowEvent(r, events[0]), events[1..])
  }

  function EntriesAfter(es: seq<Transition>, id: Uuid, r: Refund, events: seq<WebhookEvent>): seq<Transition>
    decreases |events|
  {
    if events == [] then es
    else EntriesAfter(EntriesEvent(es, id, r, events[0]), id, RowEvent(r, events[0]), events[1..])
  }

  /** The shape of the tables the webhook relies on: each row listed, no ref on two rows. */
  ghost predicate Indexed(db: Db) {
    RefsDistinct(db) && (forall id :: id in db.created <==> id in db.refunds)
  }

  lemma InvIndexed(w: World)
    requires LedgerInv(w)
    ensures Indexed(w.db)
  {
    InvRefsDistinct(w);
  }

  lemma FoundIsTheRow(db: Db, ref: string, id: Uuid)
    requires Indexed(db) && id in db.refunds && db.refunds[id].gatewayRef == Some(ref)
    ensures FindRef(db, ref) == Some(id)
  {
    var found := FindRef(db, ref);
    assert id in db.created;
  }

  lemma ApplySettledOnRow(db: Db, ref: string, id: Uuid)
    requires Indexed(db) && id in db.refunds
    ensures var after, r := ApplySettled(db, ref), db.refunds[id];
      && id in after.refunds
      && after.refunds[id] ==
           (if r.gatewayRef == Some(ref) && SettledApplies(r.status) then r.(status := Settled) else r)
      && Entries(after.log, id) == Entries(db.log, id) +
           if r.gatewayRef == Some(ref) && SettledApplies(r.status)
           then [Transition(id, LastLogged(db.log, id), Settled, "webhook", None)] else []
  {
    if db.refunds[id].gatewayRef == Some(ref) {
      FoundIsTheRow(db, ref, id);
    }
    var found := FindRef(db, ref);
    if found.Some? {
      EntriesAppend(db.log, Transition(found.value, LastLogged(db.log, found.value), Settled, "webhook", None), id);
    }
  }

  lemma ApplyFailedOnRow(db: Db, ref: string, reason: Option<string>, id: Uuid)
    requires Indexed(db) && id in db.refunds
    ensures var after, r := ApplyFailed(db, ref, reason), db.refunds[id];
      && id in after.refunds
      && after.refunds[id] ==
           (if r.gatewayRef == Some(ref) && FailedApplies(r.status)
            then r.(status := Failed, failureReason := reason) else r)
      && Entries(after.log, id) == Entries(db.log, id) +
           if r.gatewayRef == Some(ref) && FailedApplies(r.status)
           then [Transition(id, LastLogged(db.log, id), Failed, "webhook", reason)] else []
  {
    if db.refunds[id].gatewayRef == Some(ref) {
      FoundIsTheRow(db, ref, id);
    }
    var found := FindRef(db, ref);
    if found.Some? {
      EntriesAppend(db.log, Transition(found.value, LastLogged(db.log, found.value), Failed, "webhook", reason), id);
    }
  }

  /** The event as one refund sees it. */
  lemma EventOnRow(db: Db, e: WebhookEvent, id: Uuid)
    requires Indexed(db) && id in db.refunds
    ensures var after := ApplyEvent(db, e);
      && id in after.refunds
      && after.refunds[id] == RowEvent(db.refunds[id], e)
      && Entries(after.log, id) == EntriesEvent(Entries(db.log, id), id, db.refunds[id], e)
  {
    LastLoggedIsLast(db.log, id);
    if IsSettledEvent(e) {
      ApplySettledOnRow(db, e.gatewayRef, id);
    } else if IsFailedEvent(e) {
      ApplyFailedOnRow(db, e.gatewayRef, e.reason, id);
    }
  }

  /** Events delete no row, rewrite no ref and list no new row. */
  lemma EventKeepsIndex(db: Db, e: WebhookEvent)
    requires Indexed(db)
    ensures Indexed(ApplyEvent(db, e))
    ensures ApplyEvent(db, e).refunds.Keys == db.refunds.Keys && ApplyEvent(db, e).created == db.created
    ensures ApplyEvent(db, e).charges == db.charges
  {
    var after := ApplyEvent(db, e);
    assert forall id :: id in db.refunds ==>
      id in after.refunds && after.refunds[id].gatewayRef == db.refunds[id].gatewayRef;
  }

  lemma RegisteredIsIndexed(db: Db, event: string)
    requires Indexed(db)
    ensures Indexed(InsertEvent(db, event))
  {
  }

  lemma RestIsFresh(seen: set<string>, events: seq<WebhookEvent>)
    requires events != [] && NoneIn(seen, events) && DistinctEvents(events)
    ensures NoneIn(seen + {events[0].id}, events[1..]) && DistinctEvents(events[1..])
  {
    forall e | e in events[1..]
      ensures e.id !in seen + {events[0].id}
    {
      var i :| 0 <= i < |events[1..]| && events[1..][i] == e;
      assert events[i + 1] == e && e in events;
    }
    forall i, j | 0 <= i < j < |events[1..]|
      ensures events[1..][i].id != events[1..][j].id
    {
      assert events[1..][i] == events[i + 1] && events[1..][j] == events[j + 1];
    }
  }

  /** A list of fresh, distinct, verified events acts on each refund by itself. */
  lemma {:induction false} FreshEventsOnRow(db: Db, events: seq<WebhookEvent>, id: Uuid)
    requires Indexed(db) && id in db.refunds
    requires NoneIn(db.events, events) && DistinctEvents(events)
    ensures var after := HandleAll(db, Verified(events));
      && id in after.refunds
      && after.refunds[id] == RowAfter(db.refunds[id], events)
      && Entries(after.log, id) == EntriesAfter(Entries(db.log, id), id, db.refunds[id], events)
    decreases |events|
  {
    if events == [] {
      assert Verified([]) == [];
    } else {
      var registered := InsertEvent(db, events[0].id);
      RegisteredIsIndexed(db, events[0].id);
      EventOnRow(registered, events[0], id);
      EventKeepsIndex(registered, events[0]);
      EventsAfter(db, events[0]);
      assert Verified(events)[0] == Delivery(events[0], true);
      assert Verified(events)[1..] == Verified(events[1..]);
      RestIsFresh(db.events, events);
      FreshEventsOnRow(ApplyEvent(registered, events[0]), events[1..], id);
    }
  }

  function ForRef(events: seq<WebhookEvent>, ref: string): seq<WebhookEvent> {
    if events == [] then []
    else if events[0].gatewayRef == ref then [events[0]] + ForRef(events[1..], ref)
    else ForRef(events[1..], ref)
  }

  lemma RefKept(r: Refund, e: WebhookEvent)
    ensures RowEvent(r, e).gatewayRef == r.gatewayRef
  {
  }

  /** Only the events for the row's own ref matter. */
  lemma {:induction false} OnlyOwnRefMatters(
    es: seq<Transition>, id: Uuid, r: Refund, events: seq<WebhookEvent>, ref: string)
    requires r.gatewayRef == Some(ref)
    ensures RowAfter(r, events) == RowAfter(r, ForRef(events, ref))
    ensures EntriesAfter(es, id, r, events) == EntriesAfter(es, id, r, ForRef(events, ref))
    decreases |events|
  {
    if events != [] {
      RefKept(r, events[0]);
      OnlyOwnRefMatters(EntriesEvent(es, id, r, events[0]), id, RowEvent(r, events[0]), events[1..], ref);
      if events[0].gatewayRef == ref {
        assert ForRef(events, ref)[1..] == ForRef(events[1..], ref);
      }
    }
  }

  lemma {:induction false} NoRefNoEffect(es: seq<Transition>, id: Uuid, r: Refund, events: seq<WebhookEvent>)
    requires r.gatewayRef.None?
    ensures RowAfter(r, events) == r && EntriesAfter(es, id, r, events) == es
    decreases |events|
  {
    if events != [] {
      NoRefNoEffect(es, id, r, events[1..]);
    }
  }

  /** The normal form: any deliveries, seen from one refund. */
  lemma DeliveriesOnRow(db: Db, ds: seq<Delivery>, id: Uuid)
    requires Indexed(db) && id in db.refunds
    ensures var after := HandleAll(db, ds); var events := FirstDeliveries(db.events, ds);
      && id in after.refunds
      && after.refunds[id] == RowAfter(db.refunds[id], events)
      && Entries(after.log, id) == EntriesAfter(Entries(db.log, id), id, db.refunds[id], events)
  {
    ReplaysAreNoOps(db, ds);
    FirstsAreFresh(db.events, ds);
    FreshEventsOnRow(db, FirstDeliveries(db.events, ds), id);
  }

  /** Order does not matter across refunds: from any lawful state, two lists of deliveries whose first
      deliveries agree ref by ref leave every row and every refund's log the same. */
  lemma OrderIndependence(w: World, ds: seq<Delivery>, es: seq<Delivery>, id: Uuid)
    requires LedgerInv(w) && id in w.db.refunds
    requires forall ref: string ::
      ForRef(FirstDeliveries(w.db.events, ds), ref) == ForRef(FirstDeliveries(w.db.events, es), ref)
    ensures var a, b := HandleAll(w.db, ds), HandleAll(w.db, es);
      && id in a.refunds && id in b.refunds
      && a.refunds[id] == b.refunds[id]
      && Entries(a.log, id) == Entries(b.log, id)
  {
    InvIndexed(w);
    DeliveriesOnRow(w.db, ds, id);
    DeliveriesOnRow(w.db, es, id);
    var r, log := w.db.refunds[id], Entries(w.db.log, id);
    if r.gatewayRef.Some? {
      OnlyOwnRefMatters(log, id, r, FirstDeliveries(w.db.events, ds), r.gatewayRef.value);
      OnlyOwnRefMatters(log, id, r, FirstDeliveries(w.db.events, es), r.gatewayRef.value);
    } else {
      NoRefNoEffect(log, id, r, FirstDeliveries(w.db.events, ds));
      NoRefNoEffect(log, id, r, FirstDeliveries(w.db.events, es));
    }
  }

  // ---- distinct ids: reordering in the plain sense ----

  function Unseen(seen: set<string>, events: seq<WebhookEvent>): seq<WebhookEvent> {
    if events == [] then []
    else if events[0].id in seen then Unseen(seen, events[1..])
    else [events[0]] + Unseen(seen, events[1..])
  }

  lemma {:induction false} UnseenMore(seen: set<string>, id: string, events: seq<WebhookEvent>)
    requires forall i :: 0 <= i < |events| ==> events[i].id != id
    ensures Unseen(seen + {id}, events) == Unseen(seen, events)
  {
    if events != [] {
      UnseenMore(seen, id, events[1..]);
    }
  }

  lemma {:induction false} DistinctFirsts(seen: set<string>, events: seq<WebhookEvent>)
    requires DistinctEvents(events)
    ensures FirstDeliveries(seen, Verified(events)) == Unseen(seen, events)
    decreases |events|
  {
    if events == [] {
      assert Verified([]) == [];
    } else {
      assert Verified(events)[0] == Delivery(events[0], true);
      assert Verified(events)[1..] == Verified(events[1..]);
      forall i | 0 <= i < |events[1..]|
        ensures events[1..][i].id != events[0].id
      {
        assert events[1..][i] == events[i + 1];
      }
      RestIsFresh({}, events);
      DistinctFirsts(seen, events[1..]);
      DistinctFirsts(seen + {events[0].id}, events[1..]);
      UnseenMore(seen, events[0].id, events[1..]);
    }
  }

  lemma {:induction false} UnseenForRef(seen: set<string>, events: seq<WebhookEvent>, ref: string)
    ensures ForRef(Unseen(seen, events), ref) == Unseen(seen, ForRef(events, ref))
  {
    if events != [] {
      UnseenForRef(seen, events[1..], ref);
      if events[0].id !in seen {
        assert Unseen(seen, events)[1..] == Unseen(seen, events[1..]);
      }
      if events[0].gatewayRef == ref {
        assert ForRef(events, ref)[1..] == ForRef(events[1..], ref);
      }
    }
  }

  /** Two orderings of events with distinct ids that keep the order within each ref end alike. */
  lemma ReorderingIsHarmless(w: World, ds: seq<WebhookEvent>, es: seq<WebhookEvent>, id: Uuid)
    requires LedgerInv(w) && id in w.db.refunds && DistinctEvents(ds) && DistinctEvents(es)
    requires forall ref: string :: ForRef(ds, ref) == ForRef(es, ref)
    ensures var a, b := HandleAll(w.db, Verified(ds)), HandleAll(w.db, Verified(es));
      && id in a.refunds && id in b.refunds
      && a.refunds[id] == b.refunds[id]
      && Entries(a.log, id) == Entries(b.log, id)
  {
    DistinctFirsts(w.db.events, ds);
    DistinctFirsts(w.db.events, es);
    forall ref: string
      ensures ForRef(FirstDeliveries(w.db.events, Verified(ds)), ref)
           == ForRef(FirstDeliveries(w.db.events, Verified(es)), ref)
    {
      UnseenForRef(w.db.events, ds, ref);
      UnseenForRef(w.db.events, es, ref);
    }
    OrderIndependence(w, Verified(ds), Verified(es), id);
  }

  // ---- the verdict ----

  /** The events that can do anything to a row with this ref. */
  function Effective(events: seq<WebhookEvent>, ref: string): seq<WebhookEvent> {
    if events == [] then []
    else if events[0].gatewayRef == ref && (IsSettledEvent(events[0]) || IsFailedEvent(events[0]))
    then [events[0]] + Effective(events[1..], ref)
    else Effective(events[1..], ref)
  }

  /** The reason of the last failed event, if there is one. */
  function LastReason(events: seq<WebhookEvent>, otherwise: Option<string>): Option<string> {
    if events == [] then otherwise
    else if IsFailedEvent(events[|events| - 1]) then events[|events| - 1].reason
    else LastReason(events[..|events| - 1], otherwise)
  }

  /** The closed form: the first effective event decides a submitted row for good; if the verdict is
      `failed`, the reason is that of the last failed event. */
  function Verdict(r: Refund, effective: seq<WebhookEvent>): Refund {
    if effective == [] then r
    else if IsSettledEvent(effective[0]) then r.(status := Settled)
    else r.(status := Failed, failureReason := LastReason(effective, r.failureReason))
  }

  lemma {:induction false} LastReasonFirst(e: WebhookEvent, rest: seq<WebhookEvent>, otherwise: Option<string>)
    ensures LastReason([e] + rest, otherwise) == LastReason(rest, if IsFailedEvent(e) then e.reason else otherwise)
    decreases |rest|
  {
    if rest == [] {
      assert [e] + rest == [e];
      assert [e][..0] == [];
    } else {
      assert ([e] + rest)[..|rest|] == [e] + rest[..|rest| - 1];
      LastReasonFirst(e, rest[..|rest| - 1], otherwise);
    }
  }

  lemma SettledIsNotFailed(e: WebhookEvent)
    ensures !(IsSettledEvent(e) && IsFailedEvent(e))
  {
    assert |"refund.settled"| != |"refund.failed"|;
  }

  lemma {:induction false} AfterSettled(r: Refund, events: seq<WebhookEvent>)
    requires r.status == Settled
    ensures RowAfter(r, events) == r
    decreases |events|
  {
    if events != [] {
      AfterSettled(r, events[1..]);
    }
  }

  lemma {:induction false} AfterFailed(r: Refund, events: seq<WebhookEvent>, ref: string)
    requires r.status == Failed && r.gatewayRef == Some(ref)
    ensures RowAfter(r, events) == r.(failureReason := LastReason(Effective(events, ref), r.failureReason))
    decreases |events|
  {
    if events != [] {
      var s := RowEvent(r, events[0]);
      SettledIsNotFailed(events[0]);
      AfterFailed(s, events[1..], ref);
      LastReasonFirst(events[0], Effective(events[1..], ref), r.failureReason);
    }
  }

  lemma {:induction false} VerdictOfEvents(r: Refund, events: seq<WebhookEvent>, ref: string)
    requires r.status == Submitted && r.gatewayRef == Some(ref)
    ensures RowAfter(r, events) == Verdict(r, Effective(events, ref))
    decreases |events|
  {
    if events != [] {
      var e, rest := events[0], Effective(events[1..], ref);
      SettledIsNotFailed(e);
      if e.gatewayRef != ref || !(IsSettledEvent(e) || IsFailedEvent(e)) {
        VerdictOfEvents(r, events[1..], ref);
      } else if IsSettledEvent(e) {
        AfterSettled(r.(status := Settled), events[1..]);
      } else {
        AfterFailed(r.(status := Failed, failureReason := e.reason), events[1..], ref);
        LastReasonFirst(e, rest, r.failureReason);
      }
    }
  }

  /** For a submitted refund whose ref is on record, any deliveries whatever leave exactly the verdict of
      its own effective first deliveries. */
  lemma FirstVerdictWins(w: World, ds: seq<Delivery>, id: Uuid, ref: string)
    requires LedgerInv(w) && id in w.db.refunds
    requires w.db.refunds[id].status == Submitted && w.db.refunds[id].gatewayRef == Some(ref)
    ensures var after := HandleAll(w.db, ds);
      && id in after.refunds
      && after.refunds[id] == Verdict(w.db.refunds[id], Effective(FirstDeliveries(w.db.events, ds), ref))
  {
    InvIndexed(w);
    DeliveriesOnRow(w.db, ds, id);
    VerdictOfEvents(w.db.refunds[id], FirstDeliveries(w.db.events, ds), ref);
  }
}
