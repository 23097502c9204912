/** What crashes and interleaving do to the audit log. A status change of submit, approve or recovery and
    its audit row are two statements, so the log may lag behind the row, and the webhook, which reads its
    `from_status` back from the log, then records a status the row had already left. */
module StaleAudit {
  import opened Outcomes
  import opened Ledger
  import opened Gateway
  import opened GatewayRef
  import opened Statements
  import opened Invariant
  import opened Protocol
  import opened ProtocolInvariant
  import opened ProtocolTheorems
  import opened Audit
  import opened Webhooks
  import opened Scenario

  // ---- a run in which the webhook is wrong ----

  lemma SettledEventArrives(actors: map<nat, Actor>)
    requires actors == map[1 := SubmitMarked(1, Row(Requested, None)), 2 := Done(Submission(true))]
    ensures Reachable(State(World(Tables(Row(Submitted, Some(FormatRef(1))), {}), HELD, map[]),
                            actors[3 := HookBegin(SETTLED_EVENT, true)]))
  {
    RefRecordedUnlogged(actors[1]);
    Reach(State(World(Tables(Row(Submitted, Some(FormatRef(1))), {}), HELD, map[]), actors),
          Spawn(3, HookBegin(SETTLED_EVENT, true)));
  }

  /** The settled event has arrived and its id is registered. */
  lemma SettledEventRegistered(actors: map<nat, Actor>)
    requires actors == map[1 := SubmitMarked(1, Row(Requested, None)), 2 := Done(Submission(true))]
    ensures Reachable(State(World(Tables(Row(Submitted, Some(FormatRef(1))), {SETTLED_EVENT.id}), HELD, map[]),
                            actors[3 := HookInserted(SETTLED_EVENT)]))
  {
    SettledEventArrives(actors);
    var w := World(Tables(Row(Submitted, Some(FormatRef(1))), {}), HELD, map[]);
    var hooked := actors[3 := HookBegin(SETTLED_EVENT, true)];
    ReachHookStep(w, hooked, 3);
    assert {} + {SETTLED_EVENT.id} == {SETTLED_EVENT.id};
    assert hooked[3 := HookInserted(SETTLED_EVENT)] == actors[3 := HookInserted(SETTLED_EVENT)];
  }

  lemma SettlesFromTheLog(db: Db)
    requires db == Tables(Row(Submitted, Some(FormatRef(1))), {SETTLED_EVENT.id})
    ensures var after := ApplyEvent(db, SETTLED_EVENT);
      && 1 in after.refunds && after.refunds[1].status == Settled
      && after.log == db.log + [Transition(1, Some(Requested), Settled, "webhook", None)]
  {
    assert FindRef(db, FormatRef(1)) == Some(1);
    assert LastLogged(db.log, 1) == Some(Requested);
  }

  /** The webhook's audit row can disagree with its own state change: there is a reachable state where
      the settled webhook takes a `submitted` row to `settled` and logs that it came from `requested`. */
  lemma WebhookMayLogStaleStatus() returns (s: State, m: Move)
    ensures Reachable(s) && Enabled(s, m) && m == Step(3, CHOICE)
    ensures 1 in s.w.db.refunds && s.w.db.refunds[1].status == Submitted
    ensures 3 in s.actors && s.actors[3] == HookInserted(SETTLED_EVENT)
    ensures var db := Next(s, m).w.db;
      && 1 in db.refunds && db.refunds[1].status == Settled
      && db.log == s.w.db.log + [Transition(1, Some(Requested), Settled, "webhook", None)]
  {
    var actors := map[1 := SubmitMarked(1, Row(Requested, None)), 2 := Done(Submission(true))];
    SettledEventRegistered(actors);
    var db := Tables(Row(Submitted, Some(FormatRef(1))), {SETTLED_EVENT.id});
    SettlesFromTheLog(db);
    s, m := State(World(db, HELD, map[]), actors[3 := HookInserted(SETTLED_EVENT)]), Step(3, CHOICE);
  }

  // ---- exactly when it is right: one event ----

  /** The log's last word on the row is the row's status. */
  predicate InSync(db: Db, id: Uuid) {
    id in db.refunds && LastLogged(db.log, id) == Some(db.refunds[id].status)
  }

  /** Settled or failed, the handler writes one entry, from the status the row really left exactly when the
      log was up to date for this row. */
  lemma LoggedFromIsTrueIff(db: Db, e: WebhookEvent, id: Uuid)
    requires Indexed(db) && id in db.refunds && TakesRow(e, db.refunds[id])
    ensures var after := ApplyEvent(db, e);
      && |after.log| == |db.log| + 1 && after.log[..|db.log|] == db.log
      && id in after.refunds
      && var entry := after.log[|db.log|];
      && entry.refundId == id && entry.to == after.refunds[id].status
      && (entry.from == Some(db.refunds[id].status) <==> InSync(db, id))
  {
    FoundIsTheRow(db, e.gatewayRef, id);
    SettledIsNotFailed(e);
  }

  // ---- exactly when the log is up to date: whole runs ----

  /** The entry that the actor's next step appends for a change it made, or failed to make, before. */
  function LateEntry(a: Actor, id: Uuid): Option<Status> {
    match a
    case ApproveMarked(row, _) => if row == id then Some(Requested) else None
    case SubmitMarked(row, read) => if row == id && !read.status.Submitted? then Some(Submitted) else None
    case RecoverRecorded(todo, _, _) => if todo != [] && todo[0].id == id then Some(Submitted) else None
    case RecoverCalled(todo, _, _) => if todo != [] && todo[0].id == id then Some(Submitted) else None
    case _ => None
  }

  /** The actor's next step changes the row's status without logging it. */
  predicate ChangesUnlogged(db: Db, a: Actor, id: Uuid) {
    && id in db.refunds
    && (|| (a.ApproveChecked? && a.id == id && db.refunds[id].status.PendingReview?)
        || (a.SubmitRead? && a.id == id && db.refunds[id].status.Requested?)
        || (a.RecoverRead? && a.todo != [] && a.todo[0].id == id && db.refunds[id].status.Requested?))
  }

  /** The actor's next step changes the row and logs it in one transaction. */
  predicate ChangesLogged(db: Db, a: Actor, id: Uuid) {
    || (a.RequestAudited? && a.q.refundId == id && id !in db.refunds)
    || (a.HookInserted? && id in db.refunds && TakesRow(a.event, db.refunds[id]))
  }

  /** The step leaves the log up to date for the row ... */
  predicate Publishes(db: Db, a: Actor, id: Uuid) {
    || ChangesLogged(db, a, id)
    || (id in db.refunds && LateEntry(a, id) == Some(db.refunds[id].status))
  }

  /** ... or leaves it behind, or writes an entry the row has moved on from. */
  predicate Spoils(db: Db, a: Actor, id: Uuid) {
    ChangesUnlogged(db, a, id) || MissesRow(db, a, id)
  }

  /** A late entry for a status that is not, or no longer, the row's. */
  predicate MissesRow(db: Db, a: Actor, id: Uuid) {
    id in db.refunds && LateEntry(a, id).Some? && LateEntry(a, id) != Some(db.refunds[id].status)
  }

  /** What one step does to being up to date. */
  predicate SyncStep(db: Db, after: Db, a: Actor, id: Uuid) {
    InSync(after, id) <==> Publishes(db, a, id) || (InSync(db, id) && !Spoils(db, a, id))
  }

  lemma {:induction false} LastLoggedOk(db: Db, log: seq<Transition>, id: Uuid)
    requires id in db.refunds && (forall e :: e in log ==> EntryOk(db, e))
    ensures LastLogged(log, id).Some? ==> Rank(LastLogged(log, id).value) <= Rank(db.refunds[id].status)
  {
    if log != [] {
      assert log[|log| - 1] in log;
      LastLoggedOk(db, log[..|log| - 1], id);
    }
  }

  lemma LastLoggedAppend(log: seq<Transition>, e: Transition, id: Uuid)
    ensures LastLogged(log + [e], id) == if e.refundId == id then Some(e.to) else LastLogged(log, id)
  {
    assert (log + [e])[..|log|] == log;
  }

  /** A row rewritten in place, with no entry. */
  lemma SyncOfRow(db: Db, row: Uuid, r: Refund, id: Uuid)
    requires LogOk(db) && row in db.refunds
    requires r.status == db.refunds[row].status || Rank(r.status) > Rank(db.refunds[row].status)
    ensures InSync(db.(refunds := db.refunds[row := r]), id)
       <==> InSync(db, id) && (row == id ==> r.status == db.refunds[row].status)
  {
    if id in db.refunds {
      LastLoggedOk(db, db.log, id);
    }
  }

  lemma SyncOfEntry(db: Db, e: Transition, id: Uuid)
    ensures InSync(AppendLog(db, e), id)
       <==> if e.refundId == id then id in db.refunds && e.to == db.refunds[id].status else InSync(db, id)
  {
    LastLoggedAppend(db.log, e, id);
  }

  lemma RequestSync(w: World, a: Actor, position: nat, id: Uuid, after: Db)
    requires IsRequest(a) && RequestInv(w, a) && after == ActRequest(w, a, position).0.db
    ensures SyncStep(w.db, after, a, id)
  {
    if a.RequestAudited? && a.q.refundId !in w.db.refunds {
      var place := if position <= |w.db.created| then position else |w.db.created|;
      InsertSync(w.db, a.q.refundId, a.row, a.entry, place, id);
      assert after == InsertRefund(w.db, a.q.refundId, a.row, a.entry, place);
    } else {
      assert after == w.db;
    }
  }

  lemma InsertSync(db: Db, row: Uuid, r: Refund, e: Transition, place: nat, id: Uuid)
    requires row !in db.refunds && e.refundId == row && e.to == r.status && place <= |db.created|
    ensures InSync(InsertRefund(db, row, r, e, place), id) <==> row == id || InSync(db, id)
  {
    LastLoggedAppend(db.log, e, id);
  }

  lemma ApproveSync(w: World, a: Actor, id: Uuid)
    requires IsApprove(a) && LogOk(w.db) && ApproveInv(w, a)
    ensures SyncStep(w.db, ActApprove(w, a).0.db, a, id)
  {
    match a {
      case ApproveBegin(_, _) =>
      case ApproveChecked(row, _) =>
        if w.db.refunds[row].status.PendingReview? {
          SyncOfRow(w.db, row, w.db.refunds[row].(status := Requested), id);
        }
      case ApproveMarked(row, approver) => SyncOfEntry(w.db, ApprovalEntry(row, approver), id);
    }
  }

  lemma MarkSync(db: Db, row: Uuid, id: Uuid)
    requires LogOk(db)
    ensures InSync(MarkSubmitted(db, row), id)
       <==> InSync(db, id) && !(row == id && id in db.refunds && db.refunds[id].status.Requested?)
  {
    if row in db.refunds && IsStuck(db.refunds[row].status) {
      SyncOfRow(db, row, db.refunds[row].(status := Submitted), id);
    }
  }

  lemma RecordSync(db: Db, row: Uuid, ref: string, id: Uuid)
    requires LogOk(db) && RecordRef(db, row, ref).Some?
    ensures InSync(RecordRef(db, row, ref).value, id) <==> InSync(db, id)
  {
    if LacksRef(db, row) {
      SyncOfRow(db, row, db.refunds[row].(gatewayRef := Some(ref)), id);
    }
  }

  lemma SubmitSync(w: World, a: Actor, config: MockConfig, id: Uuid, after: Db)
    requires IsSubmit(a) && LogOk(w.db) && SubmitInv(w, a) && after == ActSubmit(w, a, config).0.db
    ensures SyncStep(w.db, after, a, id)
  {
    if a.SubmitRead? {
      MarkSync(w.db, a.id, id);
      assert after == MarkSubmitted(w.db, a.id);
    } else if a.SubmitMarked? && !a.row.status.Submitted? {
      SyncOfEntry(w.db, SubmitEntry(a.id, a.row.status), id);
      assert after == AppendLog(w.db, SubmitEntry(a.id, a.row.status));
    } else if a.SubmitAccepted? {
      SubmitAcceptedSync(w, a.id, a.ref, config, id);
    } else {
      assert after == w.db;
    }
  }

  lemma SubmitAcceptedSync(w: World, row: Uuid, ref: string, config: MockConfig, id: Uuid)
    requires LogOk(w.db)
    ensures InSync(ActSubmit(w, SubmitAccepted(row, ref), config).0.db, id) <==> InSync(w.db, id)
  {
    if RecordRef(w.db, row, ref).Some? {
      RecordSync(w.db, row, ref, id);
    }
  }

  lemma FoundSync(w: World, a: Actor, config: MockConfig, id: Uuid)
    requires a.RecoverFound? && RowsOk(w) && LogOk(w.db) && RecoverInv(w, a)
    ensures SyncStep(w.db, ActRecover(w, a, config).0.db, a, id)
  {
    assert a.todo[0] in a.todo;
    RecoverRefIsRecordRef(w, a.todo[0].id, a.ref);
    if RecordRef(w.db, a.todo[0].id, a.ref).Some? {
      RecordSync(w.db, a.todo[0].id, a.ref, id);
    }
  }

  lemma AcceptedSync(w: World, a: Actor, config: MockConfig, id: Uuid)
    requires a.RecoverAccepted? && LogOk(w.db) && RecoverInv(w, a)
    ensures SyncStep(w.db, ActRecover(w, a, config).0.db, a, id)
  {
    if RecordRef(w.db, a.todo[0].id, a.ref).Some? {
      RecordSync(w.db, a.todo[0].id, a.ref, id);
    }
  }

  lemma ReadSync(w: World, a: Actor, config: MockConfig, id: Uuid)
    requires a.RecoverRead? && LogOk(w.db) && RecoverInv(w, a)
    ensures SyncStep(w.db, ActRecover(w, a, config).0.db, a, id)
  {
    MarkSync(w.db, a.todo[0].id, id);
  }

  lemma RecordedSync(w: World, a: Actor, config: MockConfig, id: Uuid)
    requires a.RecoverRecorded? && a.todo != []
    ensures SyncStep(w.db, ActRecover(w, a, config).0.db, a, id)
  {
    SyncOfEntry(w.db, RecoverEntry(a.todo[0], "job:recover"), id);
  }

  lemma CalledSync(w: World, a: Actor, config: MockConfig, id: Uuid)
    requires a.RecoverCalled? && a.todo != []
    ensures SyncStep(w.db, ActRecover(w, a, config).0.db, a, id)
  {
    SyncOfEntry(w.db, RecoverEntry(a.todo[0], "job:recover-resubmit"), id);
  }

  lemma LooksSync(w: World, a: Actor, config: MockConfig, id: Uuid)
    requires a.RecoverBegin? || a.RecoverNext? || a.RecoverMissing? || a.RecoverMarked?
    ensures SyncStep(w.db, ActRecover(w, a, config).0.db, a, id)
  {
    assert ActRecover(w, a, config).0.db == w.db;
  }

  lemma RecoverSync(w: World, a: Actor, config: MockConfig, id: Uuid)
    requires IsRecover(a) && LedgerInv(w) && RecoverInv(w, a)
    ensures SyncStep(w.db, ActRecover(w, a, config).0.db, a, id)
  {
    if a.RecoverFound? {
      FoundSync(w, a, config, id);
    } else if a.RecoverAccepted? {
      AcceptedSync(w, a, config, id);
    } else if a.RecoverRead? {
      ReadSync(w, a, config, id);
    } else if a.RecoverRecorded? {
      RecordedSync(w, a, config, id);
    } else if a.RecoverCalled? {
      CalledSync(w, a, config, id);
    } else {
      LooksSync(w, a, config, id);
    }
  }

  lemma HookSync(w: World, a: Actor, id: Uuid, after: Db)
    requires IsHook(a) && LedgerInv(w) && after == ActHook(w, a).0.db
    ensures SyncStep(w.db, after, a, id)
  {
    if a.HookInserted? {
      assert after == ApplyEvent(w.db, a.event);
      EventSyncStep(w, a, id, after);
    } else {
      RegisteredSync(w, a, id);
    }
  }

  lemma EventSyncStep(w: World, a: Actor, id: Uuid, after: Db)
    requires a.HookInserted? && LedgerInv(w) && after == ApplyEvent(w.db, a.event)
    ensures SyncStep(w.db, after, a, id)
  {
    EventSync(w, a.event, id);
  }

  lemma RegisteredSync(w: World, a: Actor, id: Uuid)
    requires a.HookBegin?
    ensures InSync(ActHook(w, a).0.db, id) <==> InSync(w.db, id)
  {
  }

  lemma EventSync(w: World, e: WebhookEvent, id: Uuid)
    requires LedgerInv(w)
    ensures InSync(ApplyEvent(w.db, e), id)
       <==> InSync(w.db, id) || (id in w.db.refunds && TakesRow(e, w.db.refunds[id]))
  {
    InvIndexed(w);
    EventKeepsIndex(w.db, e);
    if id in w.db.refunds {
      EventOnRow(w.db, e, id);
      InSyncByEntries(w.db, id);
      InSyncByEntries(ApplyEvent(w.db, e), id);
      EventSyncOnRow(Entries(w.db.log, id), id, w.db.refunds[id], e);
    }
  }

  predicate EndsIn(es: seq<Transition>, status: Status) {
    es != [] && es[|es| - 1].to == status
  }

  lemma InSyncByEntries(db: Db, id: Uuid)
    requires id in db.refunds
    ensures InSync(db, id) <==> EndsIn(Entries(db.log, id), db.refunds[id].status)
  {
    LastLoggedIsLast(db.log, id);
  }

  lemma EventSyncOnRow(es: seq<Transition>, id: Uuid, r: Refund, e: WebhookEvent)
    ensures EndsIn(EntriesEvent(es, id, r, e), RowEvent(r, e).status) <==> EndsIn(es, r.status) || TakesRow(e, r)
  {
    SettledIsNotFailed(e);
  }

  lemma ActSync(w: World, a: Actor, choice: Choice, id: Uuid)
    requires LedgerInv(w) && ActorInv(w, a)
    ensures SyncStep(w.db, Act(w, a, choice).0.db, a, id)
  {
    var after := Act(w, a, choice).0.db;
    if IsRequest(a) {
      RequestSync(w, a, choice.position, id, after);
    } else if IsApprove(a) {
      ApproveSync(w, a, id);
    } else if IsSubmit(a) {
      SubmitSync(w, a, choice.config, id, after);
    } else if IsRecover(a) {
      RecoverSync(w, a, choice.config, id);
    } else if IsHook(a) {
      HookSync(w, a, id, after);
    }
  }

  predicate MovePublishes(s: State, m: Move, id: Uuid) {
    m.Step? && m.who in s.actors && Publishes(s.w.db, s.actors[m.who], id)
  }

  predicate MoveSpoils(s: State, m: Move, id: Uuid) {
    m.Step? && m.who in s.actors && Spoils(s.w.db, s.actors[m.who], id)
  }

  lemma MoveSync(s: State, m: Move, id: Uuid)
    requires Inv(s) && Enabled(s, m)
    ensures InSync(Next(s, m).w.db, id) <==> MovePublishes(s, m, id) || (InSync(s.w.db, id) && !MoveSpoils(s, m, id))
  {
    if m.Step? {
      assert ActorInv(s.w, s.actors[m.who]);
      ActSync(s.w, s.actors[m.who], m.choice, id);
    }
  }

  /** Move `j` published the row's status, and nothing has spoilt that before state `i`. */
  predicate PublishedAt(states: seq<State>, moves: seq<Move>, i: nat, id: Uuid, j: nat)
    requires i <= |moves| <= |states|
  {
    && j < i
    && MovePublishes(states[j], moves[j], id)
    && forall k :: j < k < i ==> !MoveSpoils(states[k], moves[k], id)
  }

  ghost predicate Published(states: seq<State>, moves: seq<Move>, i: nat, id: Uuid)
    requires i <= |moves| <= |states|
  {
    exists j: nat :: PublishedAt(states, moves, i, id, j)
  }

  lemma PublishedNext(states: seq<State>, moves: seq<Move>, i: nat, id: Uuid)
    requires 0 < i <= |moves| <= |states|
    ensures Published(states, moves, i, id) <==>
      || MovePublishes(states[i - 1], moves[i - 1], id)
      || (Published(states, moves, i - 1, id) && !MoveSpoils(states[i - 1], moves[i - 1], id))
  {
    if MovePublishes(states[i - 1], moves[i - 1], id) {
      assert PublishedAt(states, moves, i, id, i - 1);
    }
    if Published(states, moves, i - 1, id) && !MoveSpoils(states[i - 1], moves[i - 1], id) {
      var j: nat :| PublishedAt(states, moves, i - 1, id, j);
      assert PublishedAt(states, moves, i, id, j);
    }
    if Published(states, moves, i, id) && !MovePublishes(states[i - 1], moves[i - 1], id) {
      var j: nat :| PublishedAt(states, moves, i, id, j);
      assert PublishedAt(states, moves, i - 1, id, j);
    }
  }

  /** In every interleaved, crashing run the log is up to date for a refund exactly when some move published
      its status and no later move changed it without logging or wrote an entry the row had left behind. */
  lemma {:induction false} InSyncIffPublished(states: seq<State>, moves: seq<Move>, i: nat, id: Uuid)
    requires IsRunFromStart(states, moves) && i <= |moves|
    ensures InSync(states[i].w.db, id) <==> Published(states, moves, i, id)
  {
    if i > 0 {
      InSyncIffPublished(states, moves, i - 1, id);
      PublishedNext(states, moves, i, id);
      ReachableInv(states, moves, i - 1);
      assert IsStepAt(states, moves, i - 1);
      MoveSync(states[i - 1], moves[i - 1], id);
    }
  }

  /** So, in every run, either webhook logs the status the row really left exactly under that condition. */
  lemma WebhookLogsTrueStatusIff(states: seq<State>, moves: seq<Move>, i: nat, who: nat, e: WebhookEvent, id: Uuid)
    requires IsRunFromStart(states, moves) && i < |moves| && moves[i].Step? && moves[i].who == who
    requires who in states[i].actors && states[i].actors[who] == HookInserted(e)
    requires id in states[i].w.db.refunds && TakesRow(e, states[i].w.db.refunds[id])
    ensures var db, after := states[i].w.db, states[i + 1].w.db;
      && |after.log| == |db.log| + 1 && after.log[..|db.log|] == db.log
      && id in after.refunds
      && var entry := after.log[|db.log|];
      && entry.refundId == id && entry.to == after.refunds[id].status
      && (entry.from == Some(db.refunds[id].status) <==> Published(states, moves, i, id))
  {
    IndexedAt(states, moves, i);
    assert IsStepAt(states, moves, i);
    HookApplies(states[i], moves[i], e);
    LoggedFromIsTrueIff(states[i].w.db, e, id);
    InSyncIffPublished(states, moves, i, id);
  }

  lemma IndexedAt(states: seq<State>, moves: seq<Move>, i: nat)
    requires IsRunFromStart(states, moves) && i <= |moves|
    ensures Indexed(states[i].w.db)
  {
    ReachableInv(states, moves, i);
    InvIndexed(states[i].w);
  }

  lemma HookApplies(s: State, m: Move, e: WebhookEvent)
    requires Enabled(s, m) && m.Step? && s.actors[m.who] == HookInserted(e)
    ensures Next(s, m).w.db == ApplyEvent(s.w.db, e)
  {
  }

  // ---- at rest ----

  /** The actor changed the row, or found it changed, and still owes the entry. */
  predicate Owes(a: Actor, id: Uuid) {
    || LateEntry(a, id).Some?
    || ((a.RecoverMarked? || a.RecoverAccepted?) && a.todo != [] && a.todo[0].id == id)
  }

  ghost predicate SomeoneOwes(s: State, id: Uuid) {
    exists who :: who in s.actors && Owes(s.actors[who], id)
  }

  /** No actor crashes while it owes an entry for this refund, and no late entry misses the row. */
  predicate Undisturbed(s: State, m: Move, id: Uuid) {
    match m
    case Crash(who) => who in s.actors ==> !Owes(s.actors[who], id)
    case Step(who, _) => who in s.actors ==> !MissesRow(s.w.db, s.actors[who], id)
    case _ => true
  }

  lemma StaysOwing(w: World, a: Actor, config: MockConfig, id: Uuid)
    requires (a.RecoverMarked? || a.RecoverAccepted?) && a.todo != [] && a.todo[0].id == id
    requires a.RecoverAccepted? ==> RecordRef(w.db, id, a.ref).Some?
    ensures Owes(ActRecover(w, a, config).1, id)
  {
    var next := ActRecover(w, a, config).1;
    assert next.RecoverAccepted? || next.RecoverCalled?;
  }

  lemma AcceptedIsRecorded(w: World, a: Actor)
    requires a.RecoverAccepted? && a.todo != [] && StoredRef(w, a.todo[0].id, a.ref)
    requires RowsOk(w) && Consistent(w.gw)
    ensures RecordRef(w.db, a.todo[0].id, a.ref).Some?
  {
    RefNotTaken(w, a.todo[0].id, a.ref);
  }

  lemma StartsOwing(w: World, a: Actor, choice: Choice, id: Uuid)
    requires ChangesUnlogged(w.db, a, id) && ActorInv(w, a)
    ensures Owes(Act(w, a, choice).1, id)
  {
  }

  lemma NewRowIsPublished(w: World, a: Actor, choice: Choice, id: Uuid)
    requires id !in w.db.refunds && id in Act(w, a, choice).0.db.refunds
    ensures Publishes(w.db, a, id)
  {
    if IsRequest(a) {
      RequestAddsOwnRow(w, a, choice.position, id);
    } else if IsApprove(a) {
      ApproveAddsNoRow(w, a);
    } else if IsSubmit(a) {
      SubmitAddsNoRow(w, a, choice.config);
    } else if IsRecover(a) {
      RecoverAddsNoRow(w, a, choice.config);
    } else if IsHook(a) {
      HookAddsNoRow(w, a);
    }
  }

  /** The log is up to date for the refund, or some actor still owes it an entry. */
  ghost predicate SyncedOrOwed(s: State, id: Uuid) {
    id in s.w.db.refunds ==> InSync(s.w.db, id) || SomeoneOwes(s, id)
  }

  lemma OwedStep(s: State, m: Move, o: nat, id: Uuid)
    requires Inv(s) && Enabled(s, m) && Undisturbed(s, m, id)
    requires id in s.w.db.refunds && o in s.actors && Owes(s.actors[o], id)
    ensures SyncedOrOwed(Next(s, m), id)
  {
    if m.Step? && m.who == o {
      assert ActorInv(s.w, s.actors[o]);
      if LateEntry(s.actors[o], id).Some? {
        MoveSync(s, m, id);
      } else {
        if s.actors[o].RecoverAccepted? {
          AcceptedIsRecorded(s.w, s.actors[o]);
        }
        StaysOwing(s.w, s.actors[o], m.choice.config, id);
        assert Owes(Next(s, m).actors[o], id);
      }
    } else {
      assert Owes(Next(s, m).actors[o], id);
    }
  }

  lemma SyncedStep(s: State, m: Move, id: Uuid)
    requires Inv(s) && Enabled(s, m) && Undisturbed(s, m, id) && InSync(s.w.db, id)
    ensures SyncedOrOwed(Next(s, m), id)
  {
    MoveSync(s, m, id);
    if MoveSpoils(s, m, id) {
      assert ActorInv(s.w, s.actors[m.who]);
      StartsOwing(s.w, s.actors[m.who], m.choice, id);
      assert Owes(Next(s, m).actors[m.who], id);
    }
  }

  lemma SyncedOrOwedStep(s: State, m: Move, id: Uuid)
    requires Inv(s) && Enabled(s, m) && Undisturbed(s, m, id) && SyncedOrOwed(s, id)
    ensures SyncedOrOwed(Next(s, m), id)
  {
    if id !in s.w.db.refunds {
      MoveSync(s, m, id);
      if id in Next(s, m).w.db.refunds {
        NewRowIsPublished(s.w, s.actors[m.who], m.choice, id);
      }
    } else if InSync(s.w.db, id) {
      SyncedStep(s, m, id);
    } else {
      var o :| o in s.actors && Owes(s.actors[o], id);
      OwedStep(s, m, o, id);
    }
  }

  predicate UndisturbedUpTo(states: seq<State>, moves: seq<Move>, i: nat, id: Uuid)
    requires i <= |moves| <= |states|
  {
    forall k :: 0 <= k < i ==> Undisturbed(states[k], moves[k], id)
  }

  lemma {:induction false} RunSyncedOrOwed(states: seq<State>, moves: seq<Move>, i: nat, id: Uuid)
    requires IsRunFromStart(states, moves) && i <= |moves| && UndisturbedUpTo(states, moves, i, id)
    ensures SyncedOrOwed(states[i], id)
  {
    if i > 0 {
      RunSyncedOrOwed(states, moves, i - 1, id);
      ReachableInv(states, moves, i - 1);
      assert IsStepAt(states, moves, i - 1);
      assert Undisturbed(states[i - 1], moves[i - 1], id);
      SyncedOrOwedStep(states[i - 1], moves[i - 1], id);
    }
  }

  /** Interleave as you like: unless an actor crashed between a change to this refund and its entry, or wrote
      an entry for a status the refund was no longer in, the log is up to date whenever nobody owes it one. */
  lemma LogIsCurrentAtRest(states: seq<State>, moves: seq<Move>, i: nat, id: Uuid)
    requires IsRunFromStart(states, moves) && i <= |moves| && UndisturbedUpTo(states, moves, i, id)
    requires id in states[i].w.db.refunds && !SomeoneOwes(states[i], id)
    ensures LastLogged(states[i].w.db.log, id) == Some(states[i].w.db.refunds[id].status)
  {
    RunSyncedOrOwed(states, moves, i, id);
  }
}
