/** The SQL statements of the engine, each one atomic, as functions on the tables. Both the
    interleaved protocol and the whole operations are built from these. */
module Statements {
  import opened Outcomes
  import opened Ledger

  /** Marks a requested or submitted row as submitted; any other row, or none, is left alone. */
  function MarkSubmitted(db: Db, id: Uuid): Db {
    if id in db.refunds && (db.refunds[id].status.Requested? || db.refunds[id].status.Submitted?) then
      db.(refunds := db.refunds[id := db.refunds[id].(status := Submitted)])
    else db
  }

  /** The partial unique index on `gateway_ref`: another row already carries this ref. */
  predicate RefTaken(db: Db, id: Uuid, ref: string) {
    exists other :: other in db.refunds && other != id && db.refunds[other].gatewayRef == Some(ref)
  }

  /** The row exists and no ref is recorded on it yet. */
  predicate LacksRef(db: Db, id: Uuid) {
    id in db.refunds && db.refunds[id].gatewayRef.None?
  }

  /** Records the ref on a row that lacks one. `None` is a violation of the unique index. */
  function RecordRef(db: Db, id: Uuid, ref: string): Option<Db> {
    if !LacksRef(db, id) then Some(db)
    else if RefTaken(db, id, ref) then None
    else Some(db.(refunds := db.refunds[id := db.refunds[id].(gatewayRef := Some(ref))]))
  }

  /** Recovery's form, which also writes `submitted` and does not look at the status in place. */
  function RecoverRef(db: Db, id: Uuid, ref: string): Option<Db> {
    if !LacksRef(db, id) then Some(db)
    else if RefTaken(db, id, ref) then None
    else Some(db.(refunds := db.refunds[id := db.refunds[id].(gatewayRef := Some(ref), status := Submitted)]))
  }

  /** Takes a row out of review; a row in any other status is left alone. */
  function MarkApproved(db: Db, id: Uuid): Db {
    if id in db.refunds && db.refunds[id].status.PendingReview? then
      db.(refunds := db.refunds[id := db.refunds[id].(status := Requested)])
    else db
  }

  /** Appends one audit row. */
  function AppendLog(db: Db, entry: Transition): Db {
    db.(log := db.log + [entry])
  }

  /** Publishes a new refund row and its first audit row. `position` is where the row's
      `created_at` places it. */
  function InsertRefund(db: Db, id: Uuid, row: Refund, entry: Transition, position: nat): Db
    requires position <= |db.created|
  {
    db.(refunds := db.refunds[id := row],
        created := db.created[..position] + [id] + db.created[position..],
        log := db.log + [entry])
  }

  /** Registers an event id; an id seen before changes nothing. */
  function InsertEvent(db: Db, event: string): Db {
    db.(events := db.events + {event})
  }

  /** The row carrying this gateway ref, if any: the unique index allows at most one. */
  function FindRefIn(ids: seq<Uuid>, refunds: map<Uuid, Refund>, ref: string): (found: Option<Uuid>)
    ensures found.Some? ==>
      found.value in ids && found.value in refunds && refunds[found.value].gatewayRef == Some(ref)
    ensures found.None? ==> forall id :: id in ids && id in refunds ==> refunds[id].gatewayRef != Some(ref)
  {
    if ids == [] then None
    else if ids[0] in refunds && refunds[ids[0]].gatewayRef == Some(ref) then Some(ids[0])
    else FindRefIn(ids[1..], refunds, ref)
  }

  function FindRef(db: Db, ref: string): Option<Uuid> {
    FindRefIn(db.created, db.refunds, ref)
  }

  /** The status that the refund's latest audit row says it moved to. */
  function LastLogged(log: seq<Transition>, id: Uuid): Option<Status> {
    if log == [] then None
    else if log[|log| - 1].refundId == id then Some(log[|log| - 1].to)
    else LastLogged(log[..|log| - 1], id)
  }

  predicate SettledApplies(s: Status) {
    s.Submitted? || s.Requested?
  }

  predicate FailedApplies(s: Status) {
    !s.Settled? && !s.Canceled?
  }

  /** The settled webhook's transaction: the status change and its audit row together. */
  function ApplySettled(db: Db, ref: string): Db {
    match FindRef(db, ref)
    case None => db
    case Some(id) =>
      if SettledApplies(db.refunds[id].status) then
        AppendLog(db.(refunds := db.refunds[id := db.refunds[id].(status := Settled)]),
                  Transition(id, LastLogged(db.log, id), Settled, "webhook", None))
      else db
  }

  /** The failed webhook's transaction. A row that already failed takes the newer reason. */
  function ApplyFailed(db: Db, ref: string, reason: Option<string>): Db {
    match FindRef(db, ref)
    case None => db
    case Some(id) =>
      if FailedApplies(db.refunds[id].status) then
        AppendLog(db.(refunds := db.refunds[id := db.refunds[id].(status := Failed, failureReason := reason)]),
                  Transition(id, LastLogged(db.log, id), Failed, "webhook", reason))
      else db
  }

  datatype WebhookEvent = WebhookEvent(id: string, eventType: string, gatewayRef: string, reason: Option<string>)

  predicate IsSettledEvent(e: WebhookEvent) {
    e.eventType == "refund.settled"
  }

  predicate IsFailedEvent(e: WebhookEvent) {
    e.eventType == "refund.failed"
  }

  /** Unknown event types change nothing. */
  function ApplyEvent(db: Db, e: WebhookEvent): Db {
    if IsSettledEvent(e) then ApplySettled(db, e.gatewayRef)
    else if IsFailedEvent(e) then ApplyFailed(db, e.gatewayRef, e.reason)
    else db
  }

  predicate IsStuck(s: Status) {
    s.Submitted? || s.Requested?
  }

  datatype Stuck = Stuck(id: Uuid, status: Status)

  /** The rows that a crash may have left behind, in `created_at` order, with their statuses. */
  function SelectStuckFrom(ids: seq<Uuid>, refunds: map<Uuid, Refund>): (stuck: seq<Stuck>)
    ensures forall k :: k in stuck <==>
      k.id in ids && k.id in refunds && k.status == refunds[k.id].status && IsStuck(k.status)
  {
    if ids == [] then []
    else
      (if ids[0] in refunds && IsStuck(refunds[ids[0]].status) then [Stuck(ids[0], refunds[ids[0]].status)] else [])
      + SelectStuckFrom(ids[1..], refunds)
  }

  function SelectStuck(db: Db): seq<Stuck> {
    SelectStuckFrom(db.created, db.refunds)
  }
}
