/** The refund protocol, statement by statement: any number of requesters, approvers, submitters,
    recovery jobs and webhook handlers run interleaved over one database and one gateway, and any
    of them may crash between two of its statements. */
module Protocol {
  import opened Outcomes
  import opened Errors
  import opened Ledger
  import opened Gateway
  import opened Statements
  import opened Invariant

  datatype Request = Request(
    refundId: Uuid, chargeId: Uuid, amountCents: int, currency: string, actor: string, reasonCode: Option<string>)

  datatype Reply =
    | Refunded(id: Uuid)
    | Approval
    | Submission(accepted: bool)
    | Recovery(report: RecoveryReport)
    | Webhook(result: WebhookResult)
    | Rejected(error: RefundError)

  /** An actor's program counter together with its locals: rows as they were when read, the
      gateway's answer, the stuck rows still to walk. */
  datatype Actor =
    // request_refund; the row lock on the charge is held from RequestLocked to RequestAudited
    | RequestBegin(q: Request)
    | RequestLocked(q: Request, captured: int, chargeCurrency: string)
    | RequestSummed(q: Request, captured: int, chargeCurrency: string, refundedSoFar: int)
    | RequestChecked(q: Request, initial: Status)
    | RequestInserted(q: Request, row: Refund)
    | RequestAudited(q: Request, row: Refund, entry: Transition)
    // approve
    | ApproveBegin(id: Uuid, approver: string)
    | ApproveChecked(id: Uuid, approver: string)
    | ApproveMarked(id: Uuid, approver: string)
    // submit_refund
    | SubmitBegin(id: Uuid)
    | SubmitRead(id: Uuid, row: Refund)
    | SubmitMarked(id: Uuid, row: Refund)
    | SubmitLogged(id: Uuid, row: Refund)
    | SubmitAccepted(id: Uuid, ref: string)
    // recover_submitted; the row being walked is todo[0]
    | RecoverBegin
    | RecoverNext(todo: seq<Stuck>, report: RecoveryReport, total: nat)
    | RecoverFound(todo: seq<Stuck>, report: RecoveryReport, total: nat, ref: string)
    | RecoverRecorded(todo: seq<Stuck>, report: RecoveryReport, total: nat)
    | RecoverMissing(todo: seq<Stuck>, report: RecoveryReport, total: nat)
    | RecoverRead(todo: seq<Stuck>, report: RecoveryReport, total: nat, amount: int, currency: string)
    | RecoverMarked(todo: seq<Stuck>, report: RecoveryReport, total: nat, amount: int, currency: string)
    | RecoverAccepted(todo: seq<Stuck>, report: RecoveryReport, total: nat, ref: string)
    | RecoverCalled(todo: seq<Stuck>, report: RecoveryReport, total: nat)
    // handle_webhook
    | HookBegin(event: WebhookEvent, verified: bool)
    | HookInserted(event: WebhookEvent)
    | Done(reply: Reply)

  predicate IsRequest(a: Actor) {
    || a.RequestBegin? || a.RequestLocked? || a.RequestSummed?
    || a.RequestChecked? || a.RequestInserted? || a.RequestAudited?
  }

  predicate IsApprove(a: Actor) {
    a.ApproveBegin? || a.ApproveChecked? || a.ApproveMarked?
  }

  predicate IsSubmit(a: Actor) {
    a.SubmitBegin? || a.SubmitRead? || a.SubmitMarked? || a.SubmitLogged? || a.SubmitAccepted?
  }

  predicate IsHook(a: Actor) {
    a.HookBegin? || a.HookInserted?
  }

  predicate IsRecover(a: Actor) {
    || a.RecoverBegin? || a.RecoverNext? || a.RecoverFound? || a.RecoverRecorded? || a.RecoverMissing?
    || a.RecoverRead? || a.RecoverMarked? || a.RecoverAccepted? || a.RecoverCalled?
  }

  /** The charge whose row lock the actor's transaction holds. */
  function Holds(a: Actor): Option<Uuid> {
    if IsRequest(a) && !a.RequestBegin? then Some(a.q.chargeId) else None
  }

  /** What the environment decides at a step: how the gateway behaves if it is called, and where
      the clock places a row that is committed. */
  datatype Choice = Choice(config: MockConfig, position: nat)

  function InitialStatus(amountCents: int): Status {
    if amountCents >= REVIEW_THRESHOLD_CENTS then PendingReview else Requested
  }

  function NewRow(q: Request, initial: Status): Refund {
    Refund(q.chargeId, q.amountCents, q.currency, None, initial, q.reasonCode, q.actor, None)
  }

  function FirstEntry(q: Request, initial: Status): Transition {
    Transition(q.refundId, None, initial, q.actor, q.reasonCode)
  }

  function Refuse(w: World, e: RefundError): (World, Actor) {
    (w, Done(Rejected(e)))
  }

  function ActRequest(w: World, a: Actor, position: nat): (World, Actor)
    requires IsRequest(a)
  {
    var db, q := w.db, a.q;
    match a {
      case RequestBegin(_) =>
        if q.chargeId !in db.charges then Refuse(w, ChargeNotFound(q.chargeId))
        else (w, RequestLocked(q, db.charges[q.chargeId].amountCaptured, db.charges[q.chargeId].currency))
      case RequestLocked(_, captured, chargeCurrency) =>
        var sum := LiveSum(db, q.chargeId);
        if !FitsI64(sum) then Refuse(w, DbError(BigintOutOfRange))
        else (w, RequestSummed(q, captured, chargeCurrency, sum))
      case RequestSummed(_, captured, chargeCurrency, refundedSoFar) =>
        if q.currency != chargeCurrency then Refuse(w, CurrencyMismatch(q.currency, chargeCurrency))
        else
          var remaining := Wrap64(captured - refundedSoFar);
          if q.amountCents > remaining then Refuse(w, OverRefund(q.chargeId, q.amountCents, remaining))
          else (w, RequestChecked(q, InitialStatus(q.amountCents)))
      case RequestChecked(_, initial) =>
        if q.amountCents <= 0 then Refuse(w, DbError(CheckViolation))
        else if q.refundId in db.refunds then Refuse(w, DbError(PrimaryKeyViolation))
        else (w, RequestInserted(q, NewRow(q, initial)))
      case RequestInserted(_, row) =>
        (w, RequestAudited(q, row, FirstEntry(q, row.status)))
      case RequestAudited(_, row, entry) =>
        if q.refundId in db.refunds then Refuse(w, DbError(PrimaryKeyViolation))
        else
          var place := if position <= |db.created| then position else |db.created|;
          (w.(db := InsertRefund(db, q.refundId, row, entry, place)), Done(Refunded(q.refundId)))
    }
  }

  function ApprovalEntry(id: Uuid, approver: string): Transition {
    Transition(id, Some(PendingReview), Requested, "approver:" + approver, None)
  }

  function ActApprove(w: World, a: Actor): (World, Actor)
    requires IsApprove(a)
  {
    var db := w.db;
    match a {
      case ApproveBegin(id, approver) =>
        if id !in db.refunds then Refuse(w, RefundNotFound(id))
        else if !db.refunds[id].status.PendingReview? then Refuse(w, NotPendingReview(id))
        else if approver == db.refunds[id].requestedBy then Refuse(w, SeparationOfDuties(approver))
        else (w, ApproveChecked(id, approver))
      case ApproveChecked(id, approver) =>
        (Approved(w, id, approver), ApproveMarked(id, approver))
      case ApproveMarked(id, approver) =>
        (w.(db := AppendLog(db, ApprovalEntry(id, approver))), Done(Approval))
    }
  }

  function SubmitEntry(id: Uuid, from: Status): Transition {
    Transition(id, Some(from), Submitted, "job:submit", None)
  }

  function ActSubmit(w: World, a: Actor, config: MockConfig): (World, Actor)
    requires IsSubmit(a)
  {
    var db := w.db;
    match a {
      case SubmitBegin(id) =>
        if id !in db.refunds then Refuse(w, RefundNotFound(id))
        else if IsTerminal(db.refunds[id].status) then (w, Done(Submission(false)))
        else if db.refunds[id].status.PendingReview? then (w, Done(Submission(false)))
        else (w, SubmitRead(id, db.refunds[id]))
      case SubmitRead(id, row) =>
        (w.(db := MarkSubmitted(db, id)), SubmitMarked(id, row))
      case SubmitMarked(id, row) =>
        if row.status.Submitted? then (w, SubmitLogged(id, row))
        else (w.(db := AppendLog(db, SubmitEntry(id, row.status))), SubmitLogged(id, row))
      case SubmitLogged(id, row) =>
        var (gw, outcome) := Create(w.gw, row.amountCents, row.currency, id, config);
        (w.(gw := gw), if outcome.Accepted? then SubmitAccepted(id, outcome.refund.id) else Done(Submission(false)))
      case SubmitAccepted(id, ref) =>
        match RecordRef(db, id, ref)
        case None => Refuse(w, DbError(UniqueRefViolation))
        case Some(after) => (w.(db := after), Done(Submission(true)))
    }
  }

  function RecoverEntry(k: Stuck, actor: string): Transition {
    Transition(k.id, Some(k.status), Submitted, actor, None)
  }

  function ActRecover(w: World, a: Actor, config: MockConfig): (World, Actor)
    requires IsRecover(a)
  {
    var db := w.db;
    match a {
      case RecoverBegin =>
        var stuck := SelectStuck(db);
        (w, RecoverNext(stuck, NO_REPORT, |stuck|))
      case RecoverNext(todo, report, total) =>
        if todo == [] then (w, Done(Recovery(report)))
        else
          var walked := report.(walked := report.walked + 1);
          if todo[0].id in w.gw.store then (w, RecoverFound(todo, walked, total, w.gw.store[todo[0].id].id))
          else (w, RecoverMissing(todo, walked, total))
      case RecoverFound(todo, report, total, ref) =>
        if todo == [] then (w, a)
        else (match RecoverRef(db, todo[0].id, ref)
              case None => Refuse(w, DbError(UniqueRefViolation))
              case Some(after) => (w.(db := after), RecoverRecorded(todo, report, total)))
      case RecoverRecorded(todo, report, total) =>
        if todo == [] then (w, a)
        else
          (w.(db := AppendLog(db, RecoverEntry(todo[0], "job:recover"))),
           RecoverNext(todo[1..], report.(alreadyAtGateway := report.alreadyAtGateway + 1), total))
      case RecoverMissing(todo, report, total) =>
        if todo == [] then (w, a)
        else if todo[0].id !in db.refunds then Refuse(w, DbError(RowNotFound))
        else
          (w, RecoverRead(todo, report, total, db.refunds[todo[0].id].amountCents, db.refunds[todo[0].id].currency))
      case RecoverRead(todo, report, total, amount, currency) =>
        if todo == [] then (w, a)
        else (w.(db := MarkSubmitted(db, todo[0].id)), RecoverMarked(todo, report, total, amount, currency))
      case RecoverMarked(todo, report, total, amount, currency) =>
        if todo == [] then (w, a)
        else
          var (gw, outcome) := Create(w.gw, amount, currency, todo[0].id, config);
          (w.(gw := gw),
           if outcome.Accepted? then RecoverAccepted(todo, report, total, outcome.refund.id)
           else RecoverCalled(todo, report, total))
      case RecoverAccepted(todo, report, total, ref) =>
        if todo == [] then (w, a)
        else (match RecordRef(db, todo[0].id, ref)
              case None => Refuse(w, DbError(UniqueRefViolation))
              case Some(after) => (w.(db := after), RecoverCalled(todo, report, total)))
      case RecoverCalled(todo, report, total) =>
        if todo == [] then (w, a)
        else
          (w.(db := AppendLog(db, RecoverEntry(todo[0], "job:recover-resubmit"))),
           RecoverNext(todo[1..], report.(resubmitted := report.resubmitted + 1), total))
    }
  }

  function ActHook(w: World, a: Actor): (World, Actor)
    requires IsHook(a)
  {
    var db := w.db;
    match a {
      case HookBegin(event, verified) =>
        if !verified then Refuse(w, BadSignature)
        else if event.id in db.events then (w, Done(Webhook(Duplicate)))
        else (w.(db := InsertEvent(db, event.id)), HookInserted(event))
      case HookInserted(event) =>
        (w.(db := ApplyEvent(db, event)), Done(Webhook(Applied)))
    }
  }

  /** One atomic step of an actor: one statement, one gateway call or one local decision. */
  function Act(w: World, a: Actor, choice: Choice): (World, Actor) {
    if IsRequest(a) then ActRequest(w, a, choice.position)
    else if IsApprove(a) then ActApprove(w, a)
    else if IsSubmit(a) then ActSubmit(w, a, choice.config)
    else if IsRecover(a) then ActRecover(w, a, choice.config)
    else if IsHook(a) then ActHook(w, a)
    else (w, a)
  }

  // ---- the transition system ----

  datatype State = State(w: World, actors: map<nat, Actor>)

  datatype Move =
    | NewCharge(chargeId: Uuid, charge: Charge)
    | Spawn(who: nat, actor: Actor)
    | Crash(who: nat)
    | Step(who: nat, choice: Choice)

  predicate Starting(a: Actor) {
    || (a.RequestBegin? && FitsI64(a.q.amountCents))
    || a.ApproveBegin? || a.SubmitBegin? || a.RecoverBegin? || a.HookBegin?
  }

  /** The row lock: taking it waits until no other transaction holds it. */
  predicate Blocked(s: State, who: nat) {
    && who in s.actors
    && s.actors[who].RequestBegin?
    && exists other :: other in s.actors && Holds(s.actors[other]) == Some(s.actors[who].q.chargeId)
  }

  predicate Enabled(s: State, m: Move) {
    match m
    case NewCharge(c, charge) => c !in s.w.db.charges && 0 <= charge.amountCaptured <= I64_MAX
    case Spawn(who, actor) => who !in s.actors && Starting(actor)
    case Crash(who) => who in s.actors
    case Step(who, _) => who in s.actors && !Blocked(s, who)
  }

  /** A crash loses the actor's locals and, with an open transaction, its uncommitted rows and its lock. */
  function Next(s: State, m: Move): State
    requires Enabled(s, m)
  {
    match m
    case NewCharge(c, charge) => s.(w := s.w.(db := s.w.db.(charges := s.w.db.charges[c := charge])))
    case Spawn(who, actor) => s.(actors := s.actors[who := actor])
    case Crash(who) => s.(actors := s.actors - {who})
    case Step(who, choice) =>
      var (w, a) := Act(s.w, s.actors[who], choice);
      State(w, s.actors[who := a])
  }

  const START := State(World(Db(map[], map[], [], [], {}), EMPTY, map[]), map[])

  predicate IsStepAt(states: seq<State>, moves: seq<Move>, i: nat) {
    && i < |moves| && i + 1 < |states|
    && Enabled(states[i], moves[i])
    && states[i + 1] == Next(states[i], moves[i])
  }

  /** A run: `states[i]` becomes `states[i + 1]` by `moves[i]`. */
  predicate IsRun(states: seq<State>, moves: seq<Move>) {
    && |states| == |moves| + 1
    && (forall i :: 0 <= i < |moves| ==> IsStepAt(states, moves, i))
  }

  predicate IsRunFromStart(states: seq<State>, moves: seq<Move>) {
    IsRun(states, moves) && states[0] == START
  }
}
