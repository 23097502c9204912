/** The global invariant of the interleaved protocol. What an actor believes at each program point
    is stable under everything the others may do, and every step of its own respects the ledger. */
module ProtocolInvariant {
  import opened Outcomes
  import opened Errors
  import opened Ledger
  import opened Gateway
  import opened Statements
  import opened Invariant
  import opened Protocol

  predicate AtLeast(w: World, id: Uuid, s: Status) {
    id in w.db.refunds && Rank(w.db.refunds[id].status) >= Rank(s)
  }

  predicate SameMoney(w: World, id: Uuid, amount: int, currency: string) {
    id in w.db.refunds && w.db.refunds[id].amountCents == amount && w.db.refunds[id].currency == currency
  }

  predicate StoredRef(w: World, id: Uuid, ref: string) {
    id in w.gw.store && w.gw.store[id].id == ref
  }

  predicate ChargeIs(w: World, c: Uuid, captured: int, currency: string) {
    c in w.db.charges && w.db.charges[c] == Charge(captured, currency)
  }

  /** The amount still fits under the charge. */
  predicate Fits(w: World, q: Request) {
    && q.chargeId in w.db.charges
    && q.currency == w.db.charges[q.chargeId].currency
    && LiveSum(w.db, q.chargeId) + q.amountCents <= w.db.charges[q.chargeId].amountCaptured
  }

  predicate RequestInv(w: World, a: Actor)
    requires IsRequest(a)
  {
    match a
    case RequestBegin(q) => true
    case RequestLocked(q, captured, currency) => ChargeIs(w, q.chargeId, captured, currency)
    case RequestSummed(q, captured, currency, sum) =>
      ChargeIs(w, q.chargeId, captured, currency) && LiveSum(w.db, q.chargeId) <= sum && 0 <= sum <= captured <= I64_MAX
    case RequestChecked(q, initial) => Fits(w, q) && initial == InitialStatus(q.amountCents)
    case RequestInserted(q, row) =>
      Fits(w, q) && q.amountCents > 0 && row == NewRow(q, InitialStatus(q.amountCents))
    case RequestAudited(q, row, entry) =>
      && Fits(w, q) && q.amountCents > 0 && row == NewRow(q, InitialStatus(q.amountCents))
      && entry == FirstEntry(q, row.status)
  }

  predicate ApproveInv(w: World, a: Actor)
    requires IsApprove(a)
  {
    match a
    case ApproveBegin(id, approver) => true
    case ApproveChecked(id, approver) => id in w.db.refunds && w.db.refunds[id].requestedBy != approver
    case ApproveMarked(id, approver) => AtLeast(w, id, Requested) && w.db.refunds[id].requestedBy != approver
  }

  predicate SubmitInv(w: World, a: Actor)
    requires IsSubmit(a)
  {
    match a
    case SubmitBegin(id) => true
    case SubmitRead(id, row) =>
      IsStuck(row.status) && AtLeast(w, id, row.status) && SameMoney(w, id, row.amountCents, row.currency)
    case SubmitMarked(id, row) => AtLeast(w, id, Submitted) && SameMoney(w, id, row.amountCents, row.currency)
    case SubmitLogged(id, row) => AtLeast(w, id, Submitted) && SameMoney(w, id, row.amountCents, row.currency)
    case SubmitAccepted(id, ref) => StoredRef(w, id, ref)
  }

  /** The stale stuck list: its rows only ever moved on since. */
  predicate TodoOk(w: World, todo: seq<Stuck>) {
    forall k :: k in todo ==> IsStuck(k.status) && AtLeast(w, k.id, k.status)
  }

  /** Every row walked so far was counted in exactly one class. `open` is 1 while a row is in hand. */
  predicate Accounted(todo: seq<Stuck>, report: RecoveryReport, total: nat, open: nat) {
    && report.walked == report.alreadyAtGateway + report.resubmitted + open
    && report.walked - open + |todo| == total
  }

  predicate RecoverInv(w: World, a: Actor)
    requires IsRecover(a)
  {
    match a
    case RecoverBegin => true
    case RecoverNext(todo, report, total) => TodoOk(w, todo) && Accounted(todo, report, total, 0)
    case RecoverFound(todo, report, total, ref) =>
      todo != [] && TodoOk(w, todo) && Accounted(todo, report, total, 1) && StoredRef(w, todo[0].id, ref)
    case RecoverRecorded(todo, report, total) =>
      todo != [] && TodoOk(w, todo) && Accounted(todo, report, total, 1) && AtLeast(w, todo[0].id, Submitted)
    case RecoverMissing(todo, report, total) =>
      todo != [] && TodoOk(w, todo) && Accounted(todo, report, total, 1)
    case RecoverRead(todo, report, total, amount, currency) =>
      && todo != [] && TodoOk(w, todo) && Accounted(todo, report, total, 1)
      && SameMoney(w, todo[0].id, amount, currency)
    case RecoverMarked(todo, report, total, amount, currency) =>
      && todo != [] && TodoOk(w, todo) && Accounted(todo, report, total, 1)
      && AtLeast(w, todo[0].id, Submitted) && SameMoney(w, todo[0].id, amount, currency)
    case RecoverAccepted(todo, report, total, ref) =>
      && todo != [] && TodoOk(w, todo) && Accounted(todo, report, total, 1)
      && AtLeast(w, todo[0].id, Submitted) && StoredRef(w, todo[0].id, ref)
    case RecoverCalled(todo, report, total) =>
      todo != [] && TodoOk(w, todo) && Accounted(todo, report, total, 1) && AtLeast(w, todo[0].id, Submitted)
  }

  /** The refusals that no reachable state can produce, and what the others promise. */
  predicate ReplyOk(reply: Reply) {
    match reply
    case Rejected(DbError(fault)) => fault.CheckViolation? || fault.PrimaryKeyViolation?
    case Rejected(OverRefund(_, requested, remaining)) => 0 <= remaining < requested
    case Recovery(report) => report.walked == report.alreadyAtGateway + report.resubmitted
    case _ => true
  }

  predicate ActorInv(w: World, a: Actor) {
    if IsRequest(a) then RequestInv(w, a)
    else if IsApprove(a) then ApproveInv(w, a)
    else if IsSubmit(a) then SubmitInv(w, a)
    else if IsRecover(a) then RecoverInv(w, a)
    else if a.Done? then ReplyOk(a.reply)
    else true
  }

  // ---- stability: no one else's step can falsify what an actor believes ----

  lemma RowKept(w: World, x: World, id: Uuid)
    requires RowsMove(w.db, x.db) && id in w.db.refunds
    ensures id in x.db.refunds && RowMove(w.db.refunds[id], x.db.refunds[id])
    ensures Rank(w.db.refunds[id].status) <= Rank(x.db.refunds[id].status)
  {
  }

  lemma RequestStable(w: World, x: World, a: Actor, inserting: Option<Uuid>)
    requires IsRequest(a) && RequestInv(w, a) && Evolves(w, x, inserting)
    requires inserting.Some? ==> Holds(a) != inserting
    ensures RequestInv(x, a)
  {
    assert SumAllowed(w.db, x.db, inserting, a.q.chargeId);
  }

  lemma SubmitStable(w: World, x: World, a: Actor, inserting: Option<Uuid>)
    requires IsSubmit(a) && SubmitInv(w, a) && Evolves(w, x, inserting)
    ensures SubmitInv(x, a)
  {
    if !a.SubmitBegin? && a.id in w.db.refunds {
      RowKept(w, x, a.id);
    }
  }

  lemma ApproveStable(w: World, x: World, a: Actor, inserting: Option<Uuid>)
    requires IsApprove(a) && ApproveInv(w, a) && Evolves(w, x, inserting)
    ensures ApproveInv(x, a)
  {
    if !a.ApproveBegin? {
      RowKept(w, x, a.id);
    }
  }

  lemma TodoStable(w: World, x: World, todo: seq<Stuck>)
    requires TodoOk(w, todo) && RowsMove(w.db, x.db)
    ensures TodoOk(x, todo)
  {
    forall k | k in todo
      ensures AtLeast(x, k.id, k.status)
    {
      RowKept(w, x, k.id);
    }
  }

  lemma RecoverStable(w: World, x: World, a: Actor, inserting: Option<Uuid>)
    requires IsRecover(a) && RecoverInv(w, a) && Evolves(w, x, inserting)
    ensures RecoverInv(x, a)
  {
    if !a.RecoverBegin? {
      TodoStable(w, x, a.todo);
      if a.todo != [] {
        assert a.todo[0] in a.todo;
        RowKept(w, x, a.todo[0].id);
      }
    }
  }

  lemma ActorStable(w: World, x: World, a: Actor, inserting: Option<Uuid>)
    requires ActorInv(w, a) && Evolves(w, x, inserting)
    requires inserting.Some? ==> Holds(a) != inserting
    ensures ActorInv(x, a)
  {
    if IsRequest(a) {
      RequestStable(w, x, a, inserting);
    } else if IsApprove(a) {
      ApproveStable(w, x, a, inserting);
    } else if IsSubmit(a) {
      SubmitStable(w, x, a, inserting);
    } else if IsRecover(a) {
      RecoverStable(w, x, a, inserting);
    }
  }

  // ---- an actor's own steps ----

  /** The step keeps the ledger, evolves it lawfully and leaves the actor's next beliefs true. */
  ghost predicate StepOk(w: World, x: World, next: Actor, inserting: Option<Uuid>) {
    LedgerInv(x) && Evolves(w, x, inserting) && ActorInv(x, next)
  }

  lemma Wrap64Exact(x: int)
    requires FitsI64(x)
    ensures Wrap64(x) == x
  {
  }

  /** Up to its commit a request changes nothing but its own beliefs. */
  lemma RequestLooks(w: World, a: Actor, position: nat)
    requires IsRequest(a) && !a.RequestAudited? && ChargeOk(w.db, a.q.chargeId) && RequestInv(w, a)
    ensures var (x, next) := ActRequest(w, a, position);
      x == w && if IsRequest(next) then RequestInv(w, next) else next.Done? && ReplyOk(next.reply)
  {
    if a.RequestSummed? {
      Wrap64Exact(a.captured - a.refundedSoFar);
    }
  }

  lemma RequestStep(w: World, a: Actor, position: nat, x: World, next: Actor)
    requires IsRequest(a) && LedgerInv(w) && RequestInv(w, a)
    requires ActRequest(w, a, position) == (x, next)
    ensures StepOk(w, x, next, if a.RequestAudited? then Some(a.q.chargeId) else None)
  {
    if a.RequestAudited? {
      RequestCommits(w, a, position, x, next);
    } else {
      assert ChargeOk(w.db, a.q.chargeId);
      RequestLooks(w, a, position);
      EvolvesRefl(w);
    }
  }

  lemma RequestCommits(w: World, a: Actor, position: nat, x: World, next: Actor)
    requires a.RequestAudited? && LedgerInv(w) && RequestInv(w, a)
    requires ActRequest(w, a, position) == (x, next)
    ensures StepOk(w, x, next, Some(a.q.chargeId))
  {
    if a.q.refundId in w.db.refunds {
      EvolvesRefl(w);
    } else {
      var place := if position <= |w.db.created| then position else |w.db.created|;
      InsertKeepsInv(w, a.q.refundId, a.row, a.entry, place);
      InsertEvolves(w, a.q.refundId, a.row, a.entry, place);
    }
  }

  lemma ApproveMarks(w: World, id: Uuid, approver: string)
    requires LedgerInv(w) && ApproveInv(w, ApproveChecked(id, approver))
    ensures StepOk(w, Approved(w, id, approver), ApproveMarked(id, approver), None)
  {
    ApproveKeepsInv(w, id, approver);
    ApproveEvolves(w, id, approver);
  }

  lemma ApproveLogs(w: World, id: Uuid, approver: string)
    requires LedgerInv(w) && ApproveInv(w, ApproveMarked(id, approver))
    ensures StepOk(w, w.(db := AppendLog(w.db, ApprovalEntry(id, approver))), Done(Approval), None)
  {
    LogEntry(w, ApprovalEntry(id, approver));
  }

  lemma ApproveStep(w: World, a: Actor, x: World, next: Actor)
    requires IsApprove(a) && LedgerInv(w) && ApproveInv(w, a)
    requires ActApprove(w, a) == (x, next)
    ensures StepOk(w, x, next, None)
  {
    if a.ApproveBegin? {
      EvolvesRefl(w);
      assert x == w;
    } else if a.ApproveChecked? {
      ApproveMarks(w, a.id, a.approver);
      assert x == Approved(w, a.id, a.approver);
    } else {
      ApproveLogs(w, a.id, a.approver);
      assert x == w.(db := AppendLog(w.db, ApprovalEntry(a.id, a.approver)));
    }
  }

  /** The guarded UPDATE to `submitted`, whether it matches or not. */
  lemma MarkKeeps(w: World, id: Uuid)
    requires LedgerInv(w) && AtLeast(w, id, Requested)
    ensures var x := w.(db := MarkSubmitted(w.db, id));
      LedgerInv(x) && Evolves(w, x, None) && AtLeast(x, id, Submitted)
      && x.db.refunds[id].amountCents == w.db.refunds[id].amountCents
      && x.db.refunds[id].currency == w.db.refunds[id].currency
  {
    var r := w.db.refunds[id];
    assert RowOk(w, id, r);
    if IsStuck(r.status) {
      UpdateRow(w, id, r.(status := Submitted));
    } else {
      EvolvesRefl(w);
    }
  }

  /** No other row carries a ref that the gateway stores under this row's key. */
  lemma RefNotTaken(w: World, id: Uuid, ref: string)
    requires RowsOk(w) && Consistent(w.gw) && StoredRef(w, id, ref)
    ensures !RefTaken(w.db, id, ref)
  {
    forall other | other in w.db.refunds && other != id
      ensures w.db.refunds[other].gatewayRef != Some(ref)
    {
      assert RowOk(w, other, w.db.refunds[other]);
    }
  }

  /** The table with the ref recorded, when the index allows it. */
  function RefRecorded(db: Db, id: Uuid, ref: string): Db
    requires id in db.refunds
  {
    if db.refunds[id].gatewayRef.None? then db.(refunds := db.refunds[id := db.refunds[id].(gatewayRef := Some(ref))])
    else db
  }

  lemma RecordSucceeds(w: World, id: Uuid, ref: string)
    requires RowsOk(w) && Consistent(w.gw) && StoredRef(w, id, ref) && id in w.db.refunds
    ensures RecordRef(w.db, id, ref) == Some(RefRecorded(w.db, id, ref))
  {
    RefNotTaken(w, id, ref);
  }

  /** Recording the gateway's own ref never violates the unique index, and keeps everything. */
  lemma RecordKeeps(w: World, id: Uuid, ref: string)
    requires LedgerInv(w) && StoredRef(w, id, ref)
    ensures RecordRef(w.db, id, ref).Some?
    ensures var x := w.(db := RecordRef(w.db, id, ref).value);
      LedgerInv(x) && Evolves(w, x, None)
  {
    assert RowOk(w, id, w.db.refunds[id]);
    RefNotTaken(w, id, ref);
    if LacksRef(w.db, id) {
      UpdateRow(w, id, w.db.refunds[id].(gatewayRef := Some(ref)));
    } else {
      EvolvesRefl(w);
    }
  }

  /** Recovery's unguarded status write is harmless: a row without a ref whose key the gateway
      knows is `submitted` already, so the statement changes the ref and nothing else. */
  lemma RecoverRefIsRecordRef(w: World, id: Uuid, ref: string)
    requires RowsOk(w) && id in w.db.refunds && id in w.gw.store
    ensures RecoverRef(w.db, id, ref) == RecordRef(w.db, id, ref)
  {
    assert RowOk(w, id, w.db.refunds[id]);
    var r := w.db.refunds[id];
    if LacksRef(w.db, id) {
      assert r.status == Submitted;
      assert r.(gatewayRef := Some(ref), status := Submitted) == r.(gatewayRef := Some(ref));
    }
  }

  lemma SubmitMarks(w: World, id: Uuid, row: Refund)
    requires LedgerInv(w) && SubmitInv(w, SubmitRead(id, row))
    ensures StepOk(w, w.(db := MarkSubmitted(w.db, id)), SubmitMarked(id, row), None)
  {
    MarkKeeps(w, id);
  }

  lemma SubmitLogs(w: World, id: Uuid, row: Refund)
    requires LedgerInv(w) && SubmitInv(w, SubmitMarked(id, row))
    ensures StepOk(w, w.(db := AppendLog(w.db, SubmitEntry(id, row.status))), SubmitLogged(id, row), None)
  {
    LogEntry(w, SubmitEntry(id, row.status));
  }

  lemma SubmitCalls(w: World, id: Uuid, row: Refund, config: MockConfig, x: World, next: Actor)
    requires LedgerInv(w) && SubmitInv(w, SubmitLogged(id, row))
    requires ActSubmit(w, SubmitLogged(id, row), config) == (x, next)
    ensures StepOk(w, x, next, None)
  {
    CreateKeeps(w, id, row.amountCents, row.currency, config);
    CreateIsConsistent(w.gw, row.amountCents, row.currency, id, config);
    assert x == CallGateway(w, row.amountCents, row.currency, id, config);
  }

  lemma SubmitLogsOrNot(w: World, id: Uuid, row: Refund, config: MockConfig, x: World, next: Actor)
    requires LedgerInv(w) && SubmitInv(w, SubmitMarked(id, row))
    requires ActSubmit(w, SubmitMarked(id, row), config) == (x, next)
    ensures StepOk(w, x, next, None)
  {
    if row.status.Submitted? {
      EvolvesRefl(w);
    } else {
      SubmitLogs(w, id, row);
    }
  }

  lemma SubmitRecords(w: World, id: Uuid, ref: string, config: MockConfig, x: World, next: Actor)
    requires LedgerInv(w) && SubmitInv(w, SubmitAccepted(id, ref))
    requires ActSubmit(w, SubmitAccepted(id, ref), config) == (x, next)
    ensures StepOk(w, x, next, None)
  {
    RecordKeeps(w, id, ref);
  }

  lemma SubmitStep(w: World, a: Actor, config: MockConfig, x: World, next: Actor)
    requires IsSubmit(a) && LedgerInv(w) && SubmitInv(w, a)
    requires ActSubmit(w, a, config) == (x, next)
    ensures StepOk(w, x, next, None)
  {
    if a.SubmitBegin? {
      EvolvesRefl(w);
      assert x == w;
    } else if a.SubmitRead? {
      SubmitMarks(w, a.id, a.row);
      assert x == w.(db := MarkSubmitted(w.db, a.id));
    } else if a.SubmitMarked? {
      SubmitLogsOrNot(w, a.id, a.row, config, x, next);
    } else if a.SubmitLogged? {
      SubmitCalls(w, a.id, a.row, config, x, next);
    } else {
      SubmitRecords(w, a.id, a.ref, config, x, next);
    }
  }

  lemma HookStep(w: World, a: Actor, x: World, next: Actor)
    requires IsHook(a) && LedgerInv(w)
    requires ActHook(w, a) == (x, next)
    ensures StepOk(w, x, next, None)
  {
    if a.HookBegin? {
      EvolvesRefl(w);
      InsertEventKeeps(w, a.event.id);
    } else {
      ApplyKeeps(w, a.event);
    }
  }

  /** A row found by its ref is one the gateway knows, hence submitted or terminal. */
  lemma FoundRow(w: World, ref: string)
    requires RowsOk(w) && FindRef(w.db, ref).Some?
    ensures var id := FindRef(w.db, ref).value;
      && id in w.db.refunds && id in w.gw.store
      && w.gw.store[id].id == ref && w.db.refunds[id].gatewayRef == Some(ref)
      && Rank(w.db.refunds[id].status) >= Rank(Submitted)
  {
    var id := FindRef(w.db, ref).value;
    assert RowOk(w, id, w.db.refunds[id]);
  }

  lemma ApplySettledKeeps(w: World, ref: string)
    requires LedgerInv(w)
    ensures var x := w.(db := ApplySettled(w.db, ref));
      LedgerInv(x) && Evolves(w, x, None)
  {
    EvolvesRefl(w);
    if FindRef(w.db, ref).Some? {
      FoundRow(w, ref);
      var id := FindRef(w.db, ref).value;
      if SettledApplies(w.db.refunds[id].status) {
        VerdictKeeps(w, id, Settled, w.db.refunds[id].failureReason, None);
      }
    }
  }

  lemma ApplyFailedKeeps(w: World, ref: string, reason: Option<string>)
    requires LedgerInv(w)
    ensures var x := w.(db := ApplyFailed(w.db, ref, reason));
      LedgerInv(x) && Evolves(w, x, None)
  {
    EvolvesRefl(w);
    if FindRef(w.db, ref).Some? {
      FoundRow(w, ref);
      var id := FindRef(w.db, ref).value;
      if FailedApplies(w.db.refunds[id].status) {
        VerdictKeeps(w, id, Failed, reason, reason);
      }
    }
  }

  /** A verdict on a row the gateway knows, written together with its audit row. */
  lemma VerdictKeeps(w: World, id: Uuid, verdict: Status, failureReason: Option<string>, reason: Option<string>)
    requires LedgerInv(w) && id in w.db.refunds && w.db.refunds[id].gatewayRef.Some?
    requires StatusMove(w.db.refunds[id].status, verdict) && (verdict.Settled? || verdict.Failed?)
    ensures var row := w.db.refunds[id].(status := verdict, failureReason := failureReason);
      var entry := Transition(id, LastLogged(w.db.log, id), verdict, "webhook", reason);
      var x := w.(db := AppendLog(w.db.(refunds := w.db.refunds[id := row]), entry));
      LedgerInv(x) && Evolves(w, x, None)
  {
    var row := w.db.refunds[id].(status := verdict, failureReason := failureReason);
    assert RowOk(w, id, w.db.refunds[id]);
    assert RowOk(w, id, row);
    UpdateAndLog(w, id, row, Transition(id, LastLogged(w.db.log, id), verdict, "webhook", reason));
  }

  lemma ApplyKeeps(w: World, e: WebhookEvent)
    requires LedgerInv(w)
    ensures var x := w.(db := ApplyEvent(w.db, e));
      LedgerInv(x) && Evolves(w, x, None)
  {
    if IsSettledEvent(e) {
      ApplySettledKeeps(w, e.gatewayRef);
      assert ApplyEvent(w.db, e) == ApplySettled(w.db, e.gatewayRef);
    } else if IsFailedEvent(e) {
      ApplyFailedKeeps(w, e.gatewayRef, e.reason);
      assert ApplyEvent(w.db, e) == ApplyFailed(w.db, e.gatewayRef, e.reason);
    } else {
      EvolvesRefl(w);
      assert w.(db := w.db) == w;
    }
  }

  lemma SelectedTodo(w: World)
    ensures TodoOk(w, SelectStuck(w.db))
  {
  }

  lemma TodoTail(w: World, todo: seq<Stuck>)
    requires todo != [] && TodoOk(w, todo)
    ensures TodoOk(w, todo[1..])
    ensures todo[0] in todo && AtLeast(w, todo[0].id, todo[0].status) && AtLeast(w, todo[0].id, Requested)
  {
  }

  lemma RecoverRecords(w: World, todo: seq<Stuck>, report: RecoveryReport, total: nat, ref: string)
    requires LedgerInv(w) && RecoverInv(w, RecoverFound(todo, report, total, ref))
    ensures RecoverRef(w.db, todo[0].id, ref).Some?
    ensures StepOk(w, w.(db := RecoverRef(w.db, todo[0].id, ref).value), RecoverRecorded(todo, report, total), None)
  {
    TodoTail(w, todo);
    var id := todo[0].id;
    assert RowOk(w, id, w.db.refunds[id]);
    RecoverRefIsRecordRef(w, id, ref);
    RecordKeeps(w, id, ref);
    TodoStable(w, w.(db := RecordRef(w.db, id, ref).value), todo);
  }

  lemma RecoverLogs(
    w: World, todo: seq<Stuck>, report: RecoveryReport, after: RecoveryReport, total: nat, actor: string)
    requires LedgerInv(w) && todo != [] && TodoOk(w, todo) && AtLeast(w, todo[0].id, Submitted)
    requires Accounted(todo, report, total, 1) && Accounted(todo[1..], after, total, 0)
    ensures StepOk(
      w, w.(db := AppendLog(w.db, RecoverEntry(todo[0], actor))), RecoverNext(todo[1..], after, total), None)
  {
    LogEntry(w, RecoverEntry(todo[0], actor));
    TodoTail(w, todo);
    TodoStable(w, w.(db := AppendLog(w.db, RecoverEntry(todo[0], actor))), todo[1..]);
  }

  lemma RecoverMarks(w: World, todo: seq<Stuck>, report: RecoveryReport, total: nat, amount: int, currency: string)
    requires LedgerInv(w) && RecoverInv(w, RecoverRead(todo, report, total, amount, currency))
    ensures StepOk(
      w, w.(db := MarkSubmitted(w.db, todo[0].id)), RecoverMarked(todo, report, total, amount, currency), None)
  {
    TodoTail(w, todo);
    MarkKeeps(w, todo[0].id);
    TodoStable(w, w.(db := MarkSubmitted(w.db, todo[0].id)), todo);
  }

  lemma RecoverCalls(
    w: World, todo: seq<Stuck>, report: RecoveryReport, total: nat, amount: int, currency: string, config: MockConfig)
    requires LedgerInv(w) && RecoverInv(w, RecoverMarked(todo, report, total, amount, currency))
    ensures var (x, next) := ActRecover(w, RecoverMarked(todo, report, total, amount, currency), config);
      StepOk(w, x, next, None)
  {
    CreateKeeps(w, todo[0].id, amount, currency, config);
    CreateIsConsistent(w.gw, amount, currency, todo[0].id, config);
    TodoStable(w, CallGateway(w, amount, currency, todo[0].id, config), todo);
  }

  lemma RecoverRecordsNew(w: World, todo: seq<Stuck>, report: RecoveryReport, total: nat, ref: string)
    requires LedgerInv(w) && RecoverInv(w, RecoverAccepted(todo, report, total, ref))
    ensures RecordRef(w.db, todo[0].id, ref).Some?
    ensures StepOk(w, w.(db := RecordRef(w.db, todo[0].id, ref).value), RecoverCalled(todo, report, total), None)
  {
    RecordKeeps(w, todo[0].id, ref);
    var x := w.(db := RecordRef(w.db, todo[0].id, ref).value);
    TodoStable(w, x, todo);
    RowKept(w, x, todo[0].id);
  }

  lemma RecoverLooks(w: World, a: Actor, config: MockConfig)
    requires a.RecoverBegin? || a.RecoverNext? || a.RecoverMissing?
    requires LedgerInv(w) && RecoverInv(w, a)
    ensures var (x, next) := ActRecover(w, a, config);
      x == w && RecoverReady(w, next)
  {
    SelectedTodo(w);
    if !a.RecoverBegin? && a.todo != [] {
      TodoTail(w, a.todo);
    }
  }

  predicate RecoverReady(w: World, next: Actor) {
    if IsRecover(next) then RecoverInv(w, next) else next.Done? && ReplyOk(next.reply)
  }

  lemma RecoverStepFound(w: World, a: Actor, config: MockConfig, x: World, next: Actor)
    requires (a.RecoverFound? || a.RecoverRecorded?) && LedgerInv(w) && RecoverInv(w, a)
    requires ActRecover(w, a, config) == (x, next)
    ensures StepOk(w, x, next, None)
  {
    if a.RecoverFound? {
      RecoverRecords(w, a.todo, a.report, a.total, a.ref);
    } else {
      var after := a.report.(alreadyAtGateway := a.report.alreadyAtGateway + 1);
      RecoverLogs(w, a.todo, a.report, after, a.total, "job:recover");
    }
  }

  lemma RecoverStepMissing(w: World, a: Actor, config: MockConfig, x: World, next: Actor)
    requires (a.RecoverRead? || a.RecoverMarked?) && LedgerInv(w) && RecoverInv(w, a)
    requires ActRecover(w, a, config) == (x, next)
    ensures StepOk(w, x, next, None)
  {
    if a.RecoverRead? {
      RecoverMarks(w, a.todo, a.report, a.total, a.amount, a.currency);
    } else {
      RecoverCalls(w, a.todo, a.report, a.total, a.amount, a.currency, config);
    }
  }

  lemma RecoverLogsNew(w: World, a: Actor, config: MockConfig, x: World, next: Actor)
    requires a.RecoverCalled? && LedgerInv(w) && RecoverInv(w, a)
    requires ActRecover(w, a, config) == (x, next)
    ensures StepOk(w, x, next, None)
  {
    var after := a.report.(resubmitted := a.report.resubmitted + 1);
    RecoverLogs(w, a.todo, a.report, after, a.total, "job:recover-resubmit");
  }

  lemma RecoverStepCalled(w: World, a: Actor, config: MockConfig, x: World, next: Actor)
    requires (a.RecoverAccepted? || a.RecoverCalled?) && LedgerInv(w) && RecoverInv(w, a)
    requires ActRecover(w, a, config) == (x, next)
    ensures StepOk(w, x, next, None)
  {
    if a.RecoverAccepted? {
      RecoverRecordsNew(w, a.todo, a.report, a.total, a.ref);
    } else {
      RecoverLogsNew(w, a, config, x, next);
    }
  }

  lemma RecoverStep(w: World, a: Actor, config: MockConfig, x: World, next: Actor)
    requires IsRecover(a) && LedgerInv(w) && RecoverInv(w, a)
    requires ActRecover(w, a, config) == (x, next)
    ensures StepOk(w, x, next, None)
  {
    if a.RecoverFound? || a.RecoverRecorded? {
      RecoverStepFound(w, a, config, x, next);
    } else if a.RecoverRead? || a.RecoverMarked? {
      RecoverStepMissing(w, a, config, x, next);
    } else if a.RecoverAccepted? || a.RecoverCalled? {
      RecoverStepCalled(w, a, config, x, next);
    } else {
      RecoverLooks(w, a, config);
      EvolvesRefl(w);
    }
  }

  /** The charge whose live sum this actor's next step may raise. */
  function Inserting(a: Actor): Option<Uuid> {
    if a.RequestAudited? then Some(a.q.chargeId) else None
  }

  lemma ActStep(w: World, a: Actor, choice: Choice, x: World, next: Actor)
    requires LedgerInv(w) && ActorInv(w, a)
    requires Act(w, a, choice) == (x, next)
    ensures StepOk(w, x, next, Inserting(a))
  {
    if IsRequest(a) {
      RequestStep(w, a, choice.position, x, next);
    } else if IsApprove(a) {
      ApproveStep(w, a, x, next);
    } else if IsSubmit(a) {
      SubmitStep(w, a, choice.config, x, next);
    } else if IsRecover(a) {
      RecoverStep(w, a, choice.config, x, next);
    } else if IsHook(a) {
      HookStep(w, a, x, next);
    } else {
      EvolvesRefl(w);
    }
  }

  // ---- the whole system ----

  predicate ActorsOk(s: State) {
    forall who :: who in s.actors ==> ActorInv(s.w, s.actors[who])
  }

  /** At most one transaction holds the row lock of a charge. */
  predicate LocksExclusive(s: State) {
    forall a, b :: a in s.actors && b in s.actors && a != b && Holds(s.actors[a]).Some? ==>
      Holds(s.actors[a]) != Holds(s.actors[b])
  }

  ghost predicate Inv(s: State) {
    LedgerInv(s.w) && ActorsOk(s) && LocksExclusive(s)
  }

  lemma StartInv()
    ensures Inv(START)
  {
  }

  /** A step keeps or drops the actor's lock, or takes one that was free. */
  lemma LocksKept(s: State, m: Move)
    requires Enabled(s, m) && LocksExclusive(s)
    ensures LocksExclusive(Next(s, m))
  {
    if m.Step? {
      ActKeepsLock(s.w, s.actors[m.who], m.choice);
    }
  }

  lemma ActKeepsLock(w: World, a: Actor, choice: Choice)
    ensures var next := Act(w, a, choice).1;
      Holds(next).Some? ==> IsRequest(a) && Holds(next) == Some(a.q.chargeId)
  {
  }

  lemma StepKeepsActors(s: State, m: Move)
    requires Inv(s) && Enabled(s, m) && m.Step?
    ensures LedgerInv(Next(s, m).w) && ActorsOk(Next(s, m))
    ensures Evolves(s.w, Next(s, m).w, Inserting(s.actors[m.who]))
  {
    var a := s.actors[m.who];
    ActStep(s.w, a, m.choice, Act(s.w, a, m.choice).0, Act(s.w, a, m.choice).1);
    var t := Next(s, m);
    forall who | who in t.actors
      ensures ActorInv(t.w, t.actors[who])
    {
      if who != m.who {
        assert ActorInv(s.w, s.actors[who]);
        ActorStable(s.w, t.w, s.actors[who], Inserting(a));
      }
    }
  }

  lemma NewChargeKeepsActors(s: State, m: Move)
    requires Inv(s) && Enabled(s, m) && m.NewCharge?
    ensures LedgerInv(Next(s, m).w) && ActorsOk(Next(s, m))
    ensures Evolves(s.w, Next(s, m).w, None)
  {
    NewChargeKeeps(s.w, m.chargeId, m.charge);
    var t := Next(s, m);
    forall who | who in t.actors
      ensures ActorInv(t.w, t.actors[who])
    {
      assert ActorInv(s.w, s.actors[who]);
      ActorStable(s.w, t.w, s.actors[who], None);
    }
  }

  function InsertingBy(s: State, m: Move): Option<Uuid> {
    if m.Step? && m.who in s.actors then Inserting(s.actors[m.who]) else None
  }

  /** The invariant is inductive, and every move of every run evolves the world lawfully. */
  lemma NextKeepsInv(s: State, m: Move)
    requires Inv(s) && Enabled(s, m)
    ensures Inv(Next(s, m))
    ensures Evolves(s.w, Next(s, m).w, InsertingBy(s, m))
  {
    LocksKept(s, m);
    match m {
      case NewCharge(_, _) => NewChargeKeepsActors(s, m);
      case Spawn(_, _) => EvolvesRefl(s.w);
      case Crash(_) => EvolvesRefl(s.w);
      case Step(_, _) => StepKeepsActors(s, m);
    }
  }

  lemma {:induction false} RunInv(states: seq<State>, moves: seq<Move>, i: nat)
    requires IsRun(states, moves) && Inv(states[0]) && i <= |moves|
    ensures Inv(states[i])
  {
    if i > 0 {
      RunInv(states, moves, i - 1);
      RunInvStep(states, moves, i - 1);
    }
  }

  lemma RunInvStep(states: seq<State>, moves: seq<Move>, i: nat)
    requires IsRun(states, moves) && i < |moves| && Inv(states[i])
    ensures Inv(states[i + 1])
  {
    assert IsStepAt(states, moves, i);
    NextKeepsInv(states[i], moves[i]);
  }

  /** In every reachable state the invariant holds. */
  lemma ReachableInv(states: seq<State>, moves: seq<Move>, i: nat)
    requires IsRunFromStart(states, moves) && i <= |moves|
    ensures Inv(states[i])
  {
    StartInv();
    RunInv(states, moves, i);
  }
}
