/** The audit log of whole operations: replaying a refund's entries reconstructs its history, link by
    link, and ends at the row; every approval is on record under its approver's name. */
module Audit {
  import opened Outcomes
  import opened Errors
  import opened Ledger
  import opened Gateway
  import opened Statements
  import opened Invariant
  import opened Protocol
  import opened ProtocolInvariant
  import opened Operations
  import opened Refinement
  import opened Recovery

  /** One refund's transitions, in the order they were written. */
  function Entries(log: seq<Transition>, id: Uuid): seq<Transition> {
    if log == [] then []
    else
      var last := log[|log| - 1];
      Entries(log[..|log| - 1], id) + if last.refundId == id then [last] else []
  }

  /** A connected history: it starts from nothing at an initial status, each entry starts where the
      previous one ended and makes a lawful step or stutter, and the last one is where the row is. */
  predicate Chain(es: seq<Transition>, status: Status) {
    && |es| > 0
    && es[0].from.None? && (es[0].to.PendingReview? || es[0].to.Requested?)
    && (forall i :: 0 < i < |es| ==> es[i].from == Some(es[i - 1].to) && StatusMove(es[i - 1].to, es[i].to))
    && es[|es| - 1].to == status
  }

  predicate Chained(db: Db) {
    forall id :: id in db.refunds ==> Chain(Entries(db.log, id), db.refunds[id].status)
  }

  lemma EntriesAppend(log: seq<Transition>, e: Transition, id: Uuid)
    ensures Entries(log + [e], id) == Entries(log, id) + if e.refundId == id then [e] else []
  {
    assert (log + [e])[..|log|] == log;
  }

  lemma {:induction false} LastLoggedIsLast(log: seq<Transition>, id: Uuid)
    ensures var es := Entries(log, id);
      LastLogged(log, id) == if es == [] then None else Some(es[|es| - 1].to)
  {
    if log != [] {
      LastLoggedIsLast(log[..|log| - 1], id);
    }
  }

  /** The `from_status` a webhook reads back from the log is the row's true status. */
  lemma WebhookFromStatusIsTrue(db: Db, id: Uuid)
    requires Chained(db) && id in db.refunds
    ensures LastLogged(db.log, id) == Some(db.refunds[id].status)
  {
    LastLoggedIsLast(db.log, id);
    assert Chain(Entries(db.log, id), db.refunds[id].status);
  }

  lemma {:induction false} NoEntries(log: seq<Transition>, id: Uuid)
    requires forall e :: e in log ==> e.refundId != id
    ensures Entries(log, id) == []
  {
    if log != [] {
      assert log[|log| - 1] in log;
      forall e | e in log[..|log| - 1]
        ensures e.refundId != id
      {
        assert e in log;
      }
      NoEntries(log[..|log| - 1], id);
    }
  }

  // ---- what keeps the chains connected ----

  /** One more link, from where the chain ends. */
  lemma ChainGrows(es: seq<Transition>, status: Status, e: Transition)
    requires Chain(es, status) && e.from == Some(status) && StatusMove(status, e.to)
    ensures Chain(es + [e], e.to)
  {
  }

  lemma HopAt(db: Db, id: Uuid, r: Refund, e: Transition, other: Uuid)
    requires other in db.refunds && Chain(Entries(db.log, other), db.refunds[other].status)
    requires other == id ==> StatusMove(db.refunds[id].status, r.status) && e.from == Some(db.refunds[id].status)
    requires e.refundId == id && e.to == r.status
    ensures Chain(Entries(db.log + [e], other), (if other == id then r else db.refunds[other]).status)
  {
    EntriesAppend(db.log, e, other);
    if other == id {
      ChainGrows(Entries(db.log, id), db.refunds[id].status, e);
    } else {
      assert Entries(db.log, other) + [] == Entries(db.log, other);
    }
  }

  /** A status move together with its own entry. */
  lemma Hop(db: Db, id: Uuid, r: Refund, e: Transition)
    requires Chained(db) && id in db.refunds && StatusMove(db.refunds[id].status, r.status)
    requires e.refundId == id && e.from == Some(db.refunds[id].status) && e.to == r.status
    ensures Chained(AppendLog(WithRow(db, id, r), e))
  {
    var after := AppendLog(WithRow(db, id, r), e);
    forall other | other in after.refunds
      ensures Chain(Entries(after.log, other), after.refunds[other].status)
    {
      HopAt(db, id, r, e, other);
    }
  }

  lemma KeepStatus(db: Db, id: Uuid, r: Refund)
    requires Chained(db) && id in db.refunds && r.status == db.refunds[id].status
    ensures Chained(WithRow(db, id, r))
  {
    var after := WithRow(db, id, r);
    forall other | other in after.refunds
      ensures Chain(Entries(after.log, other), after.refunds[other].status)
    {
      assert Chain(Entries(db.log, other), db.refunds[other].status);
    }
  }

  /** Only the rows and the log matter. */
  lemma SameRowsAndLog(before: Db, after: Db)
    requires Chained(before) && after.refunds == before.refunds && after.log == before.log
    ensures Chained(after)
  {
    assert forall id :: id in before.refunds ==> Chain(Entries(before.log, id), before.refunds[id].status);
  }

  lemma Birth(db: Db, id: Uuid, row: Refund, e: Transition, position: nat)
    requires Chained(db) && LogOk(db) && id !in db.refunds && position <= |db.created|
    requires e.refundId == id && e.from.None? && e.to == row.status
    requires row.status.PendingReview? || row.status.Requested?
    ensures Chained(InsertRefund(db, id, row, e, position))
  {
    var after := InsertRefund(db, id, row, e, position);
    forall other | other in after.refunds
      ensures Chain(Entries(after.log, other), after.refunds[other].status)
    {
      EntriesAppend(db.log, e, other);
      if other == id {
        forall f | f in db.log
          ensures f.refundId != id
        {
          assert EntryOk(db, f);
        }
        NoEntries(db.log, id);
      } else {
        assert Chain(Entries(db.log, other), db.refunds[other].status);
      }
    }
  }

  // ---- operation by operation ----

  lemma RequestChained(db: Db, q: Request)
    requires Chained(db) && LogOk(db)
    ensures Chained(RequestRefund(db, q).0)
  {
    if RequestRefund(db, q).1.Refunded? {
      var initial := InitialStatus(q.amountCents);
      Birth(db, q.refundId, NewRow(q, initial), FirstEntry(q, initial), |db.created|);
    }
  }

  lemma ApproveChained(db: Db, id: Uuid, approver: string)
    requires Chained(db)
    ensures Chained(Approve(db, id, approver).0)
  {
    if Approve(db, id, approver).1.Approval? {
      Hop(db, id, db.refunds[id].(status := Requested), ApprovalEntry(id, approver));
    }
  }

  lemma RecordChained(db: Db, id: Uuid, ref: string)
    requires Chained(db) && RecordRef(db, id, ref).Some?
    ensures Chained(RecordRef(db, id, ref).value)
  {
    if LacksRef(db, id) {
      KeepStatus(db, id, db.refunds[id].(gatewayRef := Some(ref)));
    }
  }

  lemma SubmitLoggedChained(db: Db, id: Uuid)
    requires Chained(db) && id in db.refunds && IsStuck(db.refunds[id].status)
    ensures var r := db.refunds[id]; var marked := MarkSubmitted(db, id);
      Chained(if r.status.Submitted? then marked else AppendLog(marked, SubmitEntry(id, r.status)))
  {
    var r := db.refunds[id];
    if r.status.Submitted? {
      KeepStatus(db, id, r.(status := Submitted));
    } else {
      Hop(db, id, r.(status := Submitted), SubmitEntry(id, r.status));
    }
  }

  lemma SubmitChained(db: Db, gw: GatewayState, id: Uuid, config: MockConfig)
    requires Chained(db)
    ensures Chained(Submit(db, gw, id, config).0)
  {
    if id in db.refunds && IsStuck(db.refunds[id].status) {
      SubmitLoggedChained(db, id);
      var r, marked := db.refunds[id], MarkSubmitted(db, id);
      var logged := if r.status.Submitted? then marked else AppendLog(marked, SubmitEntry(id, r.status));
      var outcome := Create(gw, r.amountCents, r.currency, id, config).1;
      if outcome.Accepted? && RecordRef(logged, id, outcome.refund.id).Some? {
        RecordChained(logged, id, outcome.refund.id);
      }
    }
  }

  lemma RecoveredChained(db: Db, k: Stuck, gw: GatewayState, answered: bool, found: bool)
    requires Chained(db) && k.id in db.refunds && IsStuck(k.status) && db.refunds[k.id].status == k.status
    ensures Chained(WithRecovered(db, k, gw, answered, found))
  {
    Hop(db, k.id, RecoveredRow(db.refunds[k.id], k.id, gw, answered), RecoveredEntry(k, found));
  }

  lemma RecoverOneChained(w: World, k: Stuck, config: MockConfig)
    requires LedgerInv(w) && Chained(w.db)
    requires k.id in w.db.refunds && IsStuck(k.status) && w.db.refunds[k.id].status == k.status
    ensures RecoverOne(w.db, w.gw, k, config).2.Some?
    ensures Chained(RecoverOne(w.db, w.gw, k, config).0)
  {
    var r := w.db.refunds[k.id];
    if k.id in w.gw.store {
      RecoverFoundOne(w, k, config);
      RecoveredChained(w.db, k, w.gw, true, true);
    } else {
      RecoverMissingOne(w, k, config);
      RecoveredChained(w.db, k, Create(w.gw, r.amountCents, r.currency, k.id, config).0, config == HEALTHY, false);
    }
  }

  lemma {:induction false} RecoverAllChained(
    w: World, todo: seq<Stuck>, report: RecoveryReport, configs: seq<MockConfig>)
    requires LedgerInv(w) && Chained(w.db) && Fresh(w.db, todo)
    ensures Chained(RecoverAll(w.db, w.gw, todo, report, configs).0)
    decreases |todo|
  {
    if todo != [] {
      assert todo[0] in todo;
      WalkStep(w, todo, report, configs);
      RecoverOneChained(w, todo[0], First(configs));
      var m := RecoveredOne(w, todo[0], First(configs));
      var found := RecoverOne(w.db, w.gw, todo[0], First(configs)).2.value;
      RecoverAllChained(m, todo[1..], Counted(report, found), Rest(configs));
    }
  }

  lemma ApplyChained(w: World, e: WebhookEvent)
    requires LedgerInv(w) && Chained(w.db)
    ensures Chained(ApplyEvent(w.db, e))
  {
    var found := FindRef(w.db, e.gatewayRef);
    if found.Some? {
      FoundRow(w, e.gatewayRef);
      var id, r := found.value, w.db.refunds[found.value];
      WebhookFromStatusIsTrue(w.db, id);
      if IsSettledEvent(e) && SettledApplies(r.status) {
        Hop(w.db, id, r.(status := Settled), Transition(id, Some(r.status), Settled, "webhook", None));
      }
      if IsFailedEvent(e) && FailedApplies(r.status) {
        Hop(w.db, id, r.(status := Failed, failureReason := e.reason),
            Transition(id, Some(r.status), Failed, "webhook", e.reason));
      }
    }
  }

  lemma WebhookChained(w: World, event: WebhookEvent, verified: bool)
    requires LedgerInv(w) && Chained(w.db)
    ensures Chained(HandleWebhook(w.db, event, verified).0)
  {
    if verified && event.id !in w.db.events {
      InsertEventKeeps(w, event.id);
      SameRowsAndLog(w.db, InsertEvent(w.db, event.id));
      ApplyChained(w.(db := InsertEvent(w.db, event.id)), event);
    }
  }

  // ---- runs of whole operations ----

  datatype Operation =
    | OpCharge(chargeId: Uuid, charge: Charge)
    | OpRequest(q: Request)
    | OpApprove(id: Uuid, approver: string)
    | OpSubmit(id: Uuid, config: MockConfig)
    | OpRecover(configs: seq<MockConfig>)
    | OpWebhook(event: WebhookEvent, verified: bool)

  function Perform(w: World, op: Operation): World {
    match op
    case OpCharge(c, charge) =>
      if c in w.db.charges || !(0 <= charge.amountCaptured <= I64_MAX) then w
      else w.(db := w.db.(charges := w.db.charges[c := charge]))
    case OpRequest(q) => w.(db := RequestRefund(w.db, q).0)
    case OpApprove(id, approver) =>
      var (db, reply) := Approve(w.db, id, approver);
      w.(db := db, approvals := if reply.Approval? then w.approvals[id := approver] else w.approvals)
    case OpSubmit(id, config) =>
      var (db, gw, _) := Submit(w.db, w.gw, id, config);
      w.(db := db, gw := gw)
    case OpRecover(configs) => AfterRecovery(w, configs)
    case OpWebhook(event, verified) => w.(db := HandleWebhook(w.db, event, verified).0)
  }

  function PerformAll(w: World, ops: seq<Operation>): World
    decreases |ops|
  {
    if ops == [] then w else PerformAll(Perform(w, ops[0]), ops[1..])
  }

  predicate ApprovalsLogged(w: World) {
    forall id :: id in w.approvals ==> ApprovalEntry(id, w.approvals[id]) in w.db.log
  }

  ghost predicate WholeInv(w: World) {
    LedgerInv(w) && Chained(w.db) && ApprovalsLogged(w)
  }

  lemma SubmitKeepsLedger(w: World, id: Uuid, config: MockConfig, x: World)
    requires LedgerInv(w) && x == Perform(w, OpSubmit(id, config))
    ensures LedgerInv(x)
  {
    SubmitIsRun(w, id, Choice(config, 0));
    AloneKeepsInv(w, SubmitBegin(id), Times(5, Choice(config, 0)));
  }

  lemma RecoverKeepsLedger(w: World, configs: seq<MockConfig>, x: World)
    requires LedgerInv(w) && x == Perform(w, OpRecover(configs))
    ensures LedgerInv(x)
  {
    SelectStuckFresh(w.db);
    RecoverAllEffect(w, SelectStuck(w.db), NO_REPORT, configs);
  }

  lemma PerformKeepsLedger(w: World, op: Operation, x: World)
    requires LedgerInv(w) && x == Perform(w, op)
    ensures LedgerInv(x)
  {
    var c := Choice(HEALTHY, |w.db.created|);
    match op {
      case OpCharge(id, charge) =>
        if id !in w.db.charges && 0 <= charge.amountCaptured <= I64_MAX {
          NewChargeKeeps(w, id, charge);
        }
      case OpRequest(q) =>
        RequestIsRun(w, q, c);
        AloneKeepsInv(w, RequestBegin(q), Times(6, c));
      case OpApprove(id, approver) =>
        ApproveIsRun(w, id, approver, c);
        AloneKeepsInv(w, ApproveBegin(id, approver), Times(3, c));
      case OpSubmit(id, config) =>
        SubmitKeepsLedger(w, id, config, x);
      case OpRecover(configs) =>
        RecoverKeepsLedger(w, configs, x);
      case OpWebhook(event, verified) =>
        WebhookIsRun(w, event, verified, c);
        AloneKeepsInv(w, HookBegin(event, verified), Times(2, c));
    }
  }

  lemma PerformKeepsChains(w: World, op: Operation)
    requires LedgerInv(w) && Chained(w.db)
    ensures Chained(Perform(w, op).db)
  {
    match op {
      case OpCharge(id, charge) => SameRowsAndLog(w.db, Perform(w, op).db);
      case OpRequest(q) => RequestChained(w.db, q);
      case OpApprove(id, approver) => ApproveChained(w.db, id, approver);
      case OpSubmit(id, config) => SubmitChained(w.db, w.gw, id, config);
      case OpRecover(configs) =>
        SelectStuckFresh(w.db);
        RecoverAllChained(w, SelectStuck(w.db), NO_REPORT, configs);
      case OpWebhook(event, verified) => WebhookChained(w, event, verified);
    }
  }

  lemma {:induction false} RecoverAllLogGrows(
    w: World, todo: seq<Stuck>, report: RecoveryReport, configs: seq<MockConfig>)
    requires LedgerInv(w) && Fresh(w.db, todo)
    ensures w.db.log <= RecoverAll(w.db, w.gw, todo, report, configs).0.log
    decreases |todo|
  {
    if todo != [] {
      WalkStep(w, todo, report, configs);
      var m := RecoveredOne(w, todo[0], First(configs));
      var found := RecoverOne(w.db, w.gw, todo[0], First(configs)).2.value;
      RecoverAllLogGrows(m, todo[1..], Counted(report, found), Rest(configs));
    }
  }

  lemma SubmitLogGrows(db: Db, gw: GatewayState, id: Uuid, config: MockConfig)
    ensures db.log <= Submit(db, gw, id, config).0.log
  {
  }

  lemma WebhookLogGrows(db: Db, event: WebhookEvent, verified: bool)
    ensures db.log <= HandleWebhook(db, event, verified).0.log
  {
  }

  lemma LogGrows(w: World, op: Operation)
    requires LedgerInv(w)
    ensures w.db.log <= Perform(w, op).db.log
  {
    match op {
      case OpSubmit(id, config) => SubmitLogGrows(w.db, w.gw, id, config);
      case OpRecover(configs) =>
        SelectStuckFresh(w.db);
        RecoverAllLogGrows(w, SelectStuck(w.db), NO_REPORT, configs);
      case OpWebhook(event, verified) => WebhookLogGrows(w.db, event, verified);
      case _ =>
    }
  }

  lemma StillLogged(before: seq<Transition>, after: seq<Transition>, e: Transition)
    requires before <= after && e in before
    ensures e in after
  {
    var i :| 0 <= i < |before| && before[i] == e;
    assert after[i] == e;
  }

  /** An operation records an approval only together with its entry. */
  lemma NewApprovalIsLogged(w: World, op: Operation, id: Uuid)
    requires id in Perform(w, op).approvals
    ensures var x := Perform(w, op);
      (id in w.approvals && x.approvals[id] == w.approvals[id]) || ApprovalEntry(id, x.approvals[id]) in x.db.log
  {
    if op.OpApprove? && op.id == id && Approve(w.db, id, op.approver).1.Approval? {
      var log := Perform(w, op).db.log;
      assert log[|log| - 1] == ApprovalEntry(id, op.approver);
    }
  }

  lemma PerformKeepsApprovals(w: World, op: Operation)
    requires LedgerInv(w) && ApprovalsLogged(w)
    ensures ApprovalsLogged(Perform(w, op))
  {
    LogGrows(w, op);
    var x := Perform(w, op);
    forall id | id in x.approvals
      ensures ApprovalEntry(id, x.approvals[id]) in x.db.log
    {
      NewApprovalIsLogged(w, op, id);
      if id in w.approvals && x.approvals[id] == w.approvals[id] {
        StillLogged(w.db.log, x.db.log, ApprovalEntry(id, w.approvals[id]));
      }
    }
  }

  lemma {:induction false} RunKeepsWholeInv(w: World, ops: seq<Operation>)
    requires WholeInv(w)
    ensures WholeInv(PerformAll(w, ops))
    decreases |ops|
  {
    if ops != [] {
      PerformKeepsLedger(w, ops[0], Perform(w, ops[0]));
      PerformKeepsChains(w, ops[0]);
      PerformKeepsApprovals(w, ops[0]);
      RunKeepsWholeInv(Perform(w, ops[0]), ops[1..]);
    }
  }

  /** Audit replay: after any run of whole operations under any gateway behaviour, each refund's log is a
      connected chain from nothing to the row's status, and its last link is what the webhook reads. */
  lemma AuditReplay(ops: seq<Operation>, id: Uuid)
    requires id in PerformAll(START.w, ops).db.refunds
    ensures var db := PerformAll(START.w, ops).db;
      && Chain(Entries(db.log, id), db.refunds[id].status)
      && LastLogged(db.log, id) == Some(db.refunds[id].status)
  {
    StartInv();
    RunKeepsWholeInv(START.w, ops);
    WebhookFromStatusIsTrue(PerformAll(START.w, ops).db, id);
  }

  /** Separation of duties on record: a large refund that reached the gateway has in its log the entry by
      which someone other than its requester took it out of review. */
  lemma ApproverIsOnRecord(ops: seq<Operation>, id: Uuid) returns (approver: string)
    requires id in PerformAll(START.w, ops).gw.store
    requires PerformAll(START.w, ops).gw.store[id].amount >= REVIEW_THRESHOLD_CENTS
    ensures var db := PerformAll(START.w, ops).db;
      && id in db.refunds && approver != db.refunds[id].requestedBy
      && Transition(id, Some(PendingReview), Requested, "approver:" + approver, None) in db.log
  {
    StartInv();
    RunKeepsWholeInv(START.w, ops);
    approver := ApproverLogged(PerformAll(START.w, ops), id);
  }

  lemma ApproverLogged(w: World, id: Uuid) returns (approver: string)
    requires WholeInv(w) && id in w.gw.store && w.gw.store[id].amount >= REVIEW_THRESHOLD_CENTS
    ensures id in w.db.refunds && approver != w.db.refunds[id].requestedBy
    ensures ApprovalEntry(id, approver) in w.db.log
  {
    assert RowOk(w, id, w.db.refunds[id]);
    approver := w.approvals[id];
  }
}
