/** Where rows come from: every refund row, in any run, was committed by a requester whose request it repeats
    column by column. So wherever a theorem speaks of the row's requester, that is the person who asked. */
module Provenance {
  import opened Outcomes
  import opened Errors
  import opened Ledger
  import opened Gateway
  import opened Statements
  import opened Invariant
  import opened Protocol
  import opened ProtocolInvariant
  import opened ProtocolTheorems
  import opened Operations
  import opened Recovery
  import opened Audit
  import opened Webhooks
  import opened ApprovalAudit
  import opened RequestTerms

  // ---- over runs ----

  /** The move commits this request: a transaction that got this far publishes its row. */
  predicate Commits(s: State, m: Move, q: Request) {
    && m.Step? && m.who in s.actors
    && s.actors[m.who].RequestAudited? && s.actors[m.who].q == q
    && q.refundId !in s.w.db.refunds
  }

  /** The row repeats the request. */
  predicate Repeats(r: Refund, q: Request) {
    && r.chargeId == q.chargeId
    && r.amountCents == q.amountCents
    && r.currency == q.currency
    && r.reasonCode == q.reasonCode
    && r.requestedBy == q.actor
  }

  /** The refund's history in the log opens with its request. */
  predicate OpensWith(db: Db, q: Request) {
    var es := Entries(db.log, q.refundId);
    es != [] && es[0] == Transition(
      refundId := q.refundId, from := None, to := FirstStatus(q.amountCents), actor := q.actor, reason := q.reasonCode)
  }

  lemma RequestPublishes(w: World, a: Actor, position: nat, id: Uuid, x: World)
    requires IsRequest(a) && LedgerInv(w) && RequestInv(w, a) && x == ActRequest(w, a, position).0
    requires id !in w.db.refunds && id in x.db.refunds
    ensures a.RequestAudited? && a.q.refundId == id
    ensures Repeats(x.db.refunds[id], a.q) && OpensWith(x.db, a.q)
  {
    RequestAddsOwnRow(w, a, position, id);
    forall e | e in w.db.log
      ensures e.refundId != id
    {
      assert EntryOk(w.db, e);
    }
    NoEntries(w.db.log, id);
    EntriesAppend(w.db.log, a.entry, id);
  }

  lemma NewRowCommitted(s: State, m: Move, id: Uuid) returns (q: Request)
    requires Inv(s) && Enabled(s, m) && id !in s.w.db.refunds && id in Next(s, m).w.db.refunds
    ensures Commits(s, m, q) && q.refundId == id
    ensures Repeats(Next(s, m).w.db.refunds[id], q) && OpensWith(Next(s, m).w.db, q)
  {
    var a := s.actors[m.who];
    assert ActorInv(s.w, a);
    OnlyRequestsAddRows(s.w, a, m.choice, id);
    RequestPublishes(s.w, a, m.choice.position, id, Next(s, m).w);
    q := a.q;
  }

  lemma OnlyRequestsAddRows(w: World, a: Actor, choice: Choice, id: Uuid)
    requires id !in w.db.refunds && id in Act(w, a, choice).0.db.refunds
    ensures IsRequest(a)
  {
    if IsApprove(a) {
      ApproveAddsNoRow(w, a);
    } else if IsSubmit(a) {
      SubmitAddsNoRow(w, a, choice.config);
    } else if IsRecover(a) {
      RecoverAddsNoRow(w, a, choice.config);
    } else if IsHook(a) {
      HookAddsNoRow(w, a);
    }
  }

  lemma {:induction false} EntriesGrow(log: seq<Transition>, more: seq<Transition>, id: Uuid)
    requires log <= more
    ensures Entries(log, id) <= Entries(more, id)
    decreases |more|
  {
    if log != more {
      EntriesGrow(log, more[..|more| - 1], id);
    }
  }

  lemma StaysRepeated(w: World, x: World, inserting: Option<Uuid>, q: Request)
    requires Evolves(w, x, inserting) && q.refundId in w.db.refunds
    requires Repeats(w.db.refunds[q.refundId], q) && OpensWith(w.db, q)
    ensures q.refundId in x.db.refunds && Repeats(x.db.refunds[q.refundId], q) && OpensWith(x.db, q)
  {
    assert RowMove(w.db.refunds[q.refundId], x.db.refunds[q.refundId]);
    EntriesGrow(w.db.log, x.db.log, q.refundId);
  }

  /** In every run each refund row has an earlier commit of a request that it repeats, requester included, and its
      history in the log opens with that request. */
  lemma {:induction false} RowComesFromRequest(states: seq<State>, moves: seq<Move>, i: nat, id: Uuid)
    returns (j: nat, q: Request)
    requires IsRunFromStart(states, moves) && i <= |moves| && id in states[i].w.db.refunds
    ensures j < i && Commits(states[j], moves[j], q) && q.refundId == id
    ensures Repeats(states[i].w.db.refunds[id], q) && OpensWith(states[i].w.db, q)
  {
    assert i > 0;
    if id in states[i - 1].w.db.refunds {
      j, q := RowComesFromRequest(states, moves, i - 1, id);
      RunEvolves(states, moves, i - 1);
      StaysRepeated(states[i - 1].w, states[i].w, InsertingBy(states[i - 1], moves[i - 1]), q);
    } else {
      ReachableInv(states, moves, i - 1);
      assert IsStepAt(states, moves, i - 1);
      q := NewRowCommitted(states[i - 1], moves[i - 1], id);
      j := i - 1;
    }
  }

  // ---- separation of duties, with the person who asked ----

  /** A refund of at least 100,000 cents is at the gateway only if someone other than the person who requested it
      took it out of review. */
  lemma LargeRefundsApprovedByAnother(states: seq<State>, moves: seq<Move>, i: nat, id: Uuid)
    returns (b: nat, q: Request, j: nat, approver: string)
    requires IsRunFromStart(states, moves) && i <= |moves|
    requires id in states[i].w.gw.store && states[i].w.gw.store[id].amount >= 100_000
    ensures b < i && Commits(states[b], moves[b], q) && q.refundId == id
    ensures j < i && moves[j].Step? && moves[j].who in states[j].actors
    ensures states[j].actors[moves[j].who] == ApproveChecked(id, approver)
    ensures id in states[j].w.db.refunds && states[j].w.db.refunds[id].status == PendingReview
    ensures id in states[j + 1].w.db.refunds && states[j + 1].w.db.refunds[id].status == Requested
    ensures approver != q.actor
  {
    j, approver := LargeRefundsWereApproved(states, moves, i, id);
    b, q := RowComesFromRequest(states, moves, i, id);
  }

  /** No one who requested a refund ever gets past the check of an approval of it. */
  lemma NobodyApprovesOwnRequest(states: seq<State>, moves: seq<Move>, i: nat, who: nat, id: Uuid, approver: string)
    returns (b: nat, q: Request)
    requires IsRunFromStart(states, moves) && i <= |moves| && who in states[i].actors
    requires states[i].actors[who] in {ApproveChecked(id, approver), ApproveMarked(id, approver)}
    ensures b < i && Commits(states[b], moves[b], q) && q.refundId == id && approver != q.actor
  {
    ActorInvAt(states, moves, i, who);
    b, q := RowComesFromRequest(states, moves, i, id);
  }

  /** No approval entry in the log names the person who requested the refund. */
  lemma ApprovalsNameOthersThanRequester(states: seq<State>, moves: seq<Move>, i: nat, e: Transition)
    returns (b: nat, q: Request, approver: string)
    requires IsRunFromStart(states, moves) && i <= |moves| && e in states[i].w.db.log
    requires e.from == Some(PendingReview) && e.to == Requested
    ensures b < i && Commits(states[b], moves[b], q) && q.refundId == e.refundId
    ensures e.actor == "approver:" + approver && approver != q.actor
  {
    var j;
    j, approver := ApprovalsNameOthers(states, moves, i, e);
    b, q := RowComesFromRequest(states, moves, i, e.refundId);
  }

  // ---- over whole operations ----

  lemma RecoveryKeepsColumns(w: World, configs: seq<MockConfig>, id: Uuid, q: Request)
    requires LedgerInv(w) && id in w.db.refunds && Repeats(w.db.refunds[id], q)
    ensures var x := AfterRecovery(w, configs); id in x.db.refunds && Repeats(x.db.refunds[id], q)
  {
    var x, todo := AfterRecovery(w, configs), SelectStuck(w.db);
    SelectStuckFresh(w.db);
    RecoverAllEffect(w, todo, NO_REPORT, configs);
    if Walks(todo, id) {
      var i := ConvergedRow(w, x, todo, configs, id);
    }
  }

  lemma WebhookKeepsColumns(w: World, e: WebhookEvent, verified: bool, id: Uuid, q: Request)
    requires LedgerInv(w) && id in w.db.refunds && Repeats(w.db.refunds[id], q)
    ensures var after := HandleWebhook(w.db, e, verified).0; id in after.refunds && Repeats(after.refunds[id], q)
  {
    if verified && e.id !in w.db.events {
      InvIndexed(w);
      RegisteredIsIndexed(w.db, e.id);
      EventOnRow(InsertEvent(w.db, e.id), e, id);
    }
  }

  lemma SubmitKeepsColumns(w: World, row: Uuid, config: MockConfig, id: Uuid, q: Request)
    requires id in w.db.refunds && Repeats(w.db.refunds[id], q)
    ensures var after := Submit(w.db, w.gw, row, config).0; id in after.refunds && Repeats(after.refunds[id], q)
  {
  }

  lemma PerformKeepsColumns(w: World, op: Operation, id: Uuid, q: Request, x: World)
    requires LedgerInv(w) && id in w.db.refunds && Repeats(w.db.refunds[id], q) && x == Perform(w, op)
    ensures id in x.db.refunds && Repeats(x.db.refunds[id], q)
  {
    match op {
      case OpCharge(_, _) =>
      case OpRequest(_) =>
      case OpApprove(_, _) =>
      case OpSubmit(row, config) => SubmitKeepsColumns(w, row, config, id, q);
      case OpRecover(configs) => RecoveryKeepsColumns(w, configs, id, q);
      case OpWebhook(event, verified) => WebhookKeepsColumns(w, event, verified, id, q);
    }
  }

  lemma {:induction false} RunKeepsColumns(w: World, ops: seq<Operation>, id: Uuid, q: Request)
    requires LedgerInv(w) && id in w.db.refunds && Repeats(w.db.refunds[id], q)
    ensures var x := PerformAll(w, ops); id in x.db.refunds && Repeats(x.db.refunds[id], q)
    decreases |ops|
  {
    if ops != [] {
      var x := Perform(w, ops[0]);
      PerformKeepsLedger(w, ops[0], x);
      PerformKeepsColumns(w, ops[0], id, q, x);
      RunKeepsColumns(x, ops[1..], id, q);
    }
  }

  /** An operation that adds a row is an accepted request, and the row repeats it. */
  lemma PerformAddsRequest(w: World, op: Operation, id: Uuid, x: World)
    requires LedgerInv(w) && x == Perform(w, op) && id !in w.db.refunds && id in x.db.refunds
    ensures op.OpRequest? && op.q.refundId == id && RequestRefund(w.db, op.q).1 == Refunded(id)
    ensures Repeats(x.db.refunds[id], op.q)
  {
    match op {
      case OpCharge(_, _) =>
      case OpRequest(q) =>
        if RequestRefund(w.db, q).1 == Refunded(q.refundId) {
          AcceptedWrites(w.db, q);
        }
      case OpApprove(_, _) =>
      case OpSubmit(row, config) => SubmitAddsNone(w, row, config);
      case OpRecover(configs) =>
        SelectStuckFresh(w.db);
        RecoverAllEffect(w, SelectStuck(w.db), NO_REPORT, configs);
      case OpWebhook(event, verified) => WebhookAddsNone(w, event, verified);
    }
  }

  lemma SubmitAddsNone(w: World, row: Uuid, config: MockConfig)
    ensures Submit(w.db, w.gw, row, config).0.refunds.Keys == w.db.refunds.Keys
  {
  }

  lemma WebhookAddsNone(w: World, e: WebhookEvent, verified: bool)
    ensures HandleWebhook(w.db, e, verified).0.refunds.Keys == w.db.refunds.Keys
  {
  }

  /** After whole operations every row repeats a request among them that was accepted in its turn. */
  lemma {:induction false} RowComesFromOperation(w: World, ops: seq<Operation>, id: Uuid) returns (k: nat, q: Request)
    requires LedgerInv(w) && id !in w.db.refunds && id in PerformAll(w, ops).db.refunds
    ensures k < |ops| && ops[k] == OpRequest(q) && q.refundId == id
    ensures RequestRefund(PerformAll(w, ops[..k]).db, q).1 == Refunded(id)
    ensures Repeats(PerformAll(w, ops).db.refunds[id], q)
    decreases |ops|
  {
    var x := Perform(w, ops[0]);
    PerformKeepsLedger(w, ops[0], x);
    if id in x.db.refunds {
      PerformAddsRequest(w, ops[0], id, x);
      k, q := 0, ops[0].q;
      RunKeepsColumns(x, ops[1..], id, q);
    } else {
      var l;
      l, q := RowComesFromOperation(x, ops[1..], id);
      k := l + 1;
      assert ops[..k][1..] == ops[1..][..l];
    }
  }

  /** Separation of duties on record: a large refund at the gateway has in its log the approval by someone other
      than the person whose request was accepted. */
  lemma ApproverOnRecordIsAnother(ops: seq<Operation>, id: Uuid) returns (k: nat, q: Request, approver: string)
    requires id in PerformAll(START.w, ops).gw.store && PerformAll(START.w, ops).gw.store[id].amount >= 100_000
    ensures k < |ops| && ops[k] == OpRequest(q) && q.refundId == id
    ensures RequestRefund(PerformAll(START.w, ops[..k]).db, q).1 == Refunded(id)
    ensures approver != q.actor
    ensures Transition(id, Some(PendingReview), Requested, "approver:" + approver, None)
         in PerformAll(START.w, ops).db.log
  {
    StartInv();
    approver := ApproverIsOnRecord(ops, id);
    k, q := RowComesFromOperation(START.w, ops, id);
  }
}
