/** Each whole operation is an uninterrupted run of the protocol's actor of that kind, so everything
    proved of the interleaved protocol holds of whole operations too. */
module Refinement {
  import opened Outcomes
  import opened Errors
  import opened Ledger
  import opened Gateway
  import opened Statements
  import opened Invariant
  import opened Protocol
  import opened Operations

  lemma RequestIsRun(w: World, q: Request, c: Choice)
    requires c.position == |w.db.created|
    ensures var (db, reply) := RequestRefund(w.db, q);
      Alone(w, RequestBegin(q), Times(6, c)) == (w.(db := db), Done(reply))
  {
    if q.chargeId !in w.db.charges {
      EndsAt(w, RequestBegin(q), 6, c, w, Rejected(ChargeNotFound(q.chargeId)));
    } else {
      var charge, sum := w.db.charges[q.chargeId], LiveSum(w.db, q.chargeId);
      var locked := RequestLocked(q, charge.amountCaptured, charge.currency);
      StepTo(w, RequestBegin(q), 6, c, w, locked);
      if !FitsI64(sum) {
        EndsAt(w, locked, 5, c, w, Rejected(DbError(BigintOutOfRange)));
      } else {
        StepTo(w, locked, 5, c, w, RequestSummed(q, charge.amountCaptured, charge.currency, sum));
        RequestIsRunFromSummed(w, q, c);
      }
    }
  }

  lemma RequestIsRunFromSummed(w: World, q: Request, c: Choice)
    requires c.position == |w.db.created| && q.chargeId in w.db.charges && FitsI64(LiveSum(w.db, q.chargeId))
    ensures var (db, reply) := RequestRefund(w.db, q);
      var charge, sum := w.db.charges[q.chargeId], LiveSum(w.db, q.chargeId);
      Alone(w, RequestSummed(q, charge.amountCaptured, charge.currency, sum), Times(4, c))
      == (w.(db := db), Done(reply))
  {
    var charge, sum := w.db.charges[q.chargeId], LiveSum(w.db, q.chargeId);
    var summed := RequestSummed(q, charge.amountCaptured, charge.currency, sum);
    var remaining := Wrap64(charge.amountCaptured - sum);
    if q.currency != charge.currency {
      EndsAt(w, summed, 4, c, w, Rejected(CurrencyMismatch(q.currency, charge.currency)));
    } else if q.amountCents > remaining {
      EndsAt(w, summed, 4, c, w, Rejected(OverRefund(q.chargeId, q.amountCents, remaining)));
    } else {
      StepTo(w, summed, 4, c, w, RequestChecked(q, InitialStatus(q.amountCents)));
      RequestIsRunFromChecked(w, q, c);
    }
  }

  lemma RequestIsRunFromChecked(w: World, q: Request, c: Choice)
    requires c.position == |w.db.created|
    ensures var initial := InitialStatus(q.amountCents);
      Alone(w, RequestChecked(q, initial), Times(3, c)) ==
        if q.amountCents <= 0 then (w, Done(Rejected(DbError(CheckViolation))))
        else if q.refundId in w.db.refunds then (w, Done(Rejected(DbError(PrimaryKeyViolation))))
        else
          (w.(db := InsertRefund(w.db, q.refundId, NewRow(q, initial), FirstEntry(q, initial), |w.db.created|)),
           Done(Refunded(q.refundId)))
  {
    var initial := InitialStatus(q.amountCents);
    var row, entry := NewRow(q, initial), FirstEntry(q, initial);
    if q.amountCents <= 0 {
      EndsAt(w, RequestChecked(q, initial), 3, c, w, Rejected(DbError(CheckViolation)));
    } else if q.refundId in w.db.refunds {
      EndsAt(w, RequestChecked(q, initial), 3, c, w, Rejected(DbError(PrimaryKeyViolation)));
    } else {
      StepTo(w, RequestChecked(q, initial), 3, c, w, RequestInserted(q, row));
      StepTo(w, RequestInserted(q, row), 2, c, w, RequestAudited(q, row, entry));
      EndsAt(w, RequestAudited(q, row, entry), 1, c,
             w.(db := InsertRefund(w.db, q.refundId, row, entry, |w.db.created|)), Refunded(q.refundId));
    }
  }

  lemma ApproveIsRun(w: World, id: Uuid, approver: string, c: Choice)
    ensures var (db, reply) := Approve(w.db, id, approver);
      var approvals := if reply.Approval? then w.approvals[id := approver] else w.approvals;
      Alone(w, ApproveBegin(id, approver), Times(3, c)) == (w.(db := db, approvals := approvals), Done(reply))
  {
    var (db, reply) := Approve(w.db, id, approver);
    if reply.Approval? {
      var x := Approved(w, id, approver);
      StepTo(w, ApproveBegin(id, approver), 3, c, w, ApproveChecked(id, approver));
      StepTo(w, ApproveChecked(id, approver), 2, c, x, ApproveMarked(id, approver));
      EndsAt(x, ApproveMarked(id, approver), 1, c, x.(db := AppendLog(x.db, ApprovalEntry(id, approver))), Approval);
    } else {
      EndsAt(w, ApproveBegin(id, approver), 3, c, w, reply);
    }
  }

  lemma SubmitLoggedIsRun(w: World, id: Uuid, row: Refund, c: Choice)
    ensures var (gw, outcome) := Create(w.gw, row.amountCents, row.currency, id, c.config);
      Alone(w, SubmitLogged(id, row), Times(2, c)) ==
        if !outcome.Accepted? then (w.(gw := gw), Done(Submission(false)))
        else
          match RecordRef(w.db, id, outcome.refund.id)
          case None => (w.(gw := gw), Done(Rejected(DbError(UniqueRefViolation))))
          case Some(recorded) => (w.(db := recorded, gw := gw), Done(Submission(true)))
  {
    var (gw, outcome) := Create(w.gw, row.amountCents, row.currency, id, c.config);
    var x := w.(gw := gw);
    if !outcome.Accepted? {
      EndsAt(w, SubmitLogged(id, row), 2, c, x, Submission(false));
    } else {
      var ref := outcome.refund.id;
      StepTo(w, SubmitLogged(id, row), 2, c, x, SubmitAccepted(id, ref));
      match RecordRef(w.db, id, ref) {
        case None => EndsAt(x, SubmitAccepted(id, ref), 1, c, x, Rejected(DbError(UniqueRefViolation)));
        case Some(recorded) => EndsAt(x, SubmitAccepted(id, ref), 1, c, x.(db := recorded), Submission(true));
      }
    }
  }

  /** The world in which a submitter of this row calls the gateway. */
  function ReadyToCall(w: World, id: Uuid, row: Refund): World {
    var marked := w.(db := MarkSubmitted(w.db, id));
    if row.status.Submitted? then marked else marked.(db := AppendLog(marked.db, SubmitEntry(id, row.status)))
  }

  lemma SubmitOfStuck(w: World, id: Uuid, config: MockConfig)
    requires id in w.db.refunds && IsStuck(w.db.refunds[id].status)
    ensures var row := w.db.refunds[id];
      var ready, called := ReadyToCall(w, id, row), Create(w.gw, row.amountCents, row.currency, id, config);
      Submit(w.db, w.gw, id, config) ==
        if !called.1.Accepted? then (ready.db, called.0, Submission(false))
        else
          match RecordRef(ready.db, id, called.1.refund.id)
          case None => (ready.db, called.0, Rejected(DbError(UniqueRefViolation)))
          case Some(recorded) => (recorded, called.0, Submission(true))
  {
  }

  lemma SubmitBeginIsRun(w: World, id: Uuid, c: Choice)
    requires id in w.db.refunds && IsStuck(w.db.refunds[id].status)
    ensures var row := w.db.refunds[id];
      Alone(w, SubmitBegin(id), Times(5, c)) == Alone(ReadyToCall(w, id, row), SubmitLogged(id, row), Times(2, c))
  {
    var row := w.db.refunds[id];
    StepTo(w, SubmitBegin(id), 5, c, w, SubmitRead(id, row));
    SubmitReadIsRun(w, id, row, c);
  }

  lemma SubmitIsRun(w: World, id: Uuid, c: Choice)
    ensures var (db, gw, reply) := Submit(w.db, w.gw, id, c.config);
      Alone(w, SubmitBegin(id), Times(5, c)) == (w.(db := db, gw := gw), Done(reply))
  {
    if id !in w.db.refunds || !IsStuck(w.db.refunds[id].status) {
      EndsAt(w, SubmitBegin(id), 5, c, w, Submit(w.db, w.gw, id, c.config).2);
    } else {
      var row := w.db.refunds[id];
      SubmitBeginIsRun(w, id, c);
      SubmitLoggedIsRun(ReadyToCall(w, id, row), id, row, c);
      SubmitOfStuck(w, id, c.config);
    }
  }

  lemma SubmitReadIsRun(w: World, id: Uuid, row: Refund, c: Choice)
    ensures Alone(w, SubmitRead(id, row), Times(4, c))
         == Alone(ReadyToCall(w, id, row), SubmitLogged(id, row), Times(2, c))
  {
    var marked := w.(db := MarkSubmitted(w.db, id));
    StepTo(w, SubmitRead(id, row), 4, c, marked, SubmitMarked(id, row));
    StepTo(marked, SubmitMarked(id, row), 3, c, ReadyToCall(w, id, row), SubmitLogged(id, row));
  }

  lemma WebhookIsRun(w: World, event: WebhookEvent, verified: bool, c: Choice)
    ensures var (db, reply) := HandleWebhook(w.db, event, verified);
      Alone(w, HookBegin(event, verified), Times(2, c)) == (w.(db := db), Done(reply))
  {
    if verified && event.id !in w.db.events {
      var x := w.(db := InsertEvent(w.db, event.id));
      StepTo(w, HookBegin(event, verified), 2, c, x, HookInserted(event));
      HookInsertedIsRun(x, event, c);
    } else {
      EndsAt(w, HookBegin(event, verified), 2, c, w, HandleWebhook(w.db, event, verified).1);
    }
  }

  lemma HookInsertedIsRun(w: World, event: WebhookEvent, c: Choice)
    ensures Alone(w, HookInserted(event), Times(1, c)) == (w.(db := ApplyEvent(w.db, event)), Done(Webhook(Applied)))
  {
    EndsAt(w, HookInserted(event), 1, c, w.(db := ApplyEvent(w.db, event)), Webhook(Applied));
  }

  // ---- recovery ----

  /** `StepTo` for a recovery job. */
  lemma RecoverTo(w: World, a: Actor, n: nat, c: Choice, x: World, b: Actor)
    requires n > 0 && IsRecover(a) && ActRecover(w, a, c.config) == (x, b)
    ensures Alone(w, a, Times(n, c)) == Alone(x, b, Times(n - 1, c))
  {
    StepTo(w, a, n, c, x, b);
  }

  lemma NothingLeft(w: World, a: Actor, c: Choice)
    ensures Alone(w, a, Times(0, c)) == (w, a)
  {
  }

  lemma RecoverRecordedIsRun(w: World, todo: seq<Stuck>, walked: RecoveryReport, total: nat, c: Choice)
    requires todo != []
    ensures Alone(w, RecoverRecorded(todo, walked, total), Times(1, c))
         == (w.(db := AppendLog(w.db, RecoverEntry(todo[0], "job:recover"))),
             RecoverNext(todo[1..], walked.(alreadyAtGateway := walked.alreadyAtGateway + 1), total))
  {
    var x := w.(db := AppendLog(w.db, RecoverEntry(todo[0], "job:recover")));
    var next := RecoverNext(todo[1..], walked.(alreadyAtGateway := walked.alreadyAtGateway + 1), total);
    RecoverTo(w, RecoverRecorded(todo, walked, total), 1, c, x, next);
    NothingLeft(x, next, c);
  }

  /** One row of the walk: three steps when the gateway holds the key, five or six when not. */
  lemma RecoverFoundIsRun(w: World, todo: seq<Stuck>, report: RecoveryReport, total: nat, c: Choice)
    requires todo != [] && todo[0].id in w.gw.store
    requires RecoverRef(w.db, todo[0].id, w.gw.store[todo[0].id].id).Some?
    ensures var recorded := RecoverRef(w.db, todo[0].id, w.gw.store[todo[0].id].id).value;
      Alone(w, RecoverNext(todo, report, total), Times(3, c))
      == (w.(db := AppendLog(recorded, RecoverEntry(todo[0], "job:recover"))),
          RecoverNext(todo[1..], Counted(report, true), total))
  {
    var walked, ref := report.(walked := report.walked + 1), w.gw.store[todo[0].id].id;
    var x := w.(db := RecoverRef(w.db, todo[0].id, ref).value);
    assert walked.(alreadyAtGateway := walked.alreadyAtGateway + 1) == Counted(report, true);
    RecoverTo(w, RecoverNext(todo, report, total), 3, c, w, RecoverFound(todo, walked, total, ref));
    RecoverTo(w, RecoverFound(todo, walked, total, ref), 2, c, x, RecoverRecorded(todo, walked, total));
    RecoverRecordedIsRun(x, todo, walked, total, c);
  }

  lemma RecoverCalledIsRun(w: World, todo: seq<Stuck>, walked: RecoveryReport, total: nat, c: Choice)
    requires todo != []
    ensures Alone(w, RecoverCalled(todo, walked, total), Times(1, c))
         == (w.(db := AppendLog(w.db, RecoverEntry(todo[0], "job:recover-resubmit"))),
             RecoverNext(todo[1..], walked.(resubmitted := walked.resubmitted + 1), total))
  {
    var x := w.(db := AppendLog(w.db, RecoverEntry(todo[0], "job:recover-resubmit")));
    var next := RecoverNext(todo[1..], walked.(resubmitted := walked.resubmitted + 1), total);
    RecoverTo(w, RecoverCalled(todo, walked, total), 1, c, x, next);
    NothingLeft(x, next, c);
  }

  lemma RecoverAcceptedIsRun(
    w: World, todo: seq<Stuck>, walked: RecoveryReport, total: nat, ref: string, c: Choice)
    requires todo != [] && RecordRef(w.db, todo[0].id, ref).Some?
    ensures Alone(w, RecoverAccepted(todo, walked, total, ref), Times(2, c))
         == (w.(db := AppendLog(RecordRef(w.db, todo[0].id, ref).value, RecoverEntry(todo[0], "job:recover-resubmit"))),
             RecoverNext(todo[1..], walked.(resubmitted := walked.resubmitted + 1), total))
  {
    var x := w.(db := RecordRef(w.db, todo[0].id, ref).value);
    RecoverTo(w, RecoverAccepted(todo, walked, total, ref), 2, c, x, RecoverCalled(todo, walked, total));
    RecoverCalledIsRun(x, todo, walked, total, c);
  }

  lemma RecoverMarkedAnswered(
    w: World, todo: seq<Stuck>, walked: RecoveryReport, total: nat, amount: int, currency: string, c: Choice)
    requires todo != []
    requires var outcome := Create(w.gw, amount, currency, todo[0].id, c.config).1;
      outcome.Accepted? && RecordRef(w.db, todo[0].id, outcome.refund.id).Some?
    ensures var (gw, outcome) := Create(w.gw, amount, currency, todo[0].id, c.config);
      var recorded := RecordRef(w.db, todo[0].id, outcome.refund.id).value;
      Alone(w, RecoverMarked(todo, walked, total, amount, currency), Times(3, c))
      == (w.(db := AppendLog(recorded, RecoverEntry(todo[0], "job:recover-resubmit")), gw := gw),
          RecoverNext(todo[1..], walked.(resubmitted := walked.resubmitted + 1), total))
  {
    var (gw, outcome) := Create(w.gw, amount, currency, todo[0].id, c.config);
    var x, ref := w.(gw := gw), outcome.refund.id;
    RecoverTo(w, RecoverMarked(todo, walked, total, amount, currency), 3, c,
              x, RecoverAccepted(todo, walked, total, ref));
    RecoverAcceptedIsRun(x, todo, walked, total, ref, c);
  }

  lemma RecoverMarkedUnanswered(
    w: World, todo: seq<Stuck>, walked: RecoveryReport, total: nat, amount: int, currency: string, c: Choice)
    requires todo != [] && !Create(w.gw, amount, currency, todo[0].id, c.config).1.Accepted?
    ensures var gw := Create(w.gw, amount, currency, todo[0].id, c.config).0;
      Alone(w, RecoverMarked(todo, walked, total, amount, currency), Times(2, c))
      == (w.(db := AppendLog(w.db, RecoverEntry(todo[0], "job:recover-resubmit")), gw := gw),
          RecoverNext(todo[1..], walked.(resubmitted := walked.resubmitted + 1), total))
  {
    var x := w.(gw := Create(w.gw, amount, currency, todo[0].id, c.config).0);
    RecoverTo(w, RecoverMarked(todo, walked, total, amount, currency), 2, c, x, RecoverCalled(todo, walked, total));
    RecoverCalledIsRun(x, todo, walked, total, c);
  }

  lemma RecoverMisses(w: World, todo: seq<Stuck>, report: RecoveryReport, total: nat, config: MockConfig)
    requires todo != [] && todo[0].id !in w.gw.store
    ensures ActRecover(w, RecoverNext(todo, report, total), config)
         == (w, RecoverMissing(todo, report.(walked := report.walked + 1), total))
  {
  }

  lemma RecoverToMarked(w: World, todo: seq<Stuck>, report: RecoveryReport, total: nat, left: nat, c: Choice)
    requires todo != [] && todo[0].id !in w.gw.store && todo[0].id in w.db.refunds
    ensures var row := w.db.refunds[todo[0].id];
      Alone(w, RecoverNext(todo, report, total), Times(left + 3, c))
      == Alone(w.(db := MarkSubmitted(w.db, todo[0].id)),
               RecoverMarked(todo, report.(walked := report.walked + 1), total, row.amountCents, row.currency),
               Times(left, c))
  {
    var walked := report.(walked := report.walked + 1);
    RecoverMisses(w, todo, report, total, c.config);
    RecoverTo(w, RecoverNext(todo, report, total), left + 3, c, w, RecoverMissing(todo, walked, total));
    RecoverMissingToMarked(w, todo, walked, total, left, c);
  }

  lemma RecoverMissingToMarked(w: World, todo: seq<Stuck>, walked: RecoveryReport, total: nat, left: nat, c: Choice)
    requires todo != [] && todo[0].id in w.db.refunds
    ensures var row := w.db.refunds[todo[0].id];
      Alone(w, RecoverMissing(todo, walked, total), Times(left + 2, c))
      == Alone(w.(db := MarkSubmitted(w.db, todo[0].id)),
               RecoverMarked(todo, walked, total, row.amountCents, row.currency), Times(left, c))
  {
    var row := w.db.refunds[todo[0].id];
    RecoverTo(w, RecoverMissing(todo, walked, total), left + 2, c,
              w, RecoverRead(todo, walked, total, row.amountCents, row.currency));
    RecoverReadToMarked(w, todo, walked, total, row.amountCents, row.currency, left, c);
  }

  lemma RecoverReadToMarked(
    w: World, todo: seq<Stuck>, walked: RecoveryReport, total: nat, amount: int, currency: string, left: nat, c: Choice)
    requires todo != []
    ensures Alone(w, RecoverRead(todo, walked, total, amount, currency), Times(left + 1, c))
         == Alone(w.(db := MarkSubmitted(w.db, todo[0].id)),
                  RecoverMarked(todo, walked, total, amount, currency), Times(left, c))
  {
    RecoverTo(w, RecoverRead(todo, walked, total, amount, currency), left + 1, c,
              w.(db := MarkSubmitted(w.db, todo[0].id)), RecoverMarked(todo, walked, total, amount, currency));
  }

  /** The gateway's answer to the call for a missing row, and the tables once it is recorded. */
  function Resubmitted(w: World, k: Stuck, config: MockConfig): (GatewayState, GatewayOutcome, Option<Db>)
    requires k.id in w.db.refunds
  {
    var marked, row := MarkSubmitted(w.db, k.id), w.db.refunds[k.id];
    var (gw, outcome) := Create(w.gw, row.amountCents, row.currency, k.id, config);
    (gw, outcome, if outcome.Accepted? then RecordRef(marked, k.id, outcome.refund.id) else Some(marked))
  }

  lemma RecoverMissingIsRun(w: World, todo: seq<Stuck>, report: RecoveryReport, total: nat, c: Choice) returns (n: nat)
    requires todo != [] && todo[0].id !in w.gw.store && todo[0].id in w.db.refunds
    requires Resubmitted(w, todo[0], c.config).2.Some?
    ensures var done := Resubmitted(w, todo[0], c.config);
      Alone(w, RecoverNext(todo, report, total), Times(n, c))
      == (w.(db := AppendLog(done.2.value, RecoverEntry(todo[0], "job:recover-resubmit")), gw := done.0),
          RecoverNext(todo[1..], Counted(report, false), total))
  {
    var row, marked := w.db.refunds[todo[0].id], w.(db := MarkSubmitted(w.db, todo[0].id));
    var walked := report.(walked := report.walked + 1);
    assert walked.(resubmitted := walked.resubmitted + 1) == Counted(report, false);
    if Resubmitted(w, todo[0], c.config).1.Accepted? {
      n := 6;
      RecoverToMarked(w, todo, report, total, 3, c);
      RecoverMarkedAnswered(marked, todo, walked, total, row.amountCents, row.currency, c);
    } else {
      n := 5;
      RecoverToMarked(w, todo, report, total, 2, c);
      RecoverMarkedUnanswered(marked, todo, walked, total, row.amountCents, row.currency, c);
    }
  }

  lemma RecoverOneMissing(w: World, k: Stuck, config: MockConfig)
    requires k.id !in w.gw.store && RecoverOne(w.db, w.gw, k, config).2.Some?
    ensures k.id in w.db.refunds
    ensures var done := Resubmitted(w, k, config);
      && done.2.Some?
      && RecoverOne(w.db, w.gw, k, config)
         == (AppendLog(done.2.value, RecoverEntry(k, "job:recover-resubmit")), done.0, Some(false))
  {
  }

  // ---- a recovery that the database refuses midway ----

  lemma RecoverFoundRefused(w: World, todo: seq<Stuck>, report: RecoveryReport, total: nat, c: Choice)
    requires todo != [] && todo[0].id in w.gw.store
    requires RecoverOne(w.db, w.gw, todo[0], c.config).2.None?
    ensures RecoverOne(w.db, w.gw, todo[0], c.config).0 == w.db
    ensures RecoverOne(w.db, w.gw, todo[0], c.config).1 == w.gw
    ensures Alone(w, RecoverNext(todo, report, total), Times(2, c))
         == (w, Done(Rejected(DbError(UniqueRefViolation))))
  {
    var walked, ref := report.(walked := report.walked + 1), w.gw.store[todo[0].id].id;
    RecoverTo(w, RecoverNext(todo, report, total), 2, c, w, RecoverFound(todo, walked, total, ref));
    EndsAt(w, RecoverFound(todo, walked, total, ref), 1, c, w, Rejected(DbError(UniqueRefViolation)));
  }

  lemma RecoverMissingRowRefused(w: World, todo: seq<Stuck>, report: RecoveryReport, total: nat, c: Choice)
    requires todo != [] && todo[0].id !in w.gw.store && todo[0].id !in w.db.refunds
    ensures Alone(w, RecoverNext(todo, report, total), Times(2, c)) == (w, Done(Rejected(DbError(RowNotFound))))
  {
    var missing := RecoverMissing(todo, report.(walked := report.walked + 1), total);
    RecoverTo(w, RecoverNext(todo, report, total), 2, c, w, missing);
    EndsAt(w, missing, 1, c, w, Rejected(DbError(RowNotFound)));
  }

  lemma RecoverMarkedRefused(
      w: World, todo: seq<Stuck>, walked: RecoveryReport, total: nat, amount: int, currency: string, c: Choice)
    requires todo != []
    requires var outcome := Create(w.gw, amount, currency, todo[0].id, c.config).1;
      outcome.Accepted? && RecordRef(w.db, todo[0].id, outcome.refund.id).None?
    ensures Alone(w, RecoverMarked(todo, walked, total, amount, currency), Times(2, c))
         == (w.(gw := Create(w.gw, amount, currency, todo[0].id, c.config).0),
             Done(Rejected(DbError(UniqueRefViolation))))
  {
    var (gw, outcome) := Create(w.gw, amount, currency, todo[0].id, c.config);
    var accepted, x := RecoverAccepted(todo, walked, total, outcome.refund.id), w.(gw := gw);
    RecoverTo(w, RecoverMarked(todo, walked, total, amount, currency), 2, c, x, accepted);
    EndsAt(x, accepted, 1, c, x, Rejected(DbError(UniqueRefViolation)));
  }

  lemma RecoverMissingRefused(w: World, todo: seq<Stuck>, report: RecoveryReport, total: nat, c: Choice)
    requires todo != [] && todo[0].id !in w.gw.store && todo[0].id in w.db.refunds
    requires RecoverOne(w.db, w.gw, todo[0], c.config).2.None?
    ensures var (db, gw, _) := RecoverOne(w.db, w.gw, todo[0], c.config);
      Alone(w, RecoverNext(todo, report, total), Times(5, c))
      == (w.(db := db, gw := gw), Done(Rejected(DbError(UniqueRefViolation))))
  {
    var row := w.db.refunds[todo[0].id];
    RecoverToMarked(w, todo, report, total, 2, c);
    RecoverMarkedRefused(w.(db := MarkSubmitted(w.db, todo[0].id)), todo, report.(walked := report.walked + 1), total,
                         row.amountCents, row.currency, c);
  }

  lemma RecoverRefusedIsRun(w: World, todo: seq<Stuck>, report: RecoveryReport, total: nat, c: Choice)
    returns (n: nat, fault: DbFault)
    requires todo != [] && RecoverOne(w.db, w.gw, todo[0], c.config).2.None?
    ensures var (db, gw, _) := RecoverOne(w.db, w.gw, todo[0], c.config);
      Alone(w, RecoverNext(todo, report, total), Times(n, c))
      == (w.(db := db, gw := gw), Done(Rejected(DbError(fault))))
  {
    n, fault := 2, UniqueRefViolation;
    if todo[0].id in w.gw.store {
      RecoverFoundRefused(w, todo, report, total, c);
    } else if todo[0].id !in w.db.refunds {
      RecoverMissingRowRefused(w, todo, report, total, c);
      fault := RowNotFound;
    } else {
      RecoverMissingRefused(w, todo, report, total, c);
      n := 5;
    }
  }

  lemma RecoverDoneIsRun(w: World, todo: seq<Stuck>, report: RecoveryReport, total: nat, c: Choice) returns (n: nat)
    requires todo != [] && RecoverOne(w.db, w.gw, todo[0], c.config).2.Some?
    ensures var (db, gw, done) := RecoverOne(w.db, w.gw, todo[0], c.config); var found := done.value;
      Alone(w, RecoverNext(todo, report, total), Times(n, c))
      == (w.(db := db, gw := gw), RecoverNext(todo[1..], Counted(report, found), total))
  {
    if todo[0].id in w.gw.store {
      RecoverFoundIsRun(w, todo, report, total, c);
      n := 3;
    } else {
      RecoverOneMissing(w, todo[0], c.config);
      n := RecoverMissingIsRun(w, todo, report, total, c);
    }
  }

  /** The reply that goes with a walk's outcome. */
  predicate WalkReply(done: Option<RecoveryReport>, reply: Reply) {
    match done
    case Some(report) => reply == Recovery(report)
    case None => reply.Rejected? && reply.error.DbError?
  }

  lemma {:induction false} RecoverAllIsRun(
    w: World, todo: seq<Stuck>, report: RecoveryReport, total: nat, configs: seq<MockConfig>)
    returns (choices: seq<Choice>, reply: Reply)
    ensures var (db, gw, done) := RecoverAll(w.db, w.gw, todo, report, configs);
      && Alone(w, RecoverNext(todo, report, total), choices) == (w.(db := db, gw := gw), Done(reply))
      && WalkReply(done, reply)
    decreases |todo|
  {
    var c := Choice(First(configs), 0);
    if todo == [] {
      choices, reply := Times(1, c), Recovery(report);
      EndsAt(w, RecoverNext(todo, report, total), 1, c, w, reply);
    } else {
      var (db, gw, done) := RecoverOne(w.db, w.gw, todo[0], c.config);
      if done.None? {
        var n, fault := RecoverRefusedIsRun(w, todo, report, total, c);
        choices, reply := Times(n, c), Rejected(DbError(fault));
      } else {
        var n := RecoverDoneIsRun(w, todo, report, total, c);
        var x, counted := w.(db := db, gw := gw), Counted(report, done.value);
        var rest, last := RecoverAllIsRun(x, todo[1..], counted, total, Rest(configs));
        choices, reply := Times(n, c) + rest, last;
        AloneAppend(w, RecoverNext(todo, report, total), Times(n, c), rest);
      }
    }
  }

  /** A whole recovery, with its own gateway behaviour at every row, is a run of one recovery job: to its
      report, or to the statement that the database refuses. */
  lemma RecoverIsRun(w: World, configs: seq<MockConfig>) returns (choices: seq<Choice>, reply: Reply)
    ensures var (db, gw, done) := Recover(w.db, w.gw, configs);
      Alone(w, RecoverBegin, choices) == (w.(db := db, gw := gw), Done(reply)) && WalkReply(done, reply)
  {
    var stuck := SelectStuck(w.db);
    var rest, last := RecoverAllIsRun(w, stuck, NO_REPORT, |stuck|, configs);
    var c := Choice(HEALTHY, 0);
    choices, reply := [c] + rest, last;
    OneMore(w, RecoverBegin, c, rest);
  }

  // ---- and a run of the whole system ----

  /** An actor run alone is a run of the transition system in which nobody else moves: with no other
      transaction open it never waits for a lock. */
  lemma {:induction false} AloneIsSystemRun(w: World, who: nat, a: Actor, choices: seq<Choice>)
    returns (states: seq<State>, moves: seq<Move>)
    ensures IsRun(states, moves) && |moves| == |choices|
    ensures states[0] == State(w, map[who := a])
    ensures states[|moves|] == (var (x, b) := Alone(w, a, choices); State(x, map[who := b]))
    decreases |choices|
  {
    var s := State(w, map[who := a]);
    if choices == [] {
      states, moves := [s], [];
    } else {
      var m := Step(who, choices[0]);
      var (x, b) := Act(w, a, choices[0]);
      assert !Blocked(s, who);
      assert s.actors[who := b] == map[who := b];
      var restStates, restMoves := AloneIsSystemRun(x, who, b, choices[1..]);
      states, moves := [s] + restStates, [m] + restMoves;
      StepThenRun(s, m, restStates, restMoves);
    }
  }

  /** An enabled move, then a run from where it leads, is a run. */
  lemma StepThenRun(s: State, m: Move, states: seq<State>, moves: seq<Move>)
    requires Enabled(s, m) && IsRun(states, moves) && states[0] == Next(s, m)
    ensures IsRun([s] + states, [m] + moves)
  {
    forall i | 0 <= i < |moves| + 1
      ensures IsStepAt([s] + states, [m] + moves, i)
    {
      if i > 0 {
        assert IsStepAt(states, moves, i - 1);
      }
    }
  }
}
