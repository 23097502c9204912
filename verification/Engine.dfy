/** The engine itself: the database as an object whose tables the statements change in place, and the
    operations as the sequential code that issues those statements and calls the gateway. Each method is
    proved to do exactly what the function of the same name in `Operations` says. */
module Engine {
  import opened Outcomes
  import opened Errors
  import opened Ledger
  import opened Gateway
  import Statements
  import opened Protocol
  import Operations

  class Database {
    var charges: map<Uuid, Charge>
    var refunds: map<Uuid, Refund>
    var created: seq<Uuid>
    var log: seq<Transition>
    var events: set<string>

    function View(): Db
      reads this
    {
      Db(charges, refunds, created, log, events)
    }

    constructor ()
      ensures View() == START.w.db
    {
      charges, refunds, created, log, events := map[], map[], [], [], {};
    }

    method CreateCharge(id: Uuid, amountCaptured: int, currency: string) returns (r: Result<Charge, RefundError>)
      requires FitsI64(amountCaptured)
      modifies this
      ensures r.Ok? <==> amountCaptured >= 0 && id !in old(charges)
      ensures View() ==
        if r.Ok? then old(View()).(charges := old(charges)[id := Charge(amountCaptured, currency)]) else old(View())
      ensures r.Ok? ==> r.value == Charge(amountCaptured, currency)
    {
      if amountCaptured < 0 {
        return Err(DbError(CheckViolation));
      }
      if id in charges {
        return Err(DbError(PrimaryKeyViolation));
      }
      charges := charges[id := Charge(amountCaptured, currency)];
      r := Ok(Charge(amountCaptured, currency));
    }

    method GetRefund(id: Uuid) returns (r: Result<Refund, RefundError>)
      ensures r.Ok? <==> id in refunds
      ensures r.Ok? ==> r.value == refunds[id]
      ensures r.Err? ==> r.error == RefundNotFound(id)
    {
      r := if id in refunds then Ok(refunds[id]) else Err(RefundNotFound(id));
    }

    method MarkSubmitted(id: Uuid)
      modifies this`refunds
      ensures View() == Statements.MarkSubmitted(old(View()), id)
    {
      if id in refunds && (refunds[id].status == Requested || refunds[id].status == Submitted) {
        refunds := refunds[id := refunds[id].(status := Submitted)];
      }
    }

    method MarkApproved(id: Uuid)
      modifies this`refunds
      ensures View() == Statements.MarkApproved(old(View()), id)
    {
      if id in refunds && refunds[id].status == PendingReview {
        refunds := refunds[id := refunds[id].(status := Requested)];
      }
    }

    method RecordRef(id: Uuid, ref: string) returns (ok: bool)
      modifies this`refunds
      ensures ok <==> Statements.RecordRef(old(View()), id, ref).Some?
      ensures View() == if ok then Statements.RecordRef(old(View()), id, ref).value else old(View())
    {
      ok := true;
      if id in refunds && refunds[id].gatewayRef == None {
        if exists other :: other in refunds && other != id && refunds[other].gatewayRef == Some(ref) {
          return false;
        }
        refunds := refunds[id := refunds[id].(gatewayRef := Some(ref))];
      }
    }

    method RecoverRef(id: Uuid, ref: string) returns (ok: bool)
      modifies this`refunds
      ensures ok <==> Statements.RecoverRef(old(View()), id, ref).Some?
      ensures View() == if ok then Statements.RecoverRef(old(View()), id, ref).value else old(View())
    {
      ok := true;
      if id in refunds && refunds[id].gatewayRef == None {
        if exists other :: other in refunds && other != id && refunds[other].gatewayRef == Some(ref) {
          return false;
        }
        refunds := refunds[id := refunds[id].(gatewayRef := Some(ref), status := Submitted)];
      }
    }

    method RecordTransition(id: Uuid, from: Option<Status>, to: Status, actor: string, reason: Option<string>)
      modifies this`log
      ensures View() == Statements.AppendLog(old(View()), Transition(id, from, to, actor, reason))
    {
      log := log + [Transition(id, from, to, actor, reason)];
    }

    method RegisterEvent(event: string) returns (inserted: bool)
      modifies this`events
      ensures inserted <==> event !in old(events)
      ensures View() == Statements.InsertEvent(old(View()), event)
    {
      inserted := event !in events;
      events := events + {event};
    }

    method ApplySettled(ref: string)
      modifies this`refunds, this`log
      ensures View() == Statements.ApplySettled(old(View()), ref)
    {
      var found := Statements.FindRef(View(), ref);
      if found.Some? && Statements.SettledApplies(refunds[found.value].status) {
        var from := Statements.LastLogged(log, found.value);
        refunds := refunds[found.value := refunds[found.value].(status := Settled)];
        RecordTransition(found.value, from, Settled, "webhook", None);
      }
    }

    method ApplyFailed(ref: string, reason: Option<string>)
      modifies this`refunds, this`log
      ensures View() == Statements.ApplyFailed(old(View()), ref, reason)
    {
      var found := Statements.FindRef(View(), ref);
      if found.Some? && Statements.FailedApplies(refunds[found.value].status) {
        var from := Statements.LastLogged(log, found.value);
        refunds := refunds[found.value := refunds[found.value].(status := Failed, failureReason := reason)];
        RecordTransition(found.value, from, Failed, "webhook", reason);
      }
    }

    method InsertRefund(id: Uuid, row: Refund, entry: Transition)
      requires id !in refunds
      modifies this`refunds, this`created, this`log
      ensures View() == Statements.InsertRefund(old(View()), id, row, entry, |old(created)|)
    {
      refunds := refunds[id := row];
      created := created + [id];
      log := log + [entry];
    }
  }

  method RequestRefund(
      pool: Database, refundId: Uuid, chargeId: Uuid, amountCents: int, currency: string, actor: string,
      reasonCode: Option<string>) returns (r: Result<Uuid, RefundError>)
    requires FitsI64(amountCents)
    modifies pool
    ensures var q := Request(refundId, chargeId, amountCents, currency, actor, reasonCode);
      var (db, reply) := Operations.RequestRefund(old(pool.View()), q);
      pool.View() == db && reply == (if r.Ok? then Refunded(r.value) else Rejected(r.error))
  {
    if chargeId !in pool.charges {
      return Err(ChargeNotFound(chargeId));
    }
    var charge := pool.charges[chargeId];
    var refundedSoFar := LiveSum(pool.View(), chargeId);
    if !FitsI64(refundedSoFar) {
      return Err(DbError(BigintOutOfRange));
    }
    if currency != charge.currency {
      return Err(CurrencyMismatch(currency, charge.currency));
    }
    var remaining := Wrap64(charge.amountCaptured - refundedSoFar);
    if amountCents > remaining {
      return Err(OverRefund(chargeId, amountCents, remaining));
    }
    var initialStatus := if amountCents >= REVIEW_THRESHOLD_CENTS then PendingReview else Requested;
    if amountCents <= 0 {
      return Err(DbError(CheckViolation));
    }
    if refundId in pool.refunds {
      return Err(DbError(PrimaryKeyViolation));
    }
    var row := Refund(chargeId, amountCents, currency, None, initialStatus, reasonCode, actor, None);
    pool.InsertRefund(refundId, row, Transition(refundId, None, initialStatus, actor, reasonCode));
    r := Ok(refundId);
    ghost var created := old(pool.created);
    assert pool.View().created == created[..|created|] + [refundId] + created[|created|..];
  }

  method Approve(pool: Database, refundId: Uuid, approver: string) returns (r: Result<(), RefundError>)
    modifies pool
    ensures var (db, reply) := Operations.Approve(old(pool.View()), refundId, approver);
      pool.View() == db && reply == (if r.Ok? then Approval else Rejected(r.error))
  {
    var found := pool.GetRefund(refundId);
    if found.Err? {
      return Err(found.error);
    }
    var refund := found.value;
    if refund.status != PendingReview {
      return Err(NotPendingReview(refundId));
    }
    if approver == refund.requestedBy {
      return Err(SeparationOfDuties(approver));
    }
    pool.MarkApproved(refundId);
    pool.RecordTransition(refundId, Some(PendingReview), Requested, "approver:" + approver, None);
    r := Ok(());
  }

  method SubmitRefund(pool: Database, refundId: Uuid, gateway: MockGateway) returns (r: Result<bool, RefundError>)
    modifies pool, gateway
    ensures var (db, gw, reply) := Operations.Submit(
        old(pool.View()), old(gateway.State()), refundId, old(gateway.config));
      && pool.View() == db && gateway.State() == gw
      && reply == (if r.Ok? then Submission(r.value) else Rejected(r.error))
    ensures gateway.config == old(gateway.config)
  {
    var found := pool.GetRefund(refundId);
    if found.Err? {
      return Err(found.error);
    }
    var row := found.value;
    if row.status == Settled || row.status == Failed || row.status == Canceled {
      return Ok(false);
    }
    if row.status == PendingReview {
      return Ok(false);
    }
    pool.MarkSubmitted(refundId);
    if row.status != Submitted {
      pool.RecordTransition(refundId, Some(row.status), Submitted, "job:submit", None);
    }
    var outcome := gateway.CreateRefund(row.amountCents, row.currency, refundId);
    match outcome {
      case Dropped => return Ok(false);
      case TimedOut => return Ok(false);
      case Accepted(gw) =>
        var ok := pool.RecordRef(refundId, gw.id);
        if !ok {
          return Err(DbError(UniqueRefViolation));
        }
        return Ok(true);
    }
  }

  method HandleWebhook(pool: Database, event: Statements.WebhookEvent, verified: bool)
    returns (r: Result<WebhookResult, RefundError>)
    modifies pool
    ensures var (db, reply) := Operations.HandleWebhook(old(pool.View()), event, verified);
      pool.View() == db && reply == (if r.Ok? then Webhook(r.value) else Rejected(r.error))
  {
    if !verified {
      return Err(BadSignature);
    }
    var inserted := pool.RegisterEvent(event.id);
    if !inserted {
      assert pool.events == old(pool.events);
      return Ok(Duplicate);
    }
    if event.eventType == "refund.settled" {
      pool.ApplySettled(event.gatewayRef);
    } else if event.eventType == "refund.failed" {
      pool.ApplyFailed(event.gatewayRef, event.reason);
    }
    r := Ok(Applied);
  }

  /** The body of the walk's loop: one row recovered and counted. */
  method RecoverRow(pool: Database, gateway: MockGateway, refundId: Uuid, status: Status, report: RecoveryReport)
    returns (counted: RecoveryReport, fault: Option<RefundError>)
    modifies pool, gateway
    ensures var (db, gw, done) := Operations.RecoverOne(
        old(pool.View()), old(gateway.State()), Statements.Stuck(refundId, status), old(gateway.config));
      && pool.View() == db && gateway.State() == gw
      && (fault.None? <==> done.Some?)
      && (fault.None? ==> counted == Operations.Counted(report, done.value))
    ensures fault.Some? ==> fault.value == DbError(
      if refundId !in old(gateway.store) && refundId !in old(pool.refunds) then RowNotFound else UniqueRefViolation)
    ensures gateway.config == old(gateway.config)
  {
    counted, fault := report.(walked := report.walked + 1), None;
    var held := gateway.LookupByKey(refundId);
    if held.Some? {
      var ok := pool.RecoverRef(refundId, held.value.id);
      if !ok {
        return counted, Some(DbError(UniqueRefViolation));
      }
      pool.RecordTransition(refundId, Some(status), Submitted, "job:recover", None);
      counted := counted.(alreadyAtGateway := counted.alreadyAtGateway + 1);
    } else {
      if refundId !in pool.refunds {
        return counted, Some(DbError(RowNotFound));
      }
      var row := pool.refunds[refundId];
      pool.MarkSubmitted(refundId);
      var outcome := gateway.CreateRefund(row.amountCents, row.currency, refundId);
      if outcome.Accepted? {
        var ok := pool.RecordRef(refundId, outcome.refund.id);
        if !ok {
          return counted, Some(DbError(UniqueRefViolation));
        }
      }
      pool.RecordTransition(refundId, Some(status), Submitted, "job:recover-resubmit", None);
      counted := counted.(resubmitted := counted.resubmitted + 1);
    }
  }

  /** The gateway's configuration in force for each of `n` rows. */
  function Steady(n: nat, config: MockConfig): seq<MockConfig> {
    seq(n, _ => config)
  }

  type Outcome = (Db, GatewayState, Option<RecoveryReport>)

  /** Walking on from row `i` ends in `goal`. */
  predicate Remaining(
    db: Db, gw: GatewayState, stuck: seq<Statements.Stuck>, i: nat, report: RecoveryReport, config: MockConfig,
    goal: Outcome)
  {
    i <= |stuck| && goal == Operations.RecoverAll(db, gw, stuck[i..], report, Steady(|stuck| - i, config))
  }

  /** One turn of the walk. */
  lemma WalkOne(
    db: Db, gw: GatewayState, stuck: seq<Statements.Stuck>, i: nat, report: RecoveryReport, config: MockConfig,
    goal: Outcome)
    requires i < |stuck| && Remaining(db, gw, stuck, i, report, config, goal)
    ensures var one := Operations.RecoverOne(db, gw, stuck[i], config);
      if one.2.None? then goal == (one.0, one.1, None)
      else Remaining(one.0, one.1, stuck, i + 1, Operations.Counted(report, one.2.value), config, goal)
  {
    var rest := Steady(|stuck| - i, config);
    assert Operations.First(rest) == config && Operations.Rest(rest) == Steady(|stuck| - i - 1, config);
    assert stuck[i..][0] == stuck[i] && stuck[i..][1..] == stuck[i + 1..];
  }

  lemma WalkStarts(db: Db, gw: GatewayState, config: MockConfig)
    ensures var stuck := Statements.SelectStuck(db);
      Remaining(db, gw, stuck, 0, NO_REPORT, config, Operations.Recover(db, gw, Steady(|stuck|, config)))
  {
    var stuck := Statements.SelectStuck(db);
    assert stuck[0..] == stuck;
  }

  lemma WalkEnds(
    db: Db, gw: GatewayState, stuck: seq<Statements.Stuck>, report: RecoveryReport, config: MockConfig, goal: Outcome)
    requires Remaining(db, gw, stuck, |stuck|, report, config, goal)
    ensures goal == (db, gw, Some(report))
  {
  }

  method RecoverSubmitted(pool: Database, gateway: MockGateway) returns (r: Result<RecoveryReport, RefundError>)
    modifies pool, gateway
    ensures var n := |Statements.SelectStuck(old(pool.View()))|;
      (pool.View(), gateway.State(), if r.Ok? then Some(r.value) else None)
      == Operations.Recover(old(pool.View()), old(gateway.State()), Steady(n, old(gateway.config)))
    ensures r.Err? ==> r.error == DbError(RowNotFound) || r.error == DbError(UniqueRefViolation)
    ensures gateway.config == old(gateway.config)
  {
    var report := NO_REPORT;
    var stuck := Statements.SelectStuck(pool.View());
    ghost var config := gateway.config;
    ghost var goal := Operations.Recover(pool.View(), gateway.State(), Steady(|stuck|, config));
    WalkStarts(pool.View(), gateway.State(), config);
    var i := 0;
    while i < |stuck|
      invariant 0 <= i <= |stuck|
      invariant gateway.config == config
      invariant Remaining(pool.View(), gateway.State(), stuck, i, report, config, goal)
    {
      WalkOne(pool.View(), gateway.State(), stuck, i, report, config, goal);
      assert Statements.Stuck(stuck[i].id, stuck[i].status) == stuck[i];
      var counted, fault := RecoverRow(pool, gateway, stuck[i].id, stuck[i].status, report);
      if fault.Some? {
        return Err(fault.value);
      }
      report := counted;
      i := i + 1;
    }
    WalkEnds(pool.View(), gateway.State(), stuck, report, config, goal);
    r := Ok(report);
  }
}
