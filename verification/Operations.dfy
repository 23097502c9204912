/** The engine's operations run from start to end without interruption, as functions on the tables
    and the gateway. Each one is an uninterrupted run of the protocol's actor of that kind. */
module Operations {
  import opened Outcomes
  import opened Errors
  import opened Ledger
  import opened Gateway
  import opened Statements
  import opened Invariant
  import opened Protocol
  import opened ProtocolInvariant

  function RequestRefund(db: Db, q: Request): (Db, Reply) {
    if q.chargeId !in db.charges then (db, Rejected(ChargeNotFound(q.chargeId)))
    else
      var charge, sum := db.charges[q.chargeId], LiveSum(db, q.chargeId);
      if !FitsI64(sum) then (db, Rejected(DbError(BigintOutOfRange)))
      else if q.currency != charge.currency then (db, Rejected(CurrencyMismatch(q.currency, charge.currency)))
      else
        var remaining := Wrap64(charge.amountCaptured - sum);
        if q.amountCents > remaining then (db, Rejected(OverRefund(q.chargeId, q.amountCents, remaining)))
        else if q.amountCents <= 0 then (db, Rejected(DbError(CheckViolation)))
        else if q.refundId in db.refunds then (db, Rejected(DbError(PrimaryKeyViolation)))
        else
          var initial := InitialStatus(q.amountCents);
          (InsertRefund(db, q.refundId, NewRow(q, initial), FirstEntry(q, initial), |db.created|), Refunded(q.refundId))
  }

  function Approve(db: Db, id: Uuid, approver: string): (Db, Reply) {
    if id !in db.refunds then (db, Rejected(RefundNotFound(id)))
    else if !db.refunds[id].status.PendingReview? then (db, Rejected(NotPendingReview(id)))
    else if approver == db.refunds[id].requestedBy then (db, Rejected(SeparationOfDuties(approver)))
    else (AppendLog(MarkApproved(db, id), ApprovalEntry(id, approver)), Approval)
  }

  function Submit(db: Db, gw: GatewayState, id: Uuid, config: MockConfig): (Db, GatewayState, Reply) {
    if id !in db.refunds then (db, gw, Rejected(RefundNotFound(id)))
    else
      var row := db.refunds[id];
      if IsTerminal(row.status) || row.status.PendingReview? then (db, gw, Submission(false))
      else
        var marked := MarkSubmitted(db, id);
        var logged := if row.status.Submitted? then marked else AppendLog(marked, SubmitEntry(id, row.status));
        var (after, outcome) := Create(gw, row.amountCents, row.currency, id, config);
        if !outcome.Accepted? then (logged, after, Submission(false))
        else
          match RecordRef(logged, id, outcome.refund.id)
          case None => (logged, after, Rejected(DbError(UniqueRefViolation)))
          case Some(recorded) => (recorded, after, Submission(true))
  }

  /** Recovery of one stuck row. The flag says the gateway already held the key; `None` means the
      database refused a statement, after whatever came before it took effect. */
  function RecoverOne(db: Db, gw: GatewayState, k: Stuck, config: MockConfig): (Db, GatewayState, Option<bool>) {
    if k.id in gw.store then
      match RecoverRef(db, k.id, gw.store[k.id].id)
      case None => (db, gw, None)
      case Some(recorded) => (AppendLog(recorded, RecoverEntry(k, "job:recover")), gw, Some(true))
    else if k.id !in db.refunds then (db, gw, None)
    else
      var marked := MarkSubmitted(db, k.id);
      var (after, outcome) := Create(gw, db.refunds[k.id].amountCents, db.refunds[k.id].currency, k.id, config);
      var entry := RecoverEntry(k, "job:recover-resubmit");
      if !outcome.Accepted? then (AppendLog(marked, entry), after, Some(false))
      else
        match RecordRef(marked, k.id, outcome.refund.id)
        case None => (marked, after, None)
        case Some(recorded) => (AppendLog(recorded, entry), after, Some(false))
  }

  /** How the gateway behaves when the first row of what is left is walked. A list that runs out
      means a healthy gateway from there on. */
  function First(configs: seq<MockConfig>): MockConfig {
    if configs == [] then HEALTHY else configs[0]
  }

  function Rest(configs: seq<MockConfig>): seq<MockConfig> {
    if configs == [] then [] else configs[1..]
  }

  function ConfigAt(configs: seq<MockConfig>, i: nat): MockConfig {
    if i < |configs| then configs[i] else HEALTHY
  }

  function Counted(report: RecoveryReport, found: bool): RecoveryReport {
    RecoveryReport(
      report.alreadyAtGateway + if found then 1 else 0,
      report.resubmitted + if found then 0 else 1,
      report.walked + 1)
  }

  function RecoverAll(
      db: Db, gw: GatewayState, todo: seq<Stuck>, report: RecoveryReport, configs: seq<MockConfig>)
    : (Db, GatewayState, Option<RecoveryReport>)
    decreases |todo|
  {
    if todo == [] then (db, gw, Some(report))
    else
      var (db', gw', done) := RecoverOne(db, gw, todo[0], First(configs));
      if done.None? then (db', gw', None)
      else RecoverAll(db', gw', todo[1..], Counted(report, done.value), Rest(configs))
  }

  function Recover(db: Db, gw: GatewayState, configs: seq<MockConfig>): (Db, GatewayState, Option<RecoveryReport>) {
    RecoverAll(db, gw, SelectStuck(db), NO_REPORT, configs)
  }

  function HandleWebhook(db: Db, event: WebhookEvent, verified: bool): (Db, Reply) {
    if !verified then (db, Rejected(BadSignature))
    else if event.id in db.events then (db, Webhook(Duplicate))
    else (ApplyEvent(InsertEvent(db, event.id), event), Webhook(Applied))
  }

  // ---- an operation is its actor, run alone ----

  function Alone(w: World, a: Actor, choices: seq<Choice>): (World, Actor)
    decreases |choices|
  {
    if choices == [] then (w, a)
    else
      var (x, b) := Act(w, a, choices[0]);
      Alone(x, b, choices[1..])
  }

  lemma {:induction false} AloneKeepsInv(w: World, a: Actor, choices: seq<Choice>)
    requires LedgerInv(w) && ActorInv(w, a)
    ensures var (x, b) := Alone(w, a, choices); LedgerInv(x) && ActorInv(x, b)
    decreases |choices|
  {
    if choices != [] {
      var (x, b) := Act(w, a, choices[0]);
      ActStep(w, a, choices[0], x, b);
      AloneKeepsInv(x, b, choices[1..]);
    }
  }

  lemma {:induction false} AloneAppend(w: World, a: Actor, first: seq<Choice>, second: seq<Choice>)
    ensures Alone(w, a, first + second) == Alone(Alone(w, a, first).0, Alone(w, a, first).1, second)
    decreases |first|
  {
    if first == [] {
      assert first + second == second;
    } else {
      assert (first + second)[1..] == first[1..] + second;
      var (x, b) := Act(w, a, first[0]);
      AloneAppend(x, b, first[1..], second);
    }
  }

  lemma OneMore(w: World, a: Actor, c: Choice, rest: seq<Choice>)
    ensures Alone(w, a, [c] + rest) == (var (x, b) := Act(w, a, c); Alone(x, b, rest))
  {
    assert ([c] + rest)[1..] == rest;
  }

  function Times(n: nat, c: Choice): seq<Choice> {
    seq(n, _ => c)
  }

  /** One of `n` steps under the same choice, to a known place. */
  lemma StepTo(w: World, a: Actor, n: nat, c: Choice, x: World, b: Actor)
    requires n > 0 && Act(w, a, c) == (x, b)
    ensures Alone(w, a, Times(n, c)) == Alone(x, b, Times(n - 1, c))
  {
    assert Times(n, c) == [c] + Times(n - 1, c);
    OneMore(w, a, c, Times(n - 1, c));
  }

  lemma {:induction false} DoneStays(w: World, reply: Reply, n: nat, c: Choice)
    ensures Alone(w, Done(reply), Times(n, c)) == (w, Done(reply))
  {
    if n > 0 {
      StepTo(w, Done(reply), n, c, w, Done(reply));
      DoneStays(w, reply, n - 1, c);
    }
  }

  /** The last of `n` steps: whatever is left over does nothing. */
  lemma EndsAt(w: World, a: Actor, n: nat, c: Choice, x: World, reply: Reply)
    requires n > 0 && Act(w, a, c) == (x, Done(reply))
    ensures Alone(w, a, Times(n, c)) == (x, Done(reply))
  {
    StepTo(w, a, n, c, x, Done(reply));
    DoneStays(x, reply, n - 1, c);
  }
}
