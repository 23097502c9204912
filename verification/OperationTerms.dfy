/** The remaining operations and the transition system in plain terms: the answers of `approve`, the gateway's
    answers and the refs it prints, the life of a status, and what may happen at any moment. */
module OperationTerms {
  import opened Outcomes
  import opened Errors
  import opened Ledger
  import opened GatewayRef
  import opened Gateway
  import opened Statements
  import opened Protocol
  import opened ProtocolTheorems
  import opened Operations
  import opened Verdicts

  // ---- approve ----

  /** An approval goes through if and only if the refund is in review and the approver is not its requester; it
      writes the status and one audit row naming the approver, and nothing else. */
  lemma ApproveIff(db: Db, id: Uuid, approver: string)
    ensures Approve(db, id, approver).1 == Approval <==>
      id in db.refunds && db.refunds[id].status == PendingReview && db.refunds[id].requestedBy != approver
    ensures Approve(db, id, approver).1 == Approval ==>
      Approve(db, id, approver).0 == Db(
        charges := db.charges,
        refunds := db.refunds[id := db.refunds[id].(status := Requested)],
        created := db.created,
        log := db.log + [Transition(
          refundId := id,
          from := Some(PendingReview),
          to := Requested,
          actor := "approver:" + approver,
          reason := None)],
        events := db.events)
  {
  }

  /** Otherwise it changes nothing and says why. */
  lemma ApproveRefuses(db: Db, id: Uuid, approver: string)
    requires Approve(db, id, approver).1 != Approval
    ensures Approve(db, id, approver).0 == db
    ensures Approve(db, id, approver).1 == Rejected(
      if id !in db.refunds then RefundNotFound(id)
      else if db.refunds[id].status != PendingReview then NotPendingReview(id)
      else SeparationOfDuties(approver))
  {
  }

  // ---- statements ----

  /** The two guarded status updates, whether they match or not. */
  lemma GuardedUpdates(db: Db, id: Uuid)
    ensures id in db.refunds && (db.refunds[id].status == Requested || db.refunds[id].status == Submitted) ==>
      MarkSubmitted(db, id) == db.(refunds := db.refunds[id := db.refunds[id].(status := Submitted)])
    ensures !(id in db.refunds && (db.refunds[id].status == Requested || db.refunds[id].status == Submitted)) ==>
      MarkSubmitted(db, id) == db
    ensures id in db.refunds && db.refunds[id].status == PendingReview ==>
      MarkApproved(db, id) == db.(refunds := db.refunds[id := db.refunds[id].(status := Requested)])
    ensures !(id in db.refunds && db.refunds[id].status == PendingReview) ==> MarkApproved(db, id) == db
  {
  }

  /** A ref is written only where none is, unless another row carries it; recovery's form writes the status too. */
  lemma RefUpdates(db: Db, id: Uuid, ref: string)
    ensures !(id in db.refunds && db.refunds[id].gatewayRef == None) ==>
      RecordRef(db, id, ref) == Some(db) == RecoverRef(db, id, ref)
    ensures id in db.refunds && db.refunds[id].gatewayRef == None ==>
      if exists other :: other in db.refunds && other != id && db.refunds[other].gatewayRef == Some(ref)
      then RecordRef(db, id, ref) == None == RecoverRef(db, id, ref)
      else
        && RecordRef(db, id, ref)
           == Some(db.(refunds := db.refunds[id := db.refunds[id].(gatewayRef := Some(ref))]))
        && RecoverRef(db, id, ref)
           == Some(db.(refunds := db.refunds[id := db.refunds[id].(gatewayRef := Some(ref), status := Submitted)]))
  {
  }

  // ---- the gateway ----

  /** A known key changes nothing, whatever the gateway is up to, and gets the entry on file unless the response is
      dropped. */
  lemma KnownKey(gw: GatewayState, amount: int, currency: string, key: Uuid, dropResponse: bool, timeOut: bool)
    requires key in gw.store
    ensures Create(gw, amount, currency, key, MockConfig(dropResponse, timeOut))
         == (gw, if dropResponse then Dropped else Accepted(gw.store[key]))
  {
  }

  /** A new key times out with nothing recorded, or is filed under the next ref with the amount and currency asked
      for and counted once; only then may the response still be dropped. */
  lemma NewKey(gw: GatewayState, amount: int, currency: string, key: Uuid, dropResponse: bool)
    requires key !in gw.store
    ensures Create(gw, amount, currency, key, MockConfig(dropResponse, true)) == (gw, TimedOut)
    ensures var refund := GatewayRefund(
        id := FormatRef(gw.counter + 1), amount := amount, currency := currency, idempotencyKey := key);
      Create(gw, amount, currency, key, MockConfig(dropResponse, false))
      == (GatewayState(store := gw.store[key := refund], counter := gw.counter + 1, issued := gw.issued + 1),
          if dropResponse then Dropped else Accepted(refund))
  {
  }

  lemma HealthyMeans()
    ensures HEALTHY == MockConfig(dropResponse := false, timeOut := false)
  {
  }

  // ---- refs ----

  predicate AllDigits(digits: string) {
    forall i :: 0 <= i < |digits| ==> '0' <= digits[i] <= '9'
  }

  lemma {:induction false} DecimalIsDigits(n: nat)
    ensures AllDigits(Decimal(n)) && |Decimal(n)| >= 1 && (n > 0 ==> Decimal(n)[0] != '0')
  {
    if n >= 10 {
      DecimalIsDigits(n / 10);
    }
  }

  /** A ref is `re_mock_` and at least eight decimal digits, with leading zeros only to make up eight. */
  lemma RefShape(n: nat)
    ensures var ref := FormatRef(n);
      && |ref| >= 16 && ref[..8] == "re_mock_" && AllDigits(ref[8..])
      && (|ref| > 16 ==> ref[8] != '0')
  {
    DecimalIsDigits(n);
    assert FormatRef(n)[8..] == Padded(n);
    if |Decimal(n)| > 8 {
      DecimalTooLong(n);
    }
  }

  lemma DecimalTooLong(n: nat)
    requires |Decimal(n)| > 8
    ensures n > 0
  {
  }

  lemma FirstRefs()
    ensures FormatRef(1) == "re_mock_00000001"
    ensures FormatRef(42) == "re_mock_00000042"
  {
    assert Decimal(1) == "1" && Zeros(7) == "0000000";
    assert Decimal(4) == "4" && Decimal(42) == "42" && Zeros(6) == "000000";
  }

  // ---- statuses ----

  /** A refund's life in any run: it starts in review or requested, goes to submitted and then to one verdict, never
      back and never anywhere else. */
  lemma StatusesOnlyMoveOn(states: seq<State>, moves: seq<Move>, i: nat, id: Uuid)
    requires IsRunFromStart(states, moves) && i < |moves| && id in states[i].w.db.refunds
    ensures id in states[i + 1].w.db.refunds
    ensures var before, after := states[i].w.db.refunds[id].status, states[i + 1].w.db.refunds[id].status;
      || after == before
      || (before == PendingReview && after == Requested)
      || (before == Requested && after == Submitted)
      || (before == Submitted && (after == Settled || after == Failed))
  {
    StepSimulatesStatusMachine(states, moves, i, id);
  }

  /** No run produces `canceled`. */
  lemma NothingIsCanceled(states: seq<State>, moves: seq<Move>, i: nat, id: Uuid)
    requires IsRunFromStart(states, moves) && i <= |moves| && id in states[i].w.db.refunds
    ensures states[i].w.db.refunds[id].status != Canceled
  {
    VerdictIsFirstDecision(states, moves, i, id);
  }

  /** What a logged status says of the row, then and later. */
  lemma LoggedMeansReached(states: seq<State>, moves: seq<Move>, i: nat, j: nat, e: Transition)
    requires IsRunFromStart(states, moves) && i <= j <= |moves| && e in states[i].w.db.log
    ensures e.refundId in states[j].w.db.refunds
    ensures var s := states[j].w.db.refunds[e.refundId].status;
      && (e.to == Settled ==> s == Settled)
      && (e.to == Failed ==> s == Failed)
      && (e.to == Submitted ==> s == Submitted || s == Settled || s == Failed)
      && (e.to == Requested ==> s != PendingReview)
  {
    AuditNeverAhead(states, moves, i, j, e);
    NothingIsCanceled(states, moves, j, e.refundId);
  }

  // ---- what may happen ----

  /** Nothing is kept from happening that the world could do: anyone may crash at any moment, any operation may be
      started by anyone new, and every actor may take its next step under any gateway behaviour, unless it is about
      to take the row lock of a charge that another request holds. */
  lemma AnythingMayHappen(s: State, who: nat, choice: Choice)
    ensures Enabled(s, Crash(who)) <==> who in s.actors
    ensures who !in s.actors ==>
      && (forall id, approver :: Enabled(s, Spawn(who, ApproveBegin(id, approver))))
      && (forall id :: Enabled(s, Spawn(who, SubmitBegin(id))))
      && Enabled(s, Spawn(who, RecoverBegin))
      && (forall event, verified :: Enabled(s, Spawn(who, HookBegin(event, verified))))
      && (forall q: Request :: -0x8000_0000_0000_0000 <= q.amountCents <= 0x7fff_ffff_ffff_ffff ==>
            Enabled(s, Spawn(who, RequestBegin(q))))
    ensures who in s.actors && !s.actors[who].RequestBegin? ==> Enabled(s, Step(who, choice))
    ensures who in s.actors && s.actors[who].RequestBegin? ==>
      (Enabled(s, Step(who, choice)) <==>
         forall other :: other in s.actors ==> !HoldsLock(s.actors[other], s.actors[who].q.chargeId))
    ensures forall c, charge: Charge ::
      c !in s.w.db.charges && 0 <= charge.amountCaptured <= 0x7fff_ffff_ffff_ffff ==> Enabled(s, NewCharge(c, charge))
  {
    if who in s.actors && s.actors[who].RequestBegin? {
      forall other | other in s.actors
        ensures HoldsLock(s.actors[other], s.actors[who].q.chargeId)
           <==> Holds(s.actors[other]) == Some(s.actors[who].q.chargeId)
      {
      }
    }
  }

  /** A request past its first statement keeps the lock until it commits or dies. */
  predicate HoldsLock(a: Actor, c: Uuid) {
    && (a.RequestLocked? || a.RequestSummed? || a.RequestChecked? || a.RequestInserted? || a.RequestAudited?)
    && a.q.chargeId == c
  }

  /** A crash takes the actor away and leaves tables and gateway as they are. */
  lemma CrashLeavesWorld(s: State, who: nat)
    requires who in s.actors
    ensures Next(s, Crash(who)).w == s.w
    ensures Next(s, Crash(who)).actors == s.actors - {who}
  {
  }
}
