/** What every run of the interleaved, crashing protocol guarantees. */
module ProtocolTheorems {
  import opened Outcomes
  import opened Errors
  import opened Ledger
  import opened Gateway
  import opened Invariant
  import opened Protocol
  import opened ProtocolInvariant

  lemma ActorInvAt(states: seq<State>, moves: seq<Move>, i: nat, who: nat)
    requires IsRunFromStart(states, moves) && i <= |moves| && who in states[i].actors
    ensures ActorInv(states[i].w, states[i].actors[who])
  {
    ReachableInv(states, moves, i);
  }

  // ---- money ----

  function MovedAmount(w: World, id: Uuid, charge: Uuid): int {
    if id in w.gw.store && id in w.db.refunds && w.db.refunds[id].chargeId == charge && IsLive(w.db.refunds[id].status)
    then w.gw.store[id].amount else 0
  }

  /** What the gateway holds for a charge's refunds that have not failed. */
  function MovedSumOver(ids: seq<Uuid>, w: World, charge: Uuid): int {
    if ids == [] then 0 else MovedAmount(w, ids[0], charge) + MovedSumOver(ids[1..], w, charge)
  }

  lemma {:induction false} MovedWithinLive(ids: seq<Uuid>, w: World, charge: Uuid)
    requires RowsOk(w)
    ensures 0 <= MovedSumOver(ids, w, charge) <= LiveSumOver(ids, w.db.refunds, charge)
  {
    if ids != [] {
      if ids[0] in w.db.refunds {
        assert RowOk(w, ids[0], w.db.refunds[ids[0]]);
      }
      MovedWithinLive(ids[1..], w, charge);
    }
  }

  /** End to end, in every reachable state: for each charge, what the gateway moved stays within the
      live sum of the rows, which stays within what was captured. The listing summed over holds every
      refund once, and every gateway entry belongs to one of them. */
  lemma MoneyBound(states: seq<State>, moves: seq<Move>, i: nat, c: Uuid)
    requires IsRunFromStart(states, moves) && i <= |moves| && c in states[i].w.db.charges
    ensures var w := states[i].w;
      && 0 <= MovedSumOver(w.db.created, w, c) <= LiveSum(w.db, c) <= w.db.charges[c].amountCaptured <= I64_MAX
      && NoDuplicates(w.db.created)
      && (forall id :: id in w.gw.store ==> id in w.db.created)
  {
    ReachableInv(states, moves, i);
    var w := states[i].w;
    MovedWithinLive(w.db.created, w, c);
    assert ChargeOk(w.db, c);
  }

  // ---- monotonicity ----

  /** What any number of moves may do to a row. */
  predicate RowLater(before: Refund, after: Refund) {
    && after.chargeId == before.chargeId
    && after.amountCents == before.amountCents
    && after.currency == before.currency
    && after.requestedBy == before.requestedBy
    && Rank(before.status) <= Rank(after.status)
    && (IsTerminal(before.status) ==> after.status == before.status)
    && (before.gatewayRef.Some? ==> after.gatewayRef == before.gatewayRef)
  }

  predicate Later(w: World, x: World) {
    && (forall c :: c in w.db.charges ==> c in x.db.charges && x.db.charges[c] == w.db.charges[c])
    && (forall id :: id in w.db.refunds ==> id in x.db.refunds && RowLater(w.db.refunds[id], x.db.refunds[id]))
    && StoreGrows(w.gw, x.gw)
    && w.db.log <= x.db.log
    && w.db.events <= x.db.events
  }

  lemma LaterThenMove(w: World, x: World, y: World, inserting: Option<Uuid>)
    requires Later(w, x) && Evolves(x, y, inserting)
    ensures Later(w, y)
  {
    forall id | id in w.db.refunds
      ensures id in y.db.refunds && RowLater(w.db.refunds[id], y.db.refunds[id])
    {
      assert RowMove(x.db.refunds[id], y.db.refunds[id]);
    }
  }

  /** Over any stretch of any run, ranks never decrease, `settled` and `failed` are absorbing, refs,
      gateway entries, amounts and the log are never rewritten. */
  lemma {:induction false} RunIsMonotone(states: seq<State>, moves: seq<Move>, i: nat, j: nat)
    requires IsRunFromStart(states, moves) && i <= j <= |moves|
    ensures Later(states[i].w, states[j].w)
    decreases j
  {
    if i < j {
      RunIsMonotone(states, moves, i, j - 1);
      RunEvolves(states, moves, j - 1);
      LaterThenMove(states[i].w, states[j - 1].w, states[j].w, InsertingBy(states[j - 1], moves[j - 1]));
    }
  }

  lemma RunEvolves(states: seq<State>, moves: seq<Move>, i: nat)
    requires IsRunFromStart(states, moves) && i < |moves|
    ensures Evolves(states[i].w, states[i + 1].w, InsertingBy(states[i], moves[i]))
  {
    ReachableInv(states, moves, i);
    assert IsStepAt(states, moves, i);
    NextKeepsInv(states[i], moves[i]);
  }

  /** Every move, seen from one refund, is a step or a stutter of the status machine. */
  lemma StepSimulatesStatusMachine(states: seq<State>, moves: seq<Move>, i: nat, id: Uuid)
    requires IsRunFromStart(states, moves) && i < |moves| && id in states[i].w.db.refunds
    ensures id in states[i + 1].w.db.refunds
    ensures StatusMove(states[i].w.db.refunds[id].status, states[i + 1].w.db.refunds[id].status)
  {
    RunEvolves(states, moves, i);
    RowKept(states[i].w, states[i + 1].w, id);
  }

  /** The gateway creates an entry only at a moment its row is `submitted`, and for that row's amount. */
  lemma MoneyMovesOnlyForSubmitted(states: seq<State>, moves: seq<Move>, i: nat, key: Uuid)
    requires IsRunFromStart(states, moves) && i < |moves|
    requires key in states[i + 1].w.gw.store && key !in states[i].w.gw.store
    ensures key in states[i].w.db.refunds && states[i].w.db.refunds[key].status == Submitted
    ensures states[i + 1].w.gw.store[key].amount == states[i].w.db.refunds[key].amountCents
    ensures states[i + 1].w.gw.store[key].currency == states[i].w.db.refunds[key].currency
  {
    RunEvolves(states, moves, i);
    ReachableInv(states, moves, i + 1);
    var x := states[i + 1].w;
    RowKept(states[i].w, x, key);
    assert RowOk(x, key, x.db.refunds[key]);
  }

  /** Once a row is settled or failed, nothing moves for it: its verdict and its one gateway entry
      stay, whatever stale submitters, recoverers and late webhooks still do. */
  lemma TerminalIsFinal(states: seq<State>, moves: seq<Move>, i: nat, j: nat, id: Uuid)
    requires IsRunFromStart(states, moves) && i <= j <= |moves|
    requires id in states[i].w.db.refunds && IsTerminal(states[i].w.db.refunds[id].status)
    ensures id in states[j].w.db.refunds && states[j].w.db.refunds[id].status == states[i].w.db.refunds[id].status
    ensures id in states[i].w.gw.store && id in states[j].w.gw.store
    ensures states[j].w.gw.store[id] == states[i].w.gw.store[id]
  {
    RunIsMonotone(states, moves, i, j);
    ReachableInv(states, moves, i);
    assert RowOk(states[i].w, id, states[i].w.db.refunds[id]);
  }

  // ---- ledger and gateway agree ----

  /** A recorded ref is the gateway's own id for that refund's key, with the same money. */
  lemma RefsAgree(states: seq<State>, moves: seq<Move>, i: nat, id: Uuid)
    requires IsRunFromStart(states, moves) && i <= |moves| && id in states[i].w.db.refunds
    requires states[i].w.db.refunds[id].gatewayRef.Some?
    ensures var w := states[i].w; var r := w.db.refunds[id];
      && Rank(r.status) >= Rank(Submitted)
      && id in w.gw.store
      && w.gw.store[id] == GatewayRefund(r.gatewayRef.value, r.amountCents, r.currency, id)
  {
    ReachableInv(states, moves, i);
    assert RowOk(states[i].w, id, states[i].w.db.refunds[id]);
  }

  /** Every key the gateway knows is a persisted row that was at least submitted. */
  lemma KeysAgree(states: seq<State>, moves: seq<Move>, i: nat, key: Uuid)
    requires IsRunFromStart(states, moves) && i <= |moves| && key in states[i].w.gw.store
    ensures var w := states[i].w;
      && key in w.db.refunds
      && Rank(w.db.refunds[key].status) >= Rank(Submitted)
      && w.gw.store[key].amount == w.db.refunds[key].amountCents
      && w.gw.store[key].currency == w.db.refunds[key].currency
  {
    ReachableInv(states, moves, i);
    assert RowOk(states[i].w, key, states[i].w.db.refunds[key]);
  }

  /** The partial unique index on `gateway_ref`. */
  predicate RefsDistinct(db: Db) {
    forall a, b :: a in db.refunds && b in db.refunds && a != b && db.refunds[a].gatewayRef.Some? ==>
      db.refunds[a].gatewayRef != db.refunds[b].gatewayRef
  }

  lemma InvRefsDistinct(w: World)
    requires RowsOk(w) && IdsDistinct(w.gw.store)
    ensures RefsDistinct(w.db)
  {
    forall a, b | a in w.db.refunds && b in w.db.refunds && a != b && w.db.refunds[a].gatewayRef.Some?
      ensures w.db.refunds[a].gatewayRef != w.db.refunds[b].gatewayRef
    {
      assert RowOk(w, a, w.db.refunds[a]);
      assert RowOk(w, b, w.db.refunds[b]);
    }
  }

  /** No two rows ever carry the same ref, and no write ever runs into the unique index, a bigint
      overflow or a missing row: the database refuses nothing but bad amounts and reused ids. */
  lemma NoConstraintIsViolated(states: seq<State>, moves: seq<Move>, i: nat)
    requires IsRunFromStart(states, moves) && i <= |moves|
    ensures RefsDistinct(states[i].w.db)
    ensures forall who, fault :: who in states[i].actors && states[i].actors[who] == Done(Rejected(DbError(fault))) ==>
      fault == CheckViolation || fault == PrimaryKeyViolation
  {
    ReachableInv(states, moves, i);
    InvRefsDistinct(states[i].w);
    forall who, fault | who in states[i].actors && states[i].actors[who] == Done(Rejected(DbError(fault)))
      ensures fault == CheckViolation || fault == PrimaryKeyViolation
    {
      assert ActorInv(states[i].w, states[i].actors[who]);
    }
  }

  // ---- the row lock ----

  /** A requester that has summed read that very sum while it held the lock, and has held it since. */
  lemma {:induction false} SumWasRead(states: seq<State>, moves: seq<Move>, i: nat, who: nat) returns (j: nat)
    requires IsRunFromStart(states, moves) && i <= |moves|
    requires who in states[i].actors && states[i].actors[who].RequestSummed?
    ensures j < i && moves[j].Step? && moves[j].who == who
    ensures who in states[j].actors
    ensures var a := states[i].actors[who];
      && states[j].actors[who] == RequestLocked(a.q, a.captured, a.chargeCurrency)
      && a.refundedSoFar == LiveSum(states[j].w.db, a.q.chargeId)
    ensures forall k :: j < k <= i ==> who in states[k].actors && states[k].actors[who] == states[i].actors[who]
  {
    var m, s, a := moves[i - 1], states[i - 1], states[i].actors[who];
    assert IsStepAt(states, moves, i - 1);
    if m.Step? && m.who == who {
      assert Act(s.w, s.actors[who], m.choice).1 == a;
      SummedFromLocked(s.w, s.actors[who], m.choice);
      j := i - 1;
    } else {
      assert who in s.actors && s.actors[who] == a;
      j := SumWasRead(states, moves, i - 1, who);
    }
  }

  lemma SummedFromLocked(w: World, a: Actor, choice: Choice)
    requires Act(w, a, choice).1.RequestSummed?
    ensures var b := Act(w, a, choice).1;
      a == RequestLocked(b.q, b.captured, b.chargeCurrency) && b.refundedSoFar == LiveSum(w.db, b.q.chargeId)
  {
  }

  /** Every OverRefund rejection was justified: when the sum was read, under the lock, the amount
      really exceeded what remained, and the remainder reported is exact and never negative. */
  lemma OverRefundJustified(
    states: seq<State>, moves: seq<Move>, i: nat, who: nat, c: Uuid, requested: int, remaining: int)
    returns (j: nat)
    requires IsRunFromStart(states, moves) && i < |moves| && moves[i].Step? && moves[i].who == who
    requires who in states[i].actors && !states[i].actors[who].Done?
    requires who in states[i + 1].actors
    requires states[i + 1].actors[who] == Done(Rejected(OverRefund(c, requested, remaining)))
    ensures j < i && c in states[j].w.db.charges
    ensures remaining == states[j].w.db.charges[c].amountCaptured - LiveSum(states[j].w.db, c)
    ensures 0 <= remaining < requested
    ensures forall k :: j <= k <= i ==> who in states[k].actors && Holds(states[k].actors[who]) == Some(c)
  {
    var a := states[i].actors[who];
    assert IsStepAt(states, moves, i);
    assert a.RequestSummed?;
    j := SumWasRead(states, moves, i, who);
    ActorInvAt(states, moves, i, who);
    ActorInvAt(states, moves, j, who);
    Wrap64Exact(a.captured - a.refundedSoFar);
  }

  /** While one requester holds a charge's lock, no move of anyone else raises its live sum. */
  lemma LockFreezesSum(states: seq<State>, moves: seq<Move>, i: nat, who: nat, c: Uuid)
    requires IsRunFromStart(states, moves) && i < |moves|
    requires who in states[i].actors && Holds(states[i].actors[who]) == Some(c)
    requires !(moves[i].Step? && moves[i].who == who)
    ensures LiveSum(states[i + 1].w.db, c) <= LiveSum(states[i].w.db, c)
  {
    RunEvolves(states, moves, i);
    ReachableInv(states, moves, i);
    assert IsStepAt(states, moves, i);
    assert InsertingBy(states[i], moves[i]) != Some(c);
    assert SumAllowed(states[i].w.db, states[i + 1].w.db, InsertingBy(states[i], moves[i]), c);
  }

  /** The requester's own arithmetic stays far from the ends of an i64. */
  lemma RequestArithmeticFits(states: seq<State>, moves: seq<Move>, i: nat, who: nat)
    requires IsRunFromStart(states, moves) && i <= |moves|
    requires who in states[i].actors && states[i].actors[who].RequestSummed?
    ensures var a := states[i].actors[who];
      && 0 <= a.refundedSoFar <= a.captured <= I64_MAX
      && Wrap64(a.captured - a.refundedSoFar) == a.captured - a.refundedSoFar
      && LiveSum(states[i].w.db, a.q.chargeId) <= a.refundedSoFar
  {
    ActorInvAt(states, moves, i, who);
  }

  // ---- audit ----

  /** The log never runs ahead of the rows, and a logged verdict is the row's verdict: also for the
      entries appended after an UPDATE that matched nothing. */
  lemma AuditNeverAhead(states: seq<State>, moves: seq<Move>, i: nat, j: nat, e: Transition)
    requires IsRunFromStart(states, moves) && i <= j <= |moves| && e in states[i].w.db.log
    ensures e in states[j].w.db.log && e.refundId in states[j].w.db.refunds
    ensures Rank(e.to) <= Rank(states[j].w.db.refunds[e.refundId].status)
    ensures IsTerminal(e.to) ==> states[j].w.db.refunds[e.refundId].status == e.to
  {
    RunIsMonotone(states, moves, i, j);
    ReachableInv(states, moves, j);
    assert EntryOk(states[j].w.db, e);
  }

  // ---- separation of duties ----

  /** This move took the refund out of review, at the hand of someone who did not request it. */
  predicate ReviewedBy(s: State, m: Move, t: State, id: Uuid, approver: string) {
    && m.Step? && m.who in s.actors
    && s.actors[m.who] == ApproveChecked(id, approver)
    && id in s.w.db.refunds && id in t.w.db.refunds
    && s.w.db.refunds[id].status == PendingReview
    && t.w.db.refunds[id].status == Requested
    && s.w.db.refunds[id].requestedBy != approver
  }

  lemma ApprovalFromReview(s: State, m: Move, id: Uuid)
    requires Inv(s) && Enabled(s, m)
    requires id in Next(s, m).w.approvals && id !in s.w.approvals
    ensures ReviewedBy(s, m, Next(s, m), id, Next(s, m).w.approvals[id])
  {
    assert m.Step?;
    var a := s.actors[m.who];
    assert ActorInv(s.w, a);
    ApprovalFromAct(s.w, a, m.choice, id);
  }

  lemma ApprovalFromAct(w: World, a: Actor, choice: Choice, id: Uuid)
    requires id in Act(w, a, choice).0.approvals && id !in w.approvals
    ensures var x := Act(w, a, choice).0;
      && a == ApproveChecked(id, x.approvals[id])
      && id in w.db.refunds && w.db.refunds[id].status == PendingReview
      && id in x.db.refunds && x.db.refunds[id].status == Requested
  {
  }

  /** An approval on record was there one move before, or this move made it. */
  lemma ApprovalKeptOrMade(states: seq<State>, moves: seq<Move>, i: nat, id: Uuid)
    requires IsRunFromStart(states, moves) && i < |moves| && id in states[i + 1].w.approvals
    ensures id in states[i].w.approvals ==> states[i].w.approvals[id] == states[i + 1].w.approvals[id]
    ensures id !in states[i].w.approvals ==>
      ReviewedBy(states[i], moves[i], states[i + 1], id, states[i + 1].w.approvals[id])
  {
    if id in states[i].w.approvals {
      RunEvolves(states, moves, i);
    } else {
      ReachableInv(states, moves, i);
      assert IsStepAt(states, moves, i);
      ApprovalFromReview(states[i], moves[i], id);
    }
  }

  lemma {:induction false} ApprovalHappened(states: seq<State>, moves: seq<Move>, i: nat, id: Uuid) returns (j: nat)
    requires IsRunFromStart(states, moves) && i <= |moves| && id in states[i].w.approvals
    ensures j < i && ReviewedBy(states[j], moves[j], states[j + 1], id, states[i].w.approvals[id])
  {
    ApprovalKeptOrMade(states, moves, i - 1, id);
    if id in states[i - 1].w.approvals {
      j := ApprovalHappened(states, moves, i - 1, id);
    } else {
      j := i - 1;
    }
  }

  /** No large refund reaches the gateway unless, earlier in the run, an approve by someone other
      than its requester took it out of review. */
  lemma LargeRefundsWereApproved(states: seq<State>, moves: seq<Move>, i: nat, id: Uuid)
    returns (j: nat, approver: string)
    requires IsRunFromStart(states, moves) && i <= |moves|
    requires id in states[i].w.gw.store && states[i].w.gw.store[id].amount >= REVIEW_THRESHOLD_CENTS
    ensures j < i && ReviewedBy(states[j], moves[j], states[j + 1], id, approver)
    ensures id in states[i].w.db.refunds && states[i].w.db.refunds[id].requestedBy != approver
  {
    ReachableInv(states, moves, i);
    var w := states[i].w;
    assert RowOk(w, id, w.db.refunds[id]);
    approver := w.approvals[id];
    j := ApprovalHappened(states, moves, i, id);
  }

  // ---- who adds rows ----

  lemma RequestAddsOwnRow(w: World, a: Actor, position: nat, id: Uuid)
    requires IsRequest(a) && id !in w.db.refunds && id in ActRequest(w, a, position).0.db.refunds
    ensures a.RequestAudited? && a.q.refundId == id
  {
  }

  lemma ApproveAddsNoRow(w: World, a: Actor)
    requires IsApprove(a)
    ensures ActApprove(w, a).0.db.refunds.Keys == w.db.refunds.Keys
  {
  }

  lemma SubmitAddsNoRow(w: World, a: Actor, config: MockConfig)
    requires IsSubmit(a)
    ensures ActSubmit(w, a, config).0.db.refunds.Keys == w.db.refunds.Keys
  {
  }

  lemma RecoverAddsNoRow(w: World, a: Actor, config: MockConfig)
    requires IsRecover(a)
    ensures ActRecover(w, a, config).0.db.refunds.Keys == w.db.refunds.Keys
  {
  }

  lemma HookAddsNoRow(w: World, a: Actor)
    requires IsHook(a)
    ensures ActHook(w, a).0.db.refunds.Keys == w.db.refunds.Keys
  {
  }
}
