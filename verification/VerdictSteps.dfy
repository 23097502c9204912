/** What a single move does to a refund's verdict: nothing, unless it is the second statement of a webhook handler
    whose event takes the refund's row as it is then. */
module VerdictSteps {
  import opened Ledger
  import opened Gateway
  import opened Statements
  import opened Invariant
  import opened Protocol
  import opened ProtocolInvariant
  import opened Webhooks

  // ---- what decides ----

  predicate AppliesEvent(s: State, m: Move) {
    m.Step? && m.who in s.actors && s.actors[m.who].HookInserted?
  }

  function EventOf(s: State, m: Move): WebhookEvent
    requires AppliesEvent(s, m)
  {
    s.actors[m.who].event
  }

  /** The move is the second statement of a handler whose event takes the refund's row as it is now. */
  predicate Decides(s: State, m: Move, id: Uuid) {
    AppliesEvent(s, m) && id in s.w.db.refunds && TakesRow(EventOf(s, m), s.w.db.refunds[id])
  }

  function VerdictOf(e: WebhookEvent): Status {
    if IsSettledEvent(e) then Settled else Failed
  }

  // ---- one move ----

  /** The row is no nearer to, and no further from, its verdict. */
  predicate Undecided(before: Refund, after: Refund) {
    && (IsTerminal(after.status) <==> IsTerminal(before.status))
    && (IsTerminal(before.status) ==> after.status == before.status)
    && after.failureReason == before.failureReason
  }

  predicate LeavesUndecided(db: Db, after: Db, id: Uuid) {
    id in db.refunds ==> id in after.refunds && Undecided(db.refunds[id], after.refunds[id])
  }

  lemma RequestLeavesUndecided(w: World, a: Actor, position: nat, id: Uuid, after: Db)
    requires IsRequest(a) && after == ActRequest(w, a, position).0.db
    ensures LeavesUndecided(w.db, after, id)
  {
  }

  lemma ApproveLeavesUndecided(w: World, a: Actor, id: Uuid, after: Db)
    requires IsApprove(a) && after == ActApprove(w, a).0.db
    ensures LeavesUndecided(w.db, after, id)
  {
  }

  lemma StatementsLeaveUndecided(db: Db, row: Uuid, ref: string, id: Uuid)
    ensures LeavesUndecided(db, MarkSubmitted(db, row), id)
    ensures RecordRef(db, row, ref).Some? ==> LeavesUndecided(db, RecordRef(db, row, ref).value, id)
  {
  }

  lemma SubmitLeavesUndecided(w: World, a: Actor, config: MockConfig, id: Uuid, after: Db)
    requires IsSubmit(a) && after == ActSubmit(w, a, config).0.db
    ensures LeavesUndecided(w.db, after, id)
  {
    if a.SubmitRead? {
      StatementsLeaveUndecided(w.db, a.id, "", id);
      assert after == MarkSubmitted(w.db, a.id);
    } else if a.SubmitAccepted? && RecordRef(w.db, a.id, a.ref).Some? {
      StatementsLeaveUndecided(w.db, a.id, a.ref, id);
      assert after == RecordRef(w.db, a.id, a.ref).value;
    } else {
      assert after.refunds == w.db.refunds;
    }
  }

  lemma RecoverLeavesUndecided(w: World, a: Actor, config: MockConfig, id: Uuid, after: Db)
    requires IsRecover(a) && RowsOk(w) && RecoverInv(w, a) && after == ActRecover(w, a, config).0.db
    ensures LeavesUndecided(w.db, after, id)
  {
    if a.RecoverFound? || a.RecoverAccepted? {
      RecoverRecordLeavesUndecided(w, a, config, id, after);
    } else if a.RecoverRead? {
      StatementsLeaveUndecided(w.db, a.todo[0].id, "", id);
      assert after == MarkSubmitted(w.db, a.todo[0].id);
    } else {
      assert after.refunds == w.db.refunds;
    }
  }

  lemma RecoverRecordLeavesUndecided(w: World, a: Actor, config: MockConfig, id: Uuid, after: Db)
    requires (a.RecoverFound? || a.RecoverAccepted?) && RowsOk(w) && RecoverInv(w, a)
    requires after == ActRecover(w, a, config).0.db
    ensures LeavesUndecided(w.db, after, id)
  {
    var row := a.todo[0].id;
    assert a.todo[0] in a.todo;
    if a.RecoverFound? {
      RecoverRefIsRecordRef(w, row, a.ref);
    }
    StatementsLeaveUndecided(w.db, row, a.ref, id);
    if RecordRef(w.db, row, a.ref).Some? {
      assert after == RecordRef(w.db, row, a.ref).value;
    } else {
      assert after == w.db;
    }
  }

  lemma ActLeavesUndecided(w: World, a: Actor, choice: Choice, id: Uuid, after: Db)
    requires LedgerInv(w) && ActorInv(w, a) && !a.HookInserted? && after == Act(w, a, choice).0.db
    ensures LeavesUndecided(w.db, after, id)
  {
    if IsRequest(a) {
      RequestLeavesUndecided(w, a, choice.position, id, after);
    } else if IsApprove(a) {
      ApproveLeavesUndecided(w, a, id, after);
    } else if IsSubmit(a) {
      SubmitLeavesUndecided(w, a, choice.config, id, after);
    } else if IsRecover(a) {
      RecoverLeavesUndecided(w, a, choice.config, id, after);
    } else {
      assert after.refunds == w.db.refunds;
    }
  }

  /** A move that decides does to the row what its event says; any other move leaves the verdict alone. */
  predicate MoveOnRow(s: State, m: Move, id: Uuid, after: Db)
    requires id in s.w.db.refunds
  {
    && id in after.refunds
    && if Decides(s, m, id) then after.refunds[id] == RowEvent(s.w.db.refunds[id], EventOf(s, m))
       else Undecided(s.w.db.refunds[id], after.refunds[id])
  }

  lemma MoveActsOnRow(s: State, m: Move, id: Uuid, after: Db)
    requires Inv(s) && Enabled(s, m) && id in s.w.db.refunds && after == Next(s, m).w.db
    ensures MoveOnRow(s, m, id, after)
  {
    if !m.Step? {
      assert after.refunds == s.w.db.refunds;
    } else {
      assert ActorInv(s.w, s.actors[m.who]);
      ActActsOnRow(s.w, s.actors[m.who], m.choice, id, after);
    }
  }

  /** The same, said of the actor's own step. */
  lemma ActActsOnRow(w: World, a: Actor, choice: Choice, id: Uuid, after: Db)
    requires LedgerInv(w) && ActorInv(w, a) && id in w.db.refunds && after == Act(w, a, choice).0.db
    ensures id in after.refunds
    ensures if a.HookInserted? && TakesRow(a.event, w.db.refunds[id])
            then after.refunds[id] == RowEvent(w.db.refunds[id], a.event)
            else Undecided(w.db.refunds[id], after.refunds[id])
  {
    if a.HookInserted? {
      assert after == ApplyEvent(w.db, a.event);
      EventDecidesOrNot(w, a.event, id);
    } else {
      ActLeavesUndecided(w, a, choice, id, after);
    }
  }

  lemma EventDecidesOrNot(w: World, e: WebhookEvent, id: Uuid)
    requires LedgerInv(w) && id in w.db.refunds
    ensures var r, after := w.db.refunds[id], ApplyEvent(w.db, e);
      && id in after.refunds
      && after.refunds[id] == RowEvent(r, e)
      && (!TakesRow(e, r) ==> after.refunds[id] == r)
  {
    InvIndexed(w);
    EventOnRow(w.db, e, id);
  }

  /** A refund without a verdict gets one at a move exactly when that move decides. */
  lemma VerdictStepIff(s: State, m: Move, id: Uuid)
    requires Inv(s) && Enabled(s, m) && id in s.w.db.refunds && !IsTerminal(s.w.db.refunds[id].status)
    ensures id in Next(s, m).w.db.refunds
    ensures IsTerminal(Next(s, m).w.db.refunds[id].status) <==> Decides(s, m, id)
    ensures Decides(s, m, id) ==> Next(s, m).w.db.refunds[id].status == VerdictOf(EventOf(s, m))
  {
    MoveActsOnRow(s, m, id, Next(s, m).w.db);
    if Decides(s, m, id) {
      SettledIsNotFailed(EventOf(s, m));
    }
  }
}
