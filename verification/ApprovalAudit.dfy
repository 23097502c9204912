/** Who authorized this money to move: what the log says about it when approvals interleave and crash. Every
    name it gives is someone other than the requester, but it names the one who took the refund out of review
    exactly when an approver of that name lived to write the entry. */
module ApprovalAudit {
  import opened Outcomes
  import opened Ledger
  import opened Gateway
  import opened Statements
  import opened Invariant
  import opened Protocol
  import opened ProtocolInvariant
  import opened ProtocolTheorems
  import opened Scenario

  /** An entry that a query for approvals finds. */
  predicate IsApprovalEntry(e: Transition) {
    e.from == Some(PendingReview) && e.to == Requested
  }

  /** The move writes this approver's entry for the refund. */
  predicate LogsApproval(s: State, m: Move, id: Uuid, approver: string) {
    m.Step? && m.who in s.actors && s.actors[m.who] == ApproveMarked(id, approver)
  }

  // ---- where such entries come from ----

  lemma ApprovalEntryNames(id: Uuid, a: string, b: string)
    requires ApprovalEntry(id, a) == ApprovalEntry(id, b)
    ensures a == b
  {
    var prefix := "approver:";
    assert (prefix + a)[|prefix|..] == a && (prefix + b)[|prefix|..] == b;
  }

  /** The log only grows, and not by an approval entry. */
  predicate AppendsNoApproval(db: Db, after: Db) {
    db.log <= after.log && forall k :: |db.log| <= k < |after.log| ==> !IsApprovalEntry(after.log[k])
  }

  lemma RequestAppendsNoApproval(w: World, a: Actor, position: nat, after: Db)
    requires IsRequest(a) && RequestInv(w, a) && after == ActRequest(w, a, position).0.db
    ensures AppendsNoApproval(w.db, after)
  {
    if a.RequestAudited? {
      assert !IsApprovalEntry(a.entry);
    }
  }

  lemma SubmitAppendsNoApproval(w: World, a: Actor, config: MockConfig, after: Db)
    requires IsSubmit(a) && after == ActSubmit(w, a, config).0.db
    ensures AppendsNoApproval(w.db, after)
  {
    if a.SubmitMarked? && !a.row.status.Submitted? {
      assert after.log == w.db.log + [SubmitEntry(a.id, a.row.status)];
    } else {
      assert after.log == w.db.log;
    }
  }

  lemma RecoverAppendsNoApproval(w: World, a: Actor, config: MockConfig, after: Db)
    requires IsRecover(a) && after == ActRecover(w, a, config).0.db
    ensures AppendsNoApproval(w.db, after)
  {
    if a.RecoverRecorded? && a.todo != [] {
      assert after.log == w.db.log + [RecoverEntry(a.todo[0], "job:recover")];
    } else if a.RecoverCalled? && a.todo != [] {
      assert after.log == w.db.log + [RecoverEntry(a.todo[0], "job:recover-resubmit")];
    } else {
      assert after.log == w.db.log;
    }
  }

  lemma HookAppendsNoApproval(w: World, a: Actor, after: Db)
    requires IsHook(a) && after == ActHook(w, a).0.db
    ensures AppendsNoApproval(w.db, after)
  {
  }

  lemma ActAppendsNoApproval(w: World, a: Actor, choice: Choice, after: Db)
    requires ActorInv(w, a) && !a.ApproveMarked? && after == Act(w, a, choice).0.db
    ensures AppendsNoApproval(w.db, after)
  {
    if IsRequest(a) {
      RequestAppendsNoApproval(w, a, choice.position, after);
    } else if IsSubmit(a) {
      SubmitAppendsNoApproval(w, a, choice.config, after);
    } else if IsRecover(a) {
      RecoverAppendsNoApproval(w, a, choice.config, after);
    } else if IsHook(a) {
      HookAppendsNoApproval(w, a, after);
    } else {
      assert after.log == w.db.log;
    }
  }

  lemma ActApprovalEntry(w: World, a: Actor, choice: Choice, e: Transition, after: Db)
    requires ActorInv(w, a) && IsApprovalEntry(e) && after == Act(w, a, choice).0.db
    ensures e in after.log <==> e in w.db.log || (a.ApproveMarked? && e == ApprovalEntry(a.id, a.approver))
  {
    if a.ApproveMarked? {
      assert after.log == w.db.log + [ApprovalEntry(a.id, a.approver)];
    } else {
      ActAppendsNoApproval(w, a, choice, after);
    }
  }

  /** One move: an approval entry is in the log afterwards exactly if it was before or this move writes it. */
  lemma ApprovalEntryStep(s: State, m: Move, e: Transition, after: Db)
    requires Inv(s) && Enabled(s, m) && IsApprovalEntry(e) && after == Next(s, m).w.db
    ensures e in after.log <==> e in s.w.db.log || WritesEntry(s, m, e)
  {
    if !m.Step? {
      assert after.log == s.w.db.log;
    } else {
      assert ActorInv(s.w, s.actors[m.who]);
      ActApprovalEntry(s.w, s.actors[m.who], m.choice, e, after);
    }
  }

  predicate WritesEntry(s: State, m: Move, e: Transition) {
    && m.Step? && m.who in s.actors && s.actors[m.who].ApproveMarked?
    && e == ApprovalEntry(s.actors[m.who].id, s.actors[m.who].approver)
  }

  ghost predicate Written(states: seq<State>, moves: seq<Move>, i: nat, e: Transition)
    requires i <= |moves| <= |states|
  {
    exists j: nat :: j < i && WritesEntry(states[j], moves[j], e)
  }

  /** Over whole runs: approval entries are exactly what approvers past their UPDATE have written. */
  lemma {:induction false} ApprovalEntryIff(states: seq<State>, moves: seq<Move>, i: nat, e: Transition)
    requires IsRunFromStart(states, moves) && i <= |moves| && IsApprovalEntry(e)
    ensures e in states[i].w.db.log <==> Written(states, moves, i, e)
  {
    if i > 0 {
      ApprovalEntryIff(states, moves, i - 1, e);
      ApprovalEntryMove(states, moves, i - 1, e);
      WrittenNext(states, moves, i, e);
    }
  }

  lemma ApprovalEntryMove(states: seq<State>, moves: seq<Move>, i: nat, e: Transition)
    requires IsRunFromStart(states, moves) && i < |moves| && IsApprovalEntry(e)
    ensures e in states[i + 1].w.db.log <==> e in states[i].w.db.log || WritesEntry(states[i], moves[i], e)
  {
    ReachableInv(states, moves, i);
    assert IsStepAt(states, moves, i);
    ApprovalEntryStep(states[i], moves[i], e, Next(states[i], moves[i]).w.db);
  }

  lemma WrittenNext(states: seq<State>, moves: seq<Move>, i: nat, e: Transition)
    requires 0 < i <= |moves| <= |states|
    ensures Written(states, moves, i, e) <==>
      Written(states, moves, i - 1, e) || WritesEntry(states[i - 1], moves[i - 1], e)
  {
    if Written(states, moves, i - 1, e) {
      var j: nat :| j < i - 1 && WritesEntry(states[j], moves[j], e);
      assert j < i;
    }
    if WritesEntry(states[i - 1], moves[i - 1], e) {
      assert i - 1 < i;
    }
  }

  // ---- main results ----

  /** No approval entry, in any run, names the requester: each one names an approver and was written by that
      approver, who is someone else. */
  lemma ApprovalsNameOthers(states: seq<State>, moves: seq<Move>, i: nat, e: Transition)
    returns (j: nat, approver: string)
    requires IsRunFromStart(states, moves) && i <= |moves| && e in states[i].w.db.log && IsApprovalEntry(e)
    ensures j < i && LogsApproval(states[j], moves[j], e.refundId, approver)
    ensures e == ApprovalEntry(e.refundId, approver)
    ensures e.refundId in states[i].w.db.refunds && states[i].w.db.refunds[e.refundId].requestedBy != approver
  {
    ApprovalEntryIff(states, moves, i, e);
    j :| j < i && WritesEntry(states[j], moves[j], e);
    var a := states[j].actors[moves[j].who];
    approver := a.approver;
    ActorInvAt(states, moves, j, moves[j].who);
    RunIsMonotone(states, moves, j, i);
  }

  /** The log names the one who took the refund out of review exactly when an approver of that name took the
      step after its UPDATE; the name is never the requester's. */
  lemma LogNamesMoverIff(states: seq<State>, moves: seq<Move>, i: nat, id: Uuid) returns (mover: string)
    requires IsRunFromStart(states, moves) && i <= |moves| && id in states[i].w.approvals
    ensures mover == states[i].w.approvals[id]
    ensures exists j: nat :: j < i && ReviewedBy(states[j], moves[j], states[j + 1], id, mover)
    ensures ApprovalEntry(id, mover) in states[i].w.db.log
       <==> exists j: nat :: j < i && LogsApproval(states[j], moves[j], id, mover)
  {
    mover := states[i].w.approvals[id];
    var k := ApprovalHappened(states, moves, i, id);
    ApprovalEntryIff(states, moves, i, ApprovalEntry(id, mover));
    if j: nat :| j < i && WritesEntry(states[j], moves[j], ApprovalEntry(id, mover)) {
      ApprovalEntryNames(id, mover, states[j].actors[moves[j].who].approver);
      assert LogsApproval(states[j], moves[j], id, mover);
    }
    if j: nat :| j < i && LogsApproval(states[j], moves[j], id, mover) {
      assert WritesEntry(states[j], moves[j], ApprovalEntry(id, mover));
    }
  }

  // ---- a run in which the log names the wrong person ----

  /** Both approvers have checked, and the first one moves the row. */
  lemma BobMoves(actors: map<nat, Actor>)
    requires actors == map[1 := ApproveMarked(1, "bob"), 2 := ApproveChecked(1, "eve")]
    ensures Reachable(State(World(LargeTables(Requested, [LARGE_BORN]), EMPTY, map[1 := "bob"]), actors))
  {
    LargeRefundRequested();
    var w := World(LargeTables(PendingReview, [LARGE_BORN]), EMPTY, map[]);
    var none: map<nat, Actor> := map[];
    Reach(State(w, none), Spawn(1, ApproveBegin(1, "bob")));
    ReachApproveStep(w, none[1 := ApproveBegin(1, "bob")], 1, w, ApproveChecked(1, "bob"));
    var bob := map[1 := ApproveChecked(1, "bob")];
    assert none[1 := ApproveBegin(1, "bob")][1 := ApproveChecked(1, "bob")] == bob;
    Reach(State(w, bob), Spawn(2, ApproveBegin(1, "eve")));
    ReachApproveStep(w, bob[2 := ApproveBegin(1, "eve")], 2, w, ApproveChecked(1, "eve"));
    var both := bob[2 := ApproveChecked(1, "eve")];
    assert bob[2 := ApproveBegin(1, "eve")][2 := ApproveChecked(1, "eve")] == both;
    var x := World(LargeTables(Requested, [LARGE_BORN]), EMPTY, map[1 := "bob"]);
    MovesRow();
    ReachApproveStep(w, both, 1, x, ApproveMarked(1, "bob"));
    assert both[1 := ApproveMarked(1, "bob")] == actors;
  }

  lemma MovesRow()
    ensures Approved(World(LargeTables(PendingReview, [LARGE_BORN]), EMPTY, map[]), 1, "bob")
         == World(LargeTables(Requested, [LARGE_BORN]), EMPTY, map[1 := "bob"])
  {
    var w := World(LargeTables(PendingReview, [LARGE_BORN]), EMPTY, map[]);
    assert MarkApproved(w.db, 1).refunds == LargeTables(Requested, [LARGE_BORN]).refunds;
  }

  /** It happens: a reachable state with the refund out of review, nobody at work on it, and one approval entry,
      which names eve, while it was bob who took it out and then crashed. */
  lemma LogMayNameAnother() returns (s: State)
    ensures Reachable(s) && 1 in s.w.approvals && s.w.approvals[1] == "bob"
    ensures 1 in s.w.db.refunds && s.w.db.refunds[1].status == Requested
    ensures s.w.db.log == [LARGE_BORN, ApprovalEntry(1, "eve")]
    ensures s.actors == map[2 := Done(Approval)]
  {
    var actors := map[1 := ApproveMarked(1, "bob"), 2 := ApproveChecked(1, "eve")];
    BobMoves(actors);
    var w := World(LargeTables(Requested, [LARGE_BORN]), EMPTY, map[1 := "bob"]);
    Reach(State(w, actors), Crash(1));
    var eve := map[2 := ApproveChecked(1, "eve")];
    assert actors - {1} == eve;
    ReachApproveStep(w, eve, 2, w, ApproveMarked(1, "eve"));
    assert eve[2 := ApproveMarked(1, "eve")] == map[2 := ApproveMarked(1, "eve")];
    var x := w.(db := LargeTables(Requested, [LARGE_BORN, ApprovalEntry(1, "eve")]));
    assert [LARGE_BORN] + [ApprovalEntry(1, "eve")] == [LARGE_BORN, ApprovalEntry(1, "eve")];
    ReachApproveStep(w, map[2 := ApproveMarked(1, "eve")], 2, x, Done(Approval));
    s := State(x, map[2 := Done(Approval)]);
    assert map[2 := ApproveMarked(1, "eve")][2 := Done(Approval)] == s.actors;
  }
}
