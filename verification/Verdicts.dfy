/** How a refund gets its verdict in an arbitrary interleaved, crashing run: by the first handler whose second
    statement finds the refund's ref on record, and by nothing else. */
module Verdicts {
  import opened Outcomes
  import opened Ledger
  import opened Invariant
  import opened Protocol
  import opened ProtocolInvariant
  import opened ProtocolTheorems
  import opened Webhooks
  import opened VerdictSteps

  /** The first of the first `i` moves that decides. */
  function FirstDecision(states: seq<State>, moves: seq<Move>, i: nat, id: Uuid): (j: Option<nat>)
    requires i <= |moves| <= |states|
    ensures j.Some? ==> j.value < i && Decides(states[j.value], moves[j.value], id)
    ensures j.Some? ==> forall k :: 0 <= k < j.value ==> !Decides(states[k], moves[k], id)
    ensures j.None? ==> forall k :: 0 <= k < i ==> !Decides(states[k], moves[k], id)
  {
    if i == 0 then None
    else
      var earlier := FirstDecision(states, moves, i - 1, id);
      if earlier.Some? then earlier
      else if Decides(states[i - 1], moves[i - 1], id) then Some(i - 1)
      else None
  }

  /** The last of the first `i` moves that decides. */
  function LastDecision(states: seq<State>, moves: seq<Move>, i: nat, id: Uuid): (j: Option<nat>)
    requires i <= |moves| <= |states|
    ensures j.Some? ==> j.value < i && Decides(states[j.value], moves[j.value], id)
    ensures j.Some? ==> forall k :: j.value < k < i ==> !Decides(states[k], moves[k], id)
    ensures j.None? ==> forall k :: 0 <= k < i ==> !Decides(states[k], moves[k], id)
  {
    if i == 0 then None
    else if Decides(states[i - 1], moves[i - 1], id) then Some(i - 1)
    else LastDecision(states, moves, i - 1, id)
  }

  /** The row's verdict is the first decision's, and a failed row's reason is the last decision's. */
  predicate VerdictIs(r: Refund, states: seq<State>, moves: seq<Move>, i: nat, id: Uuid)
    requires i <= |moves| <= |states|
  {
    var first, last := FirstDecision(states, moves, i, id), LastDecision(states, moves, i, id);
    && (IsTerminal(r.status) <==> first.Some?)
    && (first.Some? ==> r.status == VerdictOf(EventOf(states[first.value], moves[first.value])))
    && (r.status == Failed ==>
          last.Some? && r.failureReason == EventOf(states[last.value], moves[last.value]).reason)
  }

  lemma VerdictNext(states: seq<State>, moves: seq<Move>, i: nat, id: Uuid, before: Refund, after: Refund)
    requires 0 < i <= |moves| <= |states| && VerdictIs(before, states, moves, i - 1, id)
    requires var s, m := states[i - 1], moves[i - 1];
      if Decides(s, m, id) then TakesRow(EventOf(s, m), before) && after == RowEvent(before, EventOf(s, m))
      else Undecided(before, after)
    ensures VerdictIs(after, states, moves, i, id)
  {
    if Decides(states[i - 1], moves[i - 1], id) {
      SettledIsNotFailed(EventOf(states[i - 1], moves[i - 1]));
    }
  }

  /** A row that was not there cannot have been decided on. */
  lemma NewRowUndecided(states: seq<State>, moves: seq<Move>, i: nat, id: Uuid)
    requires IsRunFromStart(states, moves) && i <= |moves| && id !in states[i].w.db.refunds
    ensures FirstDecision(states, moves, i, id) == None
  {
    var first := FirstDecision(states, moves, i, id);
    if first.Some? {
      RunIsMonotone(states, moves, first.value, i);
    }
  }

  lemma NewRowIsOpen(s: State, m: Move, id: Uuid)
    requires Inv(s) && Enabled(s, m) && id !in s.w.db.refunds && id in Next(s, m).w.db.refunds
    ensures !IsTerminal(Next(s, m).w.db.refunds[id].status)
  {
    var a := s.actors[m.who];
    assert ActorInv(s.w, a);
    NewRowFromRequest(s.w, a, m.choice, id);
  }

  lemma NewRowFromRequest(w: World, a: Actor, choice: Choice, id: Uuid)
    requires ActorInv(w, a) && id !in w.db.refunds && id in Act(w, a, choice).0.db.refunds
    ensures !IsTerminal(Act(w, a, choice).0.db.refunds[id].status)
  {
    if IsRequest(a) {
      RequestAddsOpenRow(w, a, choice.position, id);
    } else if IsSubmit(a) {
      SubmitAddsNoRow(w, a, choice.config);
    } else if IsRecover(a) {
      RecoverAddsNoRow(w, a, choice.config);
    } else if IsHook(a) {
      HookAddsNoRow(w, a);
    } else if IsApprove(a) {
      ApproveAddsNoRow(w, a);
    }
  }

  lemma RequestAddsOpenRow(w: World, a: Actor, position: nat, id: Uuid)
    requires IsRequest(a) && RequestInv(w, a)
    requires id !in w.db.refunds && id in ActRequest(w, a, position).0.db.refunds
    ensures !IsTerminal(ActRequest(w, a, position).0.db.refunds[id].status)
  {
    RequestAddsOwnRow(w, a, position, id);
  }

  /** In every interleaved, crashing run from the start: a refund has a verdict exactly when some earlier move
      decided on it, the verdict is that of the first such move's event, and a failed refund's reason is that of
      the last such move's event. */
  lemma {:induction false} VerdictIsFirstDecision(states: seq<State>, moves: seq<Move>, i: nat, id: Uuid)
    requires IsRunFromStart(states, moves) && i <= |moves| && id in states[i].w.db.refunds
    ensures VerdictIs(states[i].w.db.refunds[id], states, moves, i, id)
  {
    assert i > 0;
    if id in states[i - 1].w.db.refunds {
      VerdictIsFirstDecision(states, moves, i - 1, id);
      RowAfterMove(states, moves, i - 1, id);
      VerdictAfterMove(states, moves, i - 1, id);
    } else {
      VerdictOfNewRow(states, moves, i - 1, id);
    }
  }

  lemma RowAfterMove(states: seq<State>, moves: seq<Move>, i: nat, id: Uuid)
    requires IsRunFromStart(states, moves) && i < |moves| && id in states[i].w.db.refunds
    ensures MoveOnRow(states[i], moves[i], id, states[i + 1].w.db)
  {
    ReachableInv(states, moves, i);
    assert IsStepAt(states, moves, i);
    MoveActsOnRow(states[i], moves[i], id, states[i + 1].w.db);
  }

  lemma VerdictAfterMove(states: seq<State>, moves: seq<Move>, i: nat, id: Uuid)
    requires i < |moves| < |states| && id in states[i].w.db.refunds
    requires MoveOnRow(states[i], moves[i], id, states[i + 1].w.db)
    requires VerdictIs(states[i].w.db.refunds[id], states, moves, i, id)
    ensures VerdictIs(states[i + 1].w.db.refunds[id], states, moves, i + 1, id)
  {
    VerdictNext(states, moves, i + 1, id, states[i].w.db.refunds[id], states[i + 1].w.db.refunds[id]);
  }

  lemma VerdictOfNewRow(states: seq<State>, moves: seq<Move>, i: nat, id: Uuid)
    requires IsRunFromStart(states, moves) && i < |moves|
    requires id !in states[i].w.db.refunds && id in states[i + 1].w.db.refunds
    ensures VerdictIs(states[i + 1].w.db.refunds[id], states, moves, i + 1, id)
  {
    ReachableInv(states, moves, i);
    assert IsStepAt(states, moves, i);
    NewRowUndecided(states, moves, i, id);
    NewRowIsOpen(states[i], moves[i], id);
  }

  lemma VerdictIff(states: seq<State>, moves: seq<Move>, i: nat, id: Uuid)
    requires IsRunFromStart(states, moves) && i <= |moves| && id in states[i].w.db.refunds
    ensures IsTerminal(states[i].w.db.refunds[id].status)
       <==> exists j: nat :: j < i && Decides(states[j], moves[j], id)
  {
    VerdictIsFirstDecision(states, moves, i, id);
  }
}
