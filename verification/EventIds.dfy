/** The life of an event id: registered by a handler's first statement, spent from then on, and acted on by its
    second at most once. So an event whose handler dies in between never gets another chance. */
module EventIds {
  import opened Outcomes
  import opened Errors
  import opened Ledger
  import opened Gateway
  import opened GatewayRef
  import opened Statements
  import opened Invariant
  import opened Protocol
  import opened Scenario
  import opened VerdictSteps

  // ---- an event id acts at most once ----

  /** No handler can act on this event id any more. */
  predicate Spent(s: State, event: string) {
    && event in s.w.db.events
    && forall who :: who in s.actors && s.actors[who].HookInserted? ==> s.actors[who].event.id != event
  }

  predicate Holding(a: Actor, event: string) {
    a.HookInserted? && a.event.id == event
  }

  /** Every handler past its first statement has registered its event, and no two hold the same one. */
  predicate HandlersApart(s: State) {
    && (forall who :: who in s.actors && s.actors[who].HookInserted? ==> s.actors[who].event.id in s.w.db.events)
    && (forall a, b :: a in s.actors && b in s.actors && a != b && s.actors[a].HookInserted? ==>
          !Holding(s.actors[b], s.actors[a].event.id))
  }

  /** Event ids are only ever added, and only by the handler that then holds them. */
  predicate Registers(db: Db, after: Db, next: Actor) {
    && db.events <= after.events
    && (next.HookInserted? ==> next.event.id in after.events && next.event.id !in db.events)
  }

  lemma HoldsWhatItRegistered(w: World, a: Actor, choice: Choice, after: Db, next: Actor)
    requires after == Act(w, a, choice).0.db && next == Act(w, a, choice).1
    ensures Registers(w.db, after, next)
  {
    if IsRequest(a) {
      RequestKeepsEvents(w, a, choice.position);
    } else if IsSubmit(a) {
      SubmitKeepsEvents(w, a, choice.config);
    } else if IsRecover(a) {
      RecoverKeepsEvents(w, a, choice.config);
    } else if IsHook(a) {
      HookRegisters(w, a);
    }
  }

  lemma RequestKeepsEvents(w: World, a: Actor, position: nat)
    requires IsRequest(a)
    ensures ActRequest(w, a, position).0.db.events == w.db.events && !ActRequest(w, a, position).1.HookInserted?
  {
  }

  lemma HookRegisters(w: World, a: Actor)
    requires IsHook(a)
    ensures Registers(w.db, ActHook(w, a).0.db, ActHook(w, a).1)
  {
  }

  lemma SubmitKeepsEvents(w: World, a: Actor, config: MockConfig)
    requires IsSubmit(a)
    ensures ActSubmit(w, a, config).0.db.events == w.db.events && !ActSubmit(w, a, config).1.HookInserted?
  {
  }

  lemma RecoverKeepsEvents(w: World, a: Actor, config: MockConfig)
    requires IsRecover(a)
    ensures ActRecover(w, a, config).0.db.events == w.db.events && !ActRecover(w, a, config).1.HookInserted?
  {
  }

  lemma HandlersStayApart(s: State, m: Move)
    requires Enabled(s, m) && HandlersApart(s)
    ensures HandlersApart(Next(s, m))
    ensures forall event :: Spent(s, event) ==> Spent(Next(s, m), event)
    ensures AppliesEvent(s, m) ==> Spent(Next(s, m), EventOf(s, m).id)
  {
    if m.Step? {
      HoldsWhatItRegistered(s.w, s.actors[m.who], m.choice, Next(s, m).w.db, Next(s, m).actors[m.who]);
    }
  }

  lemma {:induction false} RunHandlersApart(states: seq<State>, moves: seq<Move>, i: nat)
    requires IsRunFromStart(states, moves) && i <= |moves|
    ensures HandlersApart(states[i])
  {
    if i > 0 {
      RunHandlersApart(states, moves, i - 1);
      assert IsStepAt(states, moves, i - 1);
      HandlersStayApart(states[i - 1], moves[i - 1]);
    }
  }

  lemma {:induction false} StaysSpent(states: seq<State>, moves: seq<Move>, i: nat, j: nat, event: string)
    requires IsRunFromStart(states, moves) && i <= j <= |moves| && Spent(states[i], event)
    ensures Spent(states[j], event)
    decreases j
  {
    if i < j {
      StaysSpent(states, moves, i, j - 1, event);
      RunHandlersApart(states, moves, j - 1);
      assert IsStepAt(states, moves, j - 1);
      HandlersStayApart(states[j - 1], moves[j - 1]);
    }
  }

  /** Deduplication under interleaving and crashes: two moves that apply an event never have the same event id. */
  lemma EventActsAtMostOnce(states: seq<State>, moves: seq<Move>, i: nat, j: nat)
    requires IsRunFromStart(states, moves) && i < j < |moves|
    requires AppliesEvent(states[i], moves[i]) && AppliesEvent(states[j], moves[j])
    ensures EventOf(states[i], moves[i]).id != EventOf(states[j], moves[j]).id
  {
    RunHandlersApart(states, moves, i);
    assert IsStepAt(states, moves, i);
    HandlersStayApart(states[i], moves[i]);
    StaysSpent(states, moves, i + 1, j, EventOf(states[i], moves[i]).id);
  }

  // ---- what handlers cut in two can do ----

  /** A handler that dies between its two statements loses its event, although the ref was on record all the
      while: a reachable state in which the redelivery was a duplicate and the row still waits. */
  lemma CrashedHandlerLosesEvent() returns (s: State)
    ensures Reachable(s) && SETTLED_EVENT.id in s.w.db.events
    ensures 4 in s.actors && s.actors[4] == Done(Webhook(Duplicate))
    ensures forall who :: who in s.actors ==> !s.actors[who].HookInserted?
    ensures 1 in s.w.db.refunds && s.w.db.refunds[1] == Row(Submitted, Some(SETTLED_EVENT.gatewayRef))
  {
    var first := SubmitMarked(1, Row(Requested, None));
    RefRecordedUnlogged(first);
    var actors := map[1 := first, 2 := Done(Submission(true))];
    var x := EventRegistered(World(Tables(Row(Submitted, Some(FormatRef(1))), {}), HELD, map[]), actors, 3);
    var held := actors[3 := HookInserted(SETTLED_EVENT)];
    Reach(State(x, held), Crash(3));
    assert held - {3} == actors;
    ReachDelivery(x, actors, 4, SETTLED_EVENT);
    s := State(x, actors[4 := Done(Webhook(Duplicate))]);
  }

  /** A handler's first statement, in a world that has not seen the event. */
  lemma EventRegistered(w: World, actors: map<nat, Actor>, who: nat) returns (x: World)
    requires Reachable(State(w, actors)) && who !in actors && SETTLED_EVENT.id !in w.db.events
    ensures x == w.(db := InsertEvent(w.db, SETTLED_EVENT.id))
    ensures Reachable(State(x, actors[who := HookInserted(SETTLED_EVENT)]))
  {
    x := w.(db := InsertEvent(w.db, SETTLED_EVENT.id));
    Reach(State(w, actors), Spawn(who, HookBegin(SETTLED_EVENT, true)));
    var begun := actors[who := HookBegin(SETTLED_EVENT, true)];
    ReachHookStep(w, begun, who);
    assert begun[who := HookInserted(SETTLED_EVENT)] == actors[who := HookInserted(SETTLED_EVENT)];
  }

  /** And a handler whose first statement came too early may still settle the row: from a reachable state in
      which its event is spent and no ref on record, the submitter records the ref and the handler settles. */
  lemma EarlyHandlerMaySettle() returns (s: State)
    ensures Reachable(s) && SETTLED_EVENT.id in s.w.db.events
    ensures 1 in s.w.db.refunds && s.w.db.refunds[1] == Row(Submitted, None)
    ensures Enabled(s, Step(2, CHOICE))
    ensures var t := Next(s, Step(2, CHOICE));
      && Enabled(t, Step(3, CHOICE))
      && var db := Next(t, Step(3, CHOICE)).w.db; 1 in db.refunds && db.refunds[1].status == Settled
  {
    var first := SubmitMarked(1, Row(Requested, None));
    RefInFlight(first);
    var early := map[1 := first, 2 := SubmitAccepted(1, FormatRef(1))];
    var w := EventRegistered(World(Tables(Row(Submitted, None), {}), HELD, map[]), early, 3);
    assert {} + {SETTLED_EVENT.id} == {SETTLED_EVENT.id};
    s := State(w, early[3 := HookInserted(SETTLED_EVENT)]);
    RecordsThenSettles(s);
  }

  lemma RecordsThenSettles(s: State)
    requires s.w == World(Tables(Row(Submitted, None), {SETTLED_EVENT.id}), HELD, map[])
    requires 2 in s.actors && s.actors[2] == SubmitAccepted(1, FormatRef(1))
    requires 3 in s.actors && s.actors[3] == HookInserted(SETTLED_EVENT)
    ensures Enabled(s, Step(2, CHOICE))
    ensures var t := Next(s, Step(2, CHOICE));
      && Enabled(t, Step(3, CHOICE))
      && var db := Next(t, Step(3, CHOICE)).w.db; 1 in db.refunds && db.refunds[1].status == Settled
  {
    RecordsRef(s);
    SettlesHeld(Next(s, Step(2, CHOICE)));
  }

  lemma RecordsRef(s: State)
    requires s.w == World(Tables(Row(Submitted, None), {SETTLED_EVENT.id}), HELD, map[])
    requires 2 in s.actors && s.actors[2] == SubmitAccepted(1, FormatRef(1))
    ensures Enabled(s, Step(2, CHOICE))
    ensures Next(s, Step(2, CHOICE)).w.db == Tables(Row(Submitted, Some(FormatRef(1))), {SETTLED_EVENT.id})
    ensures Next(s, Step(2, CHOICE)).actors == s.actors[2 := Done(Submission(true))]
  {
    RefIsRecorded({SETTLED_EVENT.id});
  }

  lemma SettlesHeld(s: State)
    requires s.w.db == Tables(Row(Submitted, Some(FormatRef(1))), {SETTLED_EVENT.id})
    requires 3 in s.actors && s.actors[3] == HookInserted(SETTLED_EVENT)
    ensures Enabled(s, Step(3, CHOICE))
    ensures var db := Next(s, Step(3, CHOICE)).w.db; 1 in db.refunds && db.refunds[1].status == Settled
  {
    SettlesRow(s.w.db);
  }

  lemma SettlesRow(db: Db)
    requires db == Tables(Row(Submitted, Some(FormatRef(1))), {SETTLED_EVENT.id})
    ensures var after := ApplyEvent(db, SETTLED_EVENT); 1 in after.refunds && after.refunds[1].status == Settled
  {
    assert FindRef(db, FormatRef(1)) == Some(1);
  }
}
