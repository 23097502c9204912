/** Reachable states, and one story that several of the limits of the engine are shown on: a refund that two
    submitters take up, the second of them while the first has not logged its move yet. */
module Scenario {
  import opened Outcomes
  import opened Errors
  import opened Ledger
  import opened Gateway
  import opened GatewayRef
  import opened Statements
  import opened Invariant
  import opened Protocol
  import opened ProtocolInvariant
  import opened Operations
  import opened Refinement

  const CHOICE := Choice(HEALTHY, 0)

  ghost predicate Reachable(s: State) {
    exists states, moves :: IsRunFromStart(states, moves) && states[|moves|] == s
  }

  lemma ReachableStart()
    ensures Reachable(START)
  {
    var none: seq<Move> := [];
    assert IsRunFromStart([START], none) && [START][|none|] == START;
  }

  lemma Reach(s: State, m: Move)
    requires Reachable(s) && Enabled(s, m)
    ensures Reachable(Next(s, m))
  {
    var states, moves :| IsRunFromStart(states, moves) && states[|moves|] == s;
    var longer, steps := states + [Next(s, m)], moves + [m];
    forall i | 0 <= i < |steps|
      ensures IsStepAt(longer, steps, i)
    {
      if i < |moves| {
        assert IsStepAt(states, moves, i);
      }
    }
    assert IsRunFromStart(longer, steps) && longer[|steps|] == Next(s, m);
  }

  lemma {:induction false} ReachAlong(states: seq<State>, moves: seq<Move>, i: nat)
    requires IsRun(states, moves) && Reachable(states[0]) && i <= |moves|
    ensures Reachable(states[i])
  {
    if i > 0 {
      ReachAlong(states, moves, i - 1);
      assert IsStepAt(states, moves, i - 1);
      Reach(states[i - 1], moves[i - 1]);
    }
  }

  /** An actor that finds nobody else at work may run to its end. */
  lemma ReachAlone(w: World, who: nat, a: Actor, choices: seq<Choice>)
    requires Reachable(State(w, map[who := a]))
    ensures var (x, b) := Alone(w, a, choices); Reachable(State(x, map[who := b]))
  {
    var states, moves := AloneIsSystemRun(w, who, a, choices);
    ReachAlong(states, moves, |moves|);
  }

  lemma ReachHookStep(w: World, actors: map<nat, Actor>, who: nat)
    requires Reachable(State(w, actors)) && who in actors && IsHook(actors[who])
    ensures var (x, b) := ActHook(w, actors[who]); Reachable(State(x, actors[who := b]))
  {
    Reach(State(w, actors), Step(who, CHOICE));
  }

  /** A verified webhook may be delivered at any moment and handled without interruption. */
  lemma ReachDelivery(w: World, actors: map<nat, Actor>, who: nat, e: WebhookEvent)
    requires Reachable(State(w, actors)) && who !in actors
    ensures var (db, reply) := HandleWebhook(w.db, e, true);
      Reachable(State(w.(db := db), actors[who := Done(reply)]))
  {
    Reach(State(w, actors), Spawn(who, HookBegin(e, true)));
    var begun := actors[who := HookBegin(e, true)];
    ReachHookStep(w, begun, who);
    if e.id in w.db.events {
      assert begun[who := Done(Webhook(Duplicate))] == actors[who := Done(Webhook(Duplicate))];
    } else {
      var inserted := begun[who := HookInserted(e)];
      ReachHookStep(w.(db := InsertEvent(w.db, e.id)), inserted, who);
      assert inserted[who := Done(Webhook(Applied))] == actors[who := Done(Webhook(Applied))];
    }
  }

  lemma ReachableIsInv(s: State)
    requires Reachable(s)
    ensures Inv(s)
  {
    var states, moves :| IsRunFromStart(states, moves) && states[|moves|] == s;
    ReachableInv(states, moves, |moves|);
  }

  // ---- a refund that two submitters take up ----

  const REQUEST := Request(1, 1, 500, "usd", "ann", None)

  const BORN := Transition(1, None, Requested, "ann", None)

  const SETTLED_EVENT := WebhookEvent("evt_1", "refund.settled", FormatRef(1), None)

  function Row(status: Status, ref: Option<string>): Refund {
    Refund(1, 500, "usd", ref, status, None, "ann", None)
  }

  function Tables(row: Refund, events: set<string>): Db {
    Db(map[1 := Charge(1000, "usd")], map[1 := row], [1], [BORN], events)
  }

  lemma RefundRequested()
    ensures Reachable(State(World(Tables(Row(Requested, None), {}), EMPTY, map[]), map[]))
  {
    ReachableStart();
    var charged := NewCharge(1, Charge(1000, "usd"));
    Reach(START, charged);
    var w := Next(START, charged).w;
    Reach(Next(START, charged), Spawn(0, RequestBegin(REQUEST)));
    assert map[][0 := RequestBegin(REQUEST)] == map[0 := RequestBegin(REQUEST)];
    RequestIsRun(w, REQUEST, CHOICE);
    ReachAlone(w, 0, RequestBegin(REQUEST), Times(6, CHOICE));
    var x := w.(db := RequestRefund(w.db, REQUEST).0);
    assert LiveSum(w.db, 1) == 0;
    var s := State(x, map[0 := Done(Refunded(1))]);
    Reach(s, Crash(0));
    assert s.actors - {0} == map[];
    assert x.db == Tables(Row(Requested, None), {});
  }

  /** The first submitter has marked the row but not yet logged the move. */
  lemma RowMarked()
    ensures Reachable(State(World(Tables(Row(Submitted, None), {}), EMPTY, map[]),
                            map[1 := SubmitMarked(1, Row(Requested, None))]))
  {
    RefundRequested();
    var w := World(Tables(Row(Requested, None), {}), EMPTY, map[]);
    Reach(State(w, map[]), Spawn(1, SubmitBegin(1)));
    assert map[][1 := SubmitBegin(1)] == map[1 := SubmitBegin(1)];
    ReachAlone(w, 1, SubmitBegin(1), Times(2, CHOICE));
    var row, x := Row(Requested, None), World(Tables(Row(Submitted, None), {}), EMPTY, map[]);
    assert MarkSubmitted(w.db, 1) == x.db;
    StepTo(w, SubmitBegin(1), 2, CHOICE, w, SubmitRead(1, row));
    StepTo(w, SubmitRead(1, row), 1, CHOICE, x, SubmitMarked(1, row));
    NothingLeft(x, SubmitMarked(1, row), CHOICE);
  }

  lemma ReachStep(w: World, actors: map<nat, Actor>, who: nat)
    requires Reachable(State(w, actors)) && who in actors && IsSubmit(actors[who])
    ensures var (x, b) := ActSubmit(w, actors[who], CHOICE.config); Reachable(State(x, actors[who := b]))
  {
    Reach(State(w, actors), Step(who, CHOICE));
  }

  const HELD := GatewayState(map[1 := GatewayRefund(FormatRef(1), 500, "usd", 1)], 1, 1)

  /** A second submitter finds it submitted, so logs nothing ... */
  lemma SecondSubmitterCalls(first: Actor)
    requires first == SubmitMarked(1, Row(Requested, None))
    ensures Reachable(State(World(Tables(Row(Submitted, None), {}), EMPTY, map[]),
                            map[1 := first, 2 := SubmitLogged(1, Row(Submitted, None))]))
  {
    RowMarked();
    var row := Row(Submitted, None);
    var w := World(Tables(row, {}), EMPTY, map[]);
    Reach(State(w, map[1 := first]), Spawn(2, SubmitBegin(1)));
    ReachStep(w, map[1 := first][2 := SubmitBegin(1)], 2);
    Settle(first, SubmitBegin(1), SubmitRead(1, row));
    ReachStep(w, map[1 := first, 2 := SubmitRead(1, row)], 2);
    Settle(first, SubmitRead(1, row), SubmitMarked(1, row));
    assert MarkSubmitted(w.db, 1) == w.db;
    ReachStep(w, map[1 := first, 2 := SubmitMarked(1, row)], 2);
    Settle(first, SubmitMarked(1, row), SubmitLogged(1, row));
  }

  /** ... and is answered by the gateway, with the ref not recorded yet ... */
  lemma RefInFlight(first: Actor)
    requires first == SubmitMarked(1, Row(Requested, None))
    ensures Reachable(State(World(Tables(Row(Submitted, None), {}), HELD, map[]),
                            map[1 := first, 2 := SubmitAccepted(1, FormatRef(1))]))
  {
    SecondSubmitterCalls(first);
    var row := Row(Submitted, None);
    var w := World(Tables(row, {}), EMPTY, map[]);
    ReachStep(w, map[1 := first, 2 := SubmitLogged(1, row)], 2);
    Settle(first, SubmitLogged(1, row), SubmitAccepted(1, FormatRef(1)));
    assert EMPTY.store[1 := GatewayRefund(FormatRef(1), 500, "usd", 1)] == HELD.store;
  }

  /** ... and gets it on record. */
  lemma RefRecordedUnlogged(first: Actor)
    requires first == SubmitMarked(1, Row(Requested, None))
    ensures Reachable(State(World(Tables(Row(Submitted, Some(FormatRef(1))), {}), HELD, map[]),
                            map[1 := first, 2 := Done(Submission(true))]))
  {
    RefInFlight(first);
    ReachStep(World(Tables(Row(Submitted, None), {}), HELD, map[]),
              map[1 := first, 2 := SubmitAccepted(1, FormatRef(1))], 2);
    Settle(first, SubmitAccepted(1, FormatRef(1)), Done(Submission(true)));
    RefIsRecorded({});
  }

  lemma RefIsRecorded(events: set<string>)
    ensures RecordRef(Tables(Row(Submitted, None), events), 1, FormatRef(1))
         == Some(Tables(Row(Submitted, Some(FormatRef(1))), events))
  {
    var db, row := Tables(Row(Submitted, None), events), Row(Submitted, Some(FormatRef(1)));
    assert !RefTaken(db, 1, FormatRef(1));
    assert db.refunds[1 := row] == map[1 := row];
  }

  lemma Settle(first: Actor, before: Actor, after: Actor)
    ensures map[1 := first][2 := before] == map[1 := first, 2 := before]
    ensures map[1 := first, 2 := before][2 := after] == map[1 := first, 2 := after]
  {
  }

  // ---- a large refund that two people approve ----

  const LARGE_REQUEST := Request(1, 1, 100_000, "usd", "ann", None)

  const LARGE_BORN := Transition(1, None, PendingReview, "ann", None)

  function LargeTables(status: Status, log: seq<Transition>): Db {
    var row := Refund(1, 100_000, "usd", None, status, None, "ann", None);
    Db(map[1 := Charge(100_000, "usd")], map[1 := row], [1], log, {})
  }

  lemma LargeRefundRequested()
    ensures Reachable(State(World(LargeTables(PendingReview, [LARGE_BORN]), EMPTY, map[]), map[]))
  {
    ReachableStart();
    var charged := NewCharge(1, Charge(100_000, "usd"));
    Reach(START, charged);
    var w := Next(START, charged).w;
    Reach(Next(START, charged), Spawn(0, RequestBegin(LARGE_REQUEST)));
    assert map[][0 := RequestBegin(LARGE_REQUEST)] == map[0 := RequestBegin(LARGE_REQUEST)];
    RequestIsRun(w, LARGE_REQUEST, CHOICE);
    ReachAlone(w, 0, RequestBegin(LARGE_REQUEST), Times(6, CHOICE));
    var x := w.(db := RequestRefund(w.db, LARGE_REQUEST).0);
    assert LiveSum(w.db, 1) == 0;
    var s := State(x, map[0 := Done(Refunded(1))]);
    Reach(s, Crash(0));
    assert s.actors - {0} == map[];
    assert x.db == LargeTables(PendingReview, [LARGE_BORN]);
  }

  /** One step of an approver, to a known place. */
  lemma ReachApproveStep(w: World, actors: map<nat, Actor>, who: nat, x: World, b: Actor)
    requires Reachable(State(w, actors)) && who in actors && IsApprove(actors[who])
    requires ActApprove(w, actors[who]) == (x, b)
    ensures Reachable(State(x, actors[who := b]))
  {
    Reach(State(w, actors), Step(who, CHOICE));
  }
}
