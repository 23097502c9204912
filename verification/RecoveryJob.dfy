/** One recovery job inside an arbitrary interleaved run. Whatever else runs or crashes beside it, it walks
    exactly the rows that were stuck when it looked, and it leaves none of them behind. */
module RecoveryJob {
  import opened Outcomes
  import opened Errors
  import opened Ledger
  import opened Gateway
  import opened Statements
  import opened Invariant
  import opened Protocol
  import opened ProtocolInvariant
  import opened Recovery

  /** What the job owes a row: known to the gateway if no call of its own timed out, and its ref on record if
      every call of its own was answered. */
  predicate Served(x: World, id: Uuid, landed: bool, answered: bool) {
    && (landed ==> id in x.gw.store)
    && (answered ==> id in x.db.refunds && x.db.refunds[id].gatewayRef.Some?)
  }

  predicate AllServed(x: World, ks: seq<Stuck>, landed: bool, answered: bool) {
    forall k :: k in ks ==> Served(x, k.id, landed, answered)
  }

  /** The part of the stuck list already walked. */
  function Behind(stuck: seq<Stuck>, todo: seq<Stuck>): seq<Stuck>
    requires |todo| <= |stuck|
  {
    stuck[..|stuck| - |todo|]
  }

  predicate IsRest(stuck: seq<Stuck>, todo: seq<Stuck>) {
    |todo| <= |stuck| && todo == stuck[|stuck| - |todo|..]
  }

  predicate RefInHand(a: Actor) {
    a.RecoverFound? || a.RecoverAccepted?
  }

  predicate RowDone(a: Actor) {
    a.RecoverRecorded? || a.RecoverCalled?
  }

  /** How far the job has come. */
  predicate Progress(x: World, stuck: seq<Stuck>, a: Actor, landed: bool, answered: bool) {
    if IsRecover(a) then
      && !a.RecoverBegin?
      && IsRest(stuck, a.todo) && a.total == |stuck|
      && AllServed(x, Behind(stuck, a.todo), landed, answered)
      && (RefInHand(a) && a.todo != [] ==> Served(x, a.todo[0].id, landed, false))
      && (RowDone(a) && a.todo != [] ==> Served(x, a.todo[0].id, landed, answered))
    else
      && a.Done? && a.reply.Recovery?
      && a.reply.report.walked == |stuck|
      && a.reply.report.walked == a.reply.report.alreadyAtGateway + a.reply.report.resubmitted
      && AllServed(x, stuck, landed, answered)
  }

  // ---- nobody else undoes the job's work ----

  lemma ServedStays(w: World, x: World, id: Uuid, landed: bool, answered: bool)
    requires RowsMove(w.db, x.db) && StoreGrows(w.gw, x.gw) && Served(w, id, landed, answered)
    ensures Served(x, id, landed, answered)
  {
    if answered {
      RowKept(w, x, id);
    }
  }

  lemma AllServedStays(w: World, x: World, ks: seq<Stuck>, landed: bool, answered: bool)
    requires RowsMove(w.db, x.db) && StoreGrows(w.gw, x.gw) && AllServed(w, ks, landed, answered)
    ensures AllServed(x, ks, landed, answered)
  {
    forall k | k in ks
      ensures Served(x, k.id, landed, answered)
    {
      ServedStays(w, x, k.id, landed, answered);
    }
  }

  lemma ProgressStays(w: World, x: World, stuck: seq<Stuck>, a: Actor, landed: bool, answered: bool)
    requires RowsMove(w.db, x.db) && StoreGrows(w.gw, x.gw) && Progress(w, stuck, a, landed, answered)
    ensures Progress(x, stuck, a, landed, answered)
  {
    if IsRecover(a) {
      AllServedStays(w, x, Behind(stuck, a.todo), landed, answered);
      if a.todo != [] && RefInHand(a) {
        ServedStays(w, x, a.todo[0].id, landed, false);
      }
      if a.todo != [] && RowDone(a) {
        ServedStays(w, x, a.todo[0].id, landed, answered);
      }
    } else {
      AllServedStays(w, x, stuck, landed, answered);
    }
  }

  // ---- the job's own steps ----

  /** The answers the environment gives to this step, if it calls the gateway. */
  predicate StepServes(a: Actor, config: MockConfig, landed: bool, answered: bool) {
    a.RecoverMarked? ==> (landed ==> !config.timeOut) && (answered ==> config == HEALTHY)
  }

  /** A row in hand that is served joins the rows behind. */
  lemma RowBehind(x: World, stuck: seq<Stuck>, todo: seq<Stuck>, landed: bool, answered: bool)
    requires todo != [] && IsRest(stuck, todo)
    requires AllServed(x, Behind(stuck, todo), landed, answered) && Served(x, todo[0].id, landed, answered)
    ensures IsRest(stuck, todo[1..]) && AllServed(x, Behind(stuck, todo[1..]), landed, answered)
  {
    assert Behind(stuck, todo[1..]) == Behind(stuck, todo) + [todo[0]];
  }

  lemma LooksProgress(w: World, stuck: seq<Stuck>, a: Actor, config: MockConfig, landed: bool, answered: bool)
    requires a.RecoverNext? || a.RecoverMissing? || a.RecoverRead?
    requires RecoverInv(w, a) && Progress(w, stuck, a, landed, answered)
    ensures var (x, next) := ActRecover(w, a, config);
      x.gw == w.gw && (x.db == w.db || next.RecoverMarked?)
      && Progress(w, stuck, next, landed, answered)
  {
    if a.todo == [] {
      assert Behind(stuck, []) == stuck;
    } else {
      TodoTail(w, a.todo);
    }
  }

  /** Either recording statement leaves the row with a ref, its own or the new one. */
  lemma RecordedHasRef(db: Db, id: Uuid, ref: string)
    requires id in db.refunds
    ensures RecoverRef(db, id, ref).Some? ==>
      var after := RecoverRef(db, id, ref).value; id in after.refunds && after.refunds[id].gatewayRef.Some?
    ensures RecordRef(db, id, ref).Some? ==>
      var after := RecordRef(db, id, ref).value; id in after.refunds && after.refunds[id].gatewayRef.Some?
  {
  }

  /** Moving on within the row in hand. */
  lemma InHandProgress(
    w: World, x: World, stuck: seq<Stuck>, a: Actor, next: Actor, landed: bool, answered: bool)
    requires RowsMove(w.db, x.db) && StoreGrows(w.gw, x.gw) && Progress(w, stuck, a, landed, answered)
    requires IsRecover(a) && IsRecover(next) && !next.RecoverBegin? && a.todo != []
    requires next.todo == a.todo && next.total == a.total
    requires RefInHand(next) ==> Served(x, a.todo[0].id, landed, false)
    requires RowDone(next) ==> Served(x, a.todo[0].id, landed, answered)
    ensures Progress(x, stuck, next, landed, answered)
  {
    AllServedStays(w, x, Behind(stuck, a.todo), landed, answered);
  }

  lemma FoundProgress(w: World, stuck: seq<Stuck>, a: Actor, config: MockConfig, landed: bool, answered: bool)
    requires a.RecoverFound? && LedgerInv(w) && RecoverInv(w, a) && Progress(w, stuck, a, landed, answered)
    ensures var (x, next) := ActRecover(w, a, config); Progress(x, stuck, next, landed, answered)
  {
    var id := a.todo[0].id;
    RecoverRecords(w, a.todo, a.report, a.total, a.ref);
    TodoTail(w, a.todo);
    RecordedHasRef(w.db, id, a.ref);
    var x := w.(db := RecoverRef(w.db, id, a.ref).value);
    InHandProgress(w, x, stuck, a, RecoverRecorded(a.todo, a.report, a.total), landed, answered);
  }

  lemma AcceptedProgress(w: World, stuck: seq<Stuck>, a: Actor, config: MockConfig, landed: bool, answered: bool)
    requires a.RecoverAccepted? && LedgerInv(w) && RecoverInv(w, a) && Progress(w, stuck, a, landed, answered)
    ensures var (x, next) := ActRecover(w, a, config); Progress(x, stuck, next, landed, answered)
  {
    var id := a.todo[0].id;
    RecoverRecordsNew(w, a.todo, a.report, a.total, a.ref);
    RecordedHasRef(w.db, id, a.ref);
    var x := w.(db := RecordRef(w.db, id, a.ref).value);
    InHandProgress(w, x, stuck, a, RecoverCalled(a.todo, a.report, a.total), landed, answered);
  }

  /** What one call leaves known, and when it must have been answered. */
  lemma CallAnswer(gw: GatewayState, amount: int, currency: string, id: Uuid, config: MockConfig)
    ensures var (after, outcome) := Create(gw, amount, currency, id, config);
      && StoreGrows(gw, after)
      && (!config.timeOut || outcome.Accepted? ==> id in after.store)
      && (config == HEALTHY ==> outcome.Accepted?)
  {
  }

  lemma CallsProgress(w: World, stuck: seq<Stuck>, a: Actor, config: MockConfig, landed: bool, answered: bool)
    requires a.RecoverMarked? && a.todo != [] && Progress(w, stuck, a, landed, answered)
    requires StepServes(a, config, landed, answered)
    ensures var (x, next) := ActRecover(w, a, config); Progress(x, stuck, next, landed, answered)
  {
    CallAnswer(w.gw, a.amount, a.currency, a.todo[0].id, config);
    var (gw, outcome) := Create(w.gw, a.amount, a.currency, a.todo[0].id, config);
    var next := if outcome.Accepted? then RecoverAccepted(a.todo, a.report, a.total, outcome.refund.id)
                else RecoverCalled(a.todo, a.report, a.total);
    InHandProgress(w, w.(gw := gw), stuck, a, next, landed, answered);
  }

  lemma LogsProgress(w: World, stuck: seq<Stuck>, a: Actor, config: MockConfig, landed: bool, answered: bool)
    requires RowDone(a) && a.todo != [] && Progress(w, stuck, a, landed, answered)
    ensures var (x, next) := ActRecover(w, a, config); Progress(x, stuck, next, landed, answered)
  {
    var (x, next) := ActRecover(w, a, config);
    ProgressStays(w, x, stuck, a, landed, answered);
    RowBehind(x, stuck, a.todo, landed, answered);
  }

  lemma StepProgress(w: World, stuck: seq<Stuck>, a: Actor, config: MockConfig, landed: bool, answered: bool)
    requires IsRecover(a) && LedgerInv(w) && RecoverInv(w, a) && Progress(w, stuck, a, landed, answered)
    requires StepServes(a, config, landed, answered)
    ensures var (x, next) := ActRecover(w, a, config); Progress(x, stuck, next, landed, answered)
  {
    if a.RecoverFound? {
      FoundProgress(w, stuck, a, config, landed, answered);
    } else if a.RecoverAccepted? {
      AcceptedProgress(w, stuck, a, config, landed, answered);
    } else if RowDone(a) {
      LogsProgress(w, stuck, a, config, landed, answered);
    } else if a.RecoverMarked? {
      CallsProgress(w, stuck, a, config, landed, answered);
    } else {
      var (x, next) := ActRecover(w, a, config);
      RecoverStep(w, a, config, x, next);
      LooksProgress(w, stuck, a, config, landed, answered);
      ProgressStays(w, x, stuck, next, landed, answered);
    }
  }

  lemma BeginProgress(w: World, config: MockConfig, landed: bool, answered: bool)
    ensures var (x, next) := ActRecover(w, RecoverBegin, config);
      Progress(x, SelectStuck(w.db), next, landed, answered)
  {
    assert Behind(SelectStuck(w.db), SelectStuck(w.db)) == [];
  }

  // ---- the job within a run ----

  predicate OwnStep(m: Move, who: nat) {
    m.Step? && m.who == who
  }

  /** `who` is never gone between `b` and `e`: it neither crashes nor is started anew. */
  predicate Uncrashed(states: seq<State>, who: nat, b: nat, e: nat) {
    b <= e < |states| && forall k :: b <= k <= e ==> who in states[k].actors
  }

  /** The job looks for stuck rows at move `b` and is the same job up to state `e`. */
  predicate IsJob(states: seq<State>, moves: seq<Move>, who: nat, b: nat, e: nat) {
    && b < e <= |moves| < |states|
    && Uncrashed(states, who, b, e)
    && states[b].actors[who] == RecoverBegin
    && OwnStep(moves[b], who)
  }

  predicate CallServes(s: State, m: Move, who: nat, landed: bool, answered: bool) {
    OwnStep(m, who) && who in s.actors ==> StepServes(s.actors[who], m.choice.config, landed, answered)
  }

  /** How the gateway treats the job's own calls: none times out; all are answered. Nothing is asked of the
      gateway's behaviour towards anyone else. */
  predicate CallsServe(states: seq<State>, moves: seq<Move>, who: nat, b: nat, e: nat, landed: bool, answered: bool)
    requires e <= |moves| < |states|
  {
    forall k :: b <= k < e ==> CallServes(states[k], moves[k], who, landed, answered)
  }

  /** A move of someone else leaves an actor where it was. */
  lemma OthersLeaveActor(s: State, m: Move, who: nat)
    requires Enabled(s, m) && who in s.actors && who in Next(s, m).actors && !OwnStep(m, who)
    ensures Next(s, m).actors[who] == s.actors[who]
  {
  }

  lemma MoveProgress(s: State, m: Move, who: nat, stuck: seq<Stuck>, landed: bool, answered: bool)
    requires Inv(s) && Enabled(s, m) && who in s.actors && who in Next(s, m).actors
    requires Progress(s.w, stuck, s.actors[who], landed, answered)
    requires CallServes(s, m, who, landed, answered)
    ensures Progress(Next(s, m).w, stuck, Next(s, m).actors[who], landed, answered)
  {
    var a := s.actors[who];
    if OwnStep(m, who) && IsRecover(a) {
      assert ActorInv(s.w, a);
      StepProgress(s.w, stuck, a, m.choice.config, landed, answered);
    } else {
      OthersMoveProgress(s, m, who, stuck, landed, answered);
    }
  }

  lemma OthersMoveProgress(s: State, m: Move, who: nat, stuck: seq<Stuck>, landed: bool, answered: bool)
    requires Inv(s) && Enabled(s, m) && who in s.actors && who in Next(s, m).actors
    requires !OwnStep(m, who) || s.actors[who].Done?
    requires Progress(s.w, stuck, s.actors[who], landed, answered)
    ensures Progress(Next(s, m).w, stuck, Next(s, m).actors[who], landed, answered)
  {
    NextKeepsInv(s, m);
    if !OwnStep(m, who) {
      OthersLeaveActor(s, m, who);
    }
    ProgressStays(s.w, Next(s, m).w, stuck, s.actors[who], landed, answered);
  }

  lemma JobProgressStart(
    states: seq<State>, moves: seq<Move>, who: nat, b: nat, landed: bool, answered: bool)
    requires IsRun(states, moves) && IsJob(states, moves, who, b, b + 1)
    ensures Progress(states[b + 1].w, SelectStuck(states[b].w.db), states[b + 1].actors[who], landed, answered)
  {
    assert IsStepAt(states, moves, b);
    BeginProgress(states[b].w, moves[b].choice.config, landed, answered);
  }

  lemma JobProgressStep(
    states: seq<State>, moves: seq<Move>, who: nat, k: nat, stuck: seq<Stuck>, landed: bool, answered: bool)
    requires IsRunFromStart(states, moves) && k < |moves|
    requires who in states[k].actors && who in states[k + 1].actors
    requires CallServes(states[k], moves[k], who, landed, answered)
    requires Progress(states[k].w, stuck, states[k].actors[who], landed, answered)
    ensures Progress(states[k + 1].w, stuck, states[k + 1].actors[who], landed, answered)
  {
    ReachableInv(states, moves, k);
    assert IsStepAt(states, moves, k);
    MoveProgress(states[k], moves[k], who, stuck, landed, answered);
  }

  lemma {:induction false} JobProgress(
    states: seq<State>, moves: seq<Move>, who: nat, b: nat, e: nat, landed: bool, answered: bool)
    requires IsRunFromStart(states, moves) && IsJob(states, moves, who, b, e)
    requires CallsServe(states, moves, who, b, e, landed, answered)
    ensures Progress(states[e].w, SelectStuck(states[b].w.db), states[e].actors[who], landed, answered)
    decreases e
  {
    if e == b + 1 {
      JobProgressStart(states, moves, who, b, landed, answered);
    } else {
      JobProgress(states, moves, who, b, e - 1, landed, answered);
      assert CallServes(states[e - 1], moves[e - 1], who, landed, answered);
      JobProgressStep(states, moves, who, e - 1, SelectStuck(states[b].w.db), landed, answered);
    }
  }

  // ---- main results ----

  /** A finished job never ends in an error and accounts for exactly the rows that were stuck when it looked:
      each one is known to the gateway if no call of the job timed out, and carries the gateway's own ref if
      every call was answered, whatever other actors and crashes came in between. */
  lemma JobLeavesNoneBehind(
    states: seq<State>, moves: seq<Move>, who: nat, b: nat, e: nat, landed: bool, answered: bool)
    requires IsRunFromStart(states, moves) && IsJob(states, moves, who, b, e)
    requires CallsServe(states, moves, who, b, e, landed, answered)
    requires states[e].actors[who].Done?
    ensures var reply := states[e].actors[who].reply;
      && reply.Recovery?
      && reply.report.walked == |SelectStuck(states[b].w.db)|
      && reply.report.walked == reply.report.alreadyAtGateway + reply.report.resubmitted
    ensures landed ==> forall id :: IsStuckRow(states[b].w.db, id) ==> id in states[e].w.gw.store
    ensures answered ==> forall id :: IsStuckRow(states[b].w.db, id) ==> HoldsOwnRef(states[e].w, id)
  {
    JobProgress(states, moves, who, b, e, landed, answered);
    ReachableInv(states, moves, b);
    ReachableInv(states, moves, e);
    forall id | IsStuckRow(states[b].w.db, id)
      ensures landed ==> id in states[e].w.gw.store
      ensures answered ==> HoldsOwnRef(states[e].w, id)
    {
      StuckRowServed(states[b].w, states[e].w, id, landed, answered);
    }
  }

  /** The row carries the ref the gateway stores under its key. */
  predicate HoldsOwnRef(x: World, id: Uuid) {
    && id in x.db.refunds && id in x.gw.store
    && x.db.refunds[id].gatewayRef == Some(x.gw.store[id].id)
    && Rank(x.db.refunds[id].status) >= Rank(Submitted)
  }

  lemma StuckRowServed(w: World, x: World, id: Uuid, landed: bool, answered: bool)
    requires Enumerated(w.db) && RowsOk(x) && IsStuckRow(w.db, id)
    requires AllServed(x, SelectStuck(w.db), landed, answered)
    ensures landed ==> id in x.gw.store
    ensures answered ==> HoldsOwnRef(x, id)
  {
    SelectStuckFresh(w.db);
    assert Walks(SelectStuck(w.db), id);
    var k :| k in SelectStuck(w.db) && k.id == id;
    assert Served(x, k.id, landed, answered);
    if answered {
      assert RowOk(x, id, x.db.refunds[id]);
    }
  }

  // ---- every job has a beginning ----

  predicate InJob(a: Actor) {
    (IsRecover(a) && !a.RecoverBegin?) || (a.Done? && a.reply.Recovery?)
  }

  lemma InJobFromRecover(w: World, a: Actor, choice: Choice)
    requires InJob(Act(w, a, choice).1)
    ensures a.RecoverBegin? || InJob(a)
  {
  }

  lemma InJobBefore(s: State, m: Move, who: nat)
    requires Enabled(s, m) && who in Next(s, m).actors && InJob(Next(s, m).actors[who])
    ensures who in s.actors
    ensures InJob(s.actors[who]) || (s.actors[who] == RecoverBegin && OwnStep(m, who))
  {
    if OwnStep(m, who) {
      InJobFromRecover(s.w, s.actors[who], m.choice);
    }
  }

  lemma {:induction false} JobBegan(states: seq<State>, moves: seq<Move>, who: nat, e: nat) returns (b: nat)
    requires IsRunFromStart(states, moves) && e <= |moves|
    requires who in states[e].actors && InJob(states[e].actors[who])
    ensures IsJob(states, moves, who, b, e)
    decreases e
  {
    assert e > 0;
    assert IsStepAt(states, moves, e - 1);
    InJobBefore(states[e - 1], moves[e - 1], who);
    if InJob(states[e - 1].actors[who]) {
      b := JobBegan(states, moves, who, e - 1);
    } else {
      b := e - 1;
    }
  }

  /** Whatever ran beside it, a recovery's report counts, each in exactly one class, the rows that were stuck
      in the earlier state of the same run in which the job looked. */
  lemma ReportsAddUp(states: seq<State>, moves: seq<Move>, who: nat, e: nat, report: RecoveryReport) returns (b: nat)
    requires IsRunFromStart(states, moves) && e <= |moves|
    requires who in states[e].actors && states[e].actors[who] == Done(Recovery(report))
    ensures IsJob(states, moves, who, b, e)
    ensures report.walked == |SelectStuck(states[b].w.db)| == report.alreadyAtGateway + report.resubmitted
  {
    b := JobBegan(states, moves, who, e);
    JobLeavesNoneBehind(states, moves, who, b, e, false, false);
  }
}
