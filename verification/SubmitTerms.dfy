/** `submit_refund` in plain terms: what each of its answers means, what it writes, and what `true` means in any
    run. */
module SubmitTerms {
  import opened Outcomes
  import opened Errors
  import opened Ledger
  import opened Gateway
  import opened Statements
  import opened Invariant
  import opened Protocol
  import opened ProtocolInvariant
  import opened ProtocolTheorems
  import opened Operations
  import opened Recovery

  // ---- nothing to submit ----

  /** An id with no row is refused; a row in review or with a verdict is answered `false`; neither call changes a
      table or reaches the gateway. */
  lemma NothingToSubmit(db: Db, gw: GatewayState, id: Uuid, config: MockConfig)
    ensures id !in db.refunds ==> Submit(db, gw, id, config) == (db, gw, Rejected(RefundNotFound(id)))
    ensures id in db.refunds && db.refunds[id].status != Requested && db.refunds[id].status != Submitted ==>
      Submit(db, gw, id, config) == (db, gw, Submission(false))
  {
  }

  // ---- a submission ----

  predicate MaySubmit(db: Db, id: Uuid) {
    id in db.refunds && (db.refunds[id].status == Requested || db.refunds[id].status == Submitted)
  }

  /** The gateway's answer gets through: the response is not dropped and the call did not time out on a new key. */
  predicate GetsAnswer(gw: GatewayState, id: Uuid, config: MockConfig) {
    !config.dropResponse && (id in gw.store || !config.timeOut)
  }

  /** The row after a submission. */
  function SubmittedRow(r: Refund, id: Uuid, after: GatewayState, answered: bool): Refund {
    if r.gatewayRef == None && answered && id in after.store
    then r.(status := Submitted, gatewayRef := Some(after.store[id].id))
    else r.(status := Submitted)
  }

  lemma CallPlainly(gw: GatewayState, amount: int, currency: string, id: Uuid, config: MockConfig)
    ensures var (after, outcome) := Create(gw, amount, currency, id, config);
      && (outcome.Accepted? <==> GetsAnswer(gw, id, config))
      && (outcome.Accepted? ==> id in after.store && outcome.refund == after.store[id])
      && (id in after.store <==> id in gw.store || !config.timeOut)
  {
  }

  /** The row marked and the ref recorded, in one. */
  lemma MarkedThenRecorded(db: Db, id: Uuid, after: GatewayState)
    requires MaySubmit(db, id) && id in after.store
    ensures RefRecorded(MarkSubmitted(db, id), id, after.store[id].id)
         == db.(refunds := db.refunds[id := SubmittedRow(db.refunds[id], id, after, true)])
  {
    var r := db.refunds[id];
    var marked := r.(status := Submitted);
    var row := SubmittedRow(r, id, after, true);
    assert db.refunds[id := marked][id := row] == db.refunds[id := row];
  }

  lemma RecordsAnswer(w: World, id: Uuid, config: MockConfig, after: GatewayState)
    requires LedgerInv(w) && MaySubmit(w.db, id) && id in after.store
    requires after == Create(w.gw, w.db.refunds[id].amountCents, w.db.refunds[id].currency, id, config).0
    ensures RecordRef(MarkSubmitted(w.db, id), id, after.store[id].id)
         == Some(w.db.(refunds := w.db.refunds[id := SubmittedRow(w.db.refunds[id], id, after, true)]))
  {
    MarkedCalled(w, id, config);
    RecordSucceeds(w.(db := MarkSubmitted(w.db, id), gw := after), id, after.store[id].id);
    MarkedThenRecorded(w.db, id, after);
  }

  lemma SubmittedRecords(w: World, id: Uuid, config: MockConfig)
    requires LedgerInv(w) && MaySubmit(w.db, id)
    ensures var r := w.db.refunds[id];
      var (after, outcome) := Create(w.gw, r.amountCents, r.currency, id, config);
      outcome.Accepted? ==>
        RecordRef(MarkSubmitted(w.db, id), id, outcome.refund.id)
        == Some(w.db.(refunds := w.db.refunds[id := SubmittedRow(r, id, after, true)]))
  {
    var r := w.db.refunds[id];
    CallPlainly(w.gw, r.amountCents, r.currency, id, config);
    var after := Create(w.gw, r.amountCents, r.currency, id, config).0;
    if id in after.store {
      RecordsAnswer(w, id, config, after);
    }
  }

  /** What a submission writes, and its answer: the row becomes `submitted` and takes the gateway's ref if it has
      none and the answer got through; a requested row gets one audit row; nothing else in the tables changes; and
      the answer is `true` if and only if the gateway's got through. */
  lemma SubmissionWrites(w: World, id: Uuid, config: MockConfig)
    requires LedgerInv(w) && MaySubmit(w.db, id)
    ensures var r := w.db.refunds[id];
      var done := Submit(w.db, w.gw, id, config);
      var answered := GetsAnswer(w.gw, id, config);
      && done.2 == Submission(answered)
      && done.0 == Db(
           charges := w.db.charges,
           refunds := w.db.refunds[id := SubmittedRow(r, id, done.1, answered)],
           created := w.db.created,
           log := if r.status == Submitted then w.db.log else w.db.log + [Transition(
             refundId := id, from := Some(Requested), to := Submitted, actor := "job:submit", reason := None)],
           events := w.db.events)
      && (id in done.1.store <==> id in w.gw.store || !config.timeOut)
  {
    var r := w.db.refunds[id];
    CallPlainly(w.gw, r.amountCents, r.currency, id, config);
    SubmittedRecords(w, id, config);
    RecordIgnoresLog(MarkSubmitted(w.db, id), SubmitEntry(id, r.status), id,
                     Create(w.gw, r.amountCents, r.currency, id, config).1);
  }

  lemma RecordIgnoresLog(db: Db, e: Transition, id: Uuid, outcome: GatewayOutcome)
    ensures outcome.Accepted? ==>
      RecordRef(AppendLog(db, e), id, outcome.refund.id)
      == (match RecordRef(db, id, outcome.refund.id)
          case None => None
          case Some(recorded) => Some(AppendLog(recorded, e)))
  {
  }

  /** So `true` means: the row exists, the gateway holds its key for its own amount and currency, and the row
      carries the id of that entry. */
  lemma TrueMeansRecorded(w: World, id: Uuid, config: MockConfig)
    requires LedgerInv(w) && Submit(w.db, w.gw, id, config).2 == Submission(true)
    ensures var (db, gw, _) := Submit(w.db, w.gw, id, config);
      && MaySubmit(w.db, id) && GetsAnswer(w.gw, id, config)
      && id in db.refunds && id in gw.store
      && db.refunds[id].status == Submitted && db.refunds[id].gatewayRef == Some(gw.store[id].id)
      && gw.store[id].amount == db.refunds[id].amountCents && gw.store[id].currency == db.refunds[id].currency
  {
    NothingToSubmit(w.db, w.gw, id, config);
    SubmissionWrites(w, id, config);
    SubmittedMoney(w, id, config);
  }

  lemma SubmittedMoney(w: World, id: Uuid, config: MockConfig)
    requires LedgerInv(w) && MaySubmit(w.db, id)
    ensures var gw := Submit(w.db, w.gw, id, config).1; var r := w.db.refunds[id];
      && (id in gw.store ==> gw.store[id].amount == r.amountCents && gw.store[id].currency == r.currency)
      && (r.gatewayRef.Some? ==> id in gw.store && r.gatewayRef == Some(gw.store[id].id))
  {
    CalledMoney(w, id, config);
    SubmitCallsOnce(w.db, w.gw, id, config);
  }

  lemma SubmitCallsOnce(db: Db, gw: GatewayState, id: Uuid, config: MockConfig)
    requires MaySubmit(db, id)
    ensures Submit(db, gw, id, config).1
         == Create(gw, db.refunds[id].amountCents, db.refunds[id].currency, id, config).0
  {
  }

  lemma CalledMoney(w: World, id: Uuid, config: MockConfig)
    requires RowsOk(w) && Consistent(w.gw) && id in w.db.refunds
    ensures var r := w.db.refunds[id]; var gw := Create(w.gw, r.amountCents, r.currency, id, config).0;
      && (id in gw.store ==> gw.store[id].amount == r.amountCents && gw.store[id].currency == r.currency)
      && (r.gatewayRef.Some? ==> id in gw.store && r.gatewayRef == Some(gw.store[id].id))
  {
    assert RowOk(w, id, w.db.refunds[id]);
  }

  // ---- any run ----

  predicate SubmitsRow(a: Actor, id: Uuid) {
    && (a.SubmitBegin? || a.SubmitRead? || a.SubmitMarked? || a.SubmitLogged? || a.SubmitAccepted?)
    && a.id == id
  }

  lemma TrueFromRecording(w: World, a: Actor, choice: Choice)
    requires !a.Done? && Act(w, a, choice).1 == Done(Submission(true))
    ensures a.SubmitAccepted?
  {
  }

  lemma StaysOnRow(w: World, a: Actor, choice: Choice, id: Uuid)
    requires SubmitsRow(Act(w, a, choice).1, id)
    ensures SubmitsRow(a, id)
  {
  }

  /** In any run, `true` is answered only from the step that records a ref, which the answering submitter took for
      the row it was started for. */
  lemma {:induction false} TrueWasRecording(states: seq<State>, moves: seq<Move>, i: nat, who: nat)
    returns (j: nat, id: Uuid, ref: string)
    requires IsRunFromStart(states, moves) && i <= |moves|
    requires who in states[i].actors && states[i].actors[who] == Done(Submission(true))
    ensures j < i && moves[j].Step? && moves[j].who == who
    ensures who in states[j].actors && states[j].actors[who] == SubmitAccepted(id, ref)
    ensures who in states[j + 1].actors && states[j + 1].actors[who] == Done(Submission(true))
  {
    assert i > 0;
    var s, m := states[i - 1], moves[i - 1];
    assert IsStepAt(states, moves, i - 1);
    if who in s.actors && s.actors[who] != states[i].actors[who] {
      assert m.Step? && m.who == who;
      if !s.actors[who].Done? {
        TrueFromRecording(s.w, s.actors[who], m.choice);
      }
      j, id, ref := i - 1, s.actors[who].id, s.actors[who].ref;
    } else {
      j, id, ref := TrueWasRecording(states, moves, i - 1, who);
    }
  }

  /** A submitter at work on a row was started for that row. */
  lemma {:induction false} SubmitterWasStarted(states: seq<State>, moves: seq<Move>, i: nat, who: nat, id: Uuid)
    returns (b: nat)
    requires IsRunFromStart(states, moves) && i <= |moves|
    requires who in states[i].actors && SubmitsRow(states[i].actors[who], id)
    ensures b < i && moves[b] == Spawn(who, SubmitBegin(id))
    ensures forall k :: b < k <= i ==> who in states[k].actors && SubmitsRow(states[k].actors[who], id)
  {
    assert i > 0;
    var s, m := states[i - 1], moves[i - 1];
    assert IsStepAt(states, moves, i - 1);
    if who !in s.actors {
      b := i - 1;
    } else {
      if m.Step? && m.who == who {
        StaysOnRow(s.w, s.actors[who], m.choice, id);
      }
      b := SubmitterWasStarted(states, moves, i - 1, who, id);
    }
  }

  /** From its recording step on, the row a submitter answered `true` for carries the ref it recorded, which is the
      id the gateway stores under that row's key. */
  lemma TrueMeansRefFromThenOn(states: seq<State>, moves: seq<Move>, i: nat, who: nat)
    returns (b: nat, j: nat, id: Uuid, ref: string)
    requires IsRunFromStart(states, moves) && i <= |moves|
    requires who in states[i].actors && states[i].actors[who] == Done(Submission(true))
    ensures b < j < i && moves[b] == Spawn(who, SubmitBegin(id))
    ensures moves[j].Step? && moves[j].who == who
    ensures who in states[j].actors && states[j].actors[who] == SubmitAccepted(id, ref)
    ensures forall k :: j < k <= |moves| ==> HasRef(states[k].w, id, ref)
  {
    j, id, ref := TrueWasRecording(states, moves, i, who);
    b := SubmitterWasStarted(states, moves, j, who, id);
    RecordedAt(states, moves, j, who, id, ref);
    forall k | j < k <= |moves|
      ensures HasRef(states[k].w, id, ref)
    {
      RunIsMonotone(states, moves, j + 1, k);
    }
  }

  predicate HasRef(w: World, id: Uuid, ref: string) {
    && id in w.db.refunds && id in w.gw.store
    && w.db.refunds[id].gatewayRef == Some(ref) && w.gw.store[id].id == ref
  }

  lemma RecordedAt(states: seq<State>, moves: seq<Move>, j: nat, who: nat, id: Uuid, ref: string)
    requires IsRunFromStart(states, moves) && j < |moves| && moves[j].Step? && moves[j].who == who
    requires who in states[j].actors && states[j].actors[who] == SubmitAccepted(id, ref)
    ensures HasRef(states[j + 1].w, id, ref)
  {
    ReachableInv(states, moves, j);
    ActorInvAt(states, moves, j, who);
    assert IsStepAt(states, moves, j);
    RecordsOwnRef(states[j].w, id, ref, moves[j].choice.config);
  }

  lemma RecordsOwnRef(w: World, id: Uuid, ref: string, config: MockConfig)
    requires RowsOk(w) && Consistent(w.gw) && StoredRef(w, id, ref) && id in w.db.refunds
    ensures HasRef(ActSubmit(w, SubmitAccepted(id, ref), config).0, id, ref)
  {
    assert RowOk(w, id, w.db.refunds[id]);
    RecordSucceeds(w, id, ref);
    var x := w.(db := RefRecorded(w.db, id, ref));
    assert ActSubmit(w, SubmitAccepted(id, ref), config).0 == x;
    assert x.gw == w.gw && id in x.db.refunds;
  }
}
