/** Converge, don't guess: however a batch of submissions dies, one recovery against a healthy gateway
    reaches what submitting every row cleanly would have reached, up to the names of the gateway refs. */
module CrashRecovery {
  import opened Outcomes
  import opened Ledger
  import opened Gateway
  import opened Statements
  import opened Invariant
  import opened Protocol
  import opened ProtocolInvariant
  import opened Operations
  import opened Refinement
  import opened Recovery

  // ---- the clean run ----

  function Submitted1(w: World, id: Uuid, config: MockConfig): World {
    var (db, gw, _) := Submit(w.db, w.gw, id, config);
    w.(db := db, gw := gw)
  }

  lemma SubmitKeepsInv(w: World, id: Uuid, config: MockConfig)
    requires LedgerInv(w)
    ensures LedgerInv(Submitted1(w, id, config))
  {
    SubmitIsRun(w, id, Choice(config, 0));
    AloneKeepsInv(w, SubmitBegin(id), Times(5, Choice(config, 0)));
  }

  /** Every row submitted in turn against a healthy gateway. */
  function CleanRun(w: World, batch: seq<Uuid>): World
    decreases |batch|
  {
    if batch == [] then w else CleanRun(Submitted1(w, batch[0], HEALTHY), batch[1..])
  }

  ghost predicate KeysGainBatch(w: World, x: World, batch: seq<Uuid>) {
    forall id: Uuid :: id in x.gw.store <==> id in w.gw.store || id in batch
  }

  predicate BatchLinked(x: World, batch: seq<Uuid>) {
    forall id :: id in batch ==> Linked(x, id)
  }

  predicate OthersSame(w: World, x: World, batch: seq<Uuid>) {
    forall id :: id in w.db.refunds && id !in batch ==> id in x.db.refunds && x.db.refunds[id] == w.db.refunds[id]
  }

  predicate SameMoneyAsBefore(w: World, x: World) {
    forall id :: id in w.db.refunds ==>
      SameMoney(x, id, w.db.refunds[id].amountCents, w.db.refunds[id].currency)
  }

  /** What submitting some of the requested rows cleanly does, and all it does. */
  ghost predicate SubmittedCleanly(w: World, x: World, batch: seq<Uuid>) {
    && LedgerInv(x)
    && SameTables(w, x)
    && KeysGainBatch(w, x, batch)
    && BatchLinked(x, batch)
    && OthersSame(w, x, batch)
    && SameMoneyAsBefore(w, x)
  }

  predicate AllRequested(db: Db, batch: seq<Uuid>) {
    forall id :: id in batch ==> id in db.refunds && db.refunds[id].status == Requested
  }

  lemma NotYetIssued(w: World, id: Uuid)
    requires RowsOk(w) && id in w.db.refunds && w.db.refunds[id].status == Requested
    ensures id !in w.gw.store && w.db.refunds[id].gatewayRef.None?
  {
    assert RowOk(w, id, w.db.refunds[id]);
  }

  /** Logging does not interfere with the update of the row. */
  lemma LogCommutes(db: Db, e: Transition, id: Uuid, ref: string)
    ensures RecordRef(AppendLog(db, e), id, ref)
         == match RecordRef(db, id, ref) case None => None case Some(recorded) => Some(AppendLog(recorded, e))
  {
  }

  lemma CleanOne(w: World, id: Uuid)
    requires LedgerInv(w) && id in w.db.refunds && w.db.refunds[id].status == Requested
    ensures var x := Submitted1(w, id, HEALTHY); var r := w.db.refunds[id];
      && x.db.refunds == w.db.refunds[id := RecoveredRow(r, id, x.gw, true)]
      && x.db.created == w.db.created && x.db.charges == w.db.charges && x.approvals == w.approvals
      && x.gw == Create(w.gw, r.amountCents, r.currency, id, HEALTHY).0
      && Submit(w.db, w.gw, id, HEALTHY).2 == Submission(true)
  {
    var r := w.db.refunds[id];
    NotYetIssued(w, id);
    ResubmitAnswered(w, id);
    var (gw, outcome) := Create(w.gw, r.amountCents, r.currency, id, HEALTHY);
    LogCommutes(MarkSubmitted(w.db, id), SubmitEntry(id, r.status), id, outcome.refund.id);
  }

  lemma CleanOneEffect(w: World, id: Uuid)
    requires LedgerInv(w) && id in w.db.refunds && w.db.refunds[id].status == Requested
    ensures SubmittedCleanly(w, Submitted1(w, id, HEALTHY), [id])
  {
    SubmitKeepsInv(w, id, HEALTHY);
    CleanOneRow(w, id);
  }

  lemma CleanOneRow(w: World, id: Uuid)
    requires LedgerInv(w) && id in w.db.refunds && w.db.refunds[id].status == Requested
    ensures var x := Submitted1(w, id, HEALTHY);
      && SameTables(w, x) && KeysGainBatch(w, x, [id]) && BatchLinked(x, [id])
      && OthersSame(w, x, [id]) && SameMoneyAsBefore(w, x)
  {
    var r := w.db.refunds[id];
    NotYetIssued(w, id);
    CleanOne(w, id);
    CreateNew(w.gw, r.amountCents, r.currency, id, HEALTHY);
    CleanOneShape(w, Submitted1(w, id, HEALTHY), id);
  }

  lemma CleanOneShape(w: World, x: World, id: Uuid)
    requires id in w.db.refunds && w.db.refunds[id].gatewayRef.None? && id in x.gw.store
    requires x.db.refunds == w.db.refunds[id := RecoveredRow(w.db.refunds[id], id, x.gw, true)]
    requires x.db.created == w.db.created && x.db.charges == w.db.charges && x.approvals == w.approvals
    requires StoreGrows(w.gw, x.gw) && x.gw.store.Keys == w.gw.store.Keys + {id}
    ensures SameTables(w, x) && KeysGainBatch(w, x, [id]) && BatchLinked(x, [id])
    ensures OthersSame(w, x, [id]) && SameMoneyAsBefore(w, x)
  {
    assert forall other :: other in [id] <==> other == id;
  }

  lemma SplitBatch(batch: seq<Uuid>)
    requires batch != [] && NoDuplicates(batch)
    ensures batch[0] !in batch[1..] && NoDuplicates(batch[1..])
    ensures forall id :: id in batch <==> id == batch[0] || id in batch[1..]
  {
    assert batch == [batch[0]] + batch[1..];
  }

  lemma CleanComposeKeys(w: World, m: World, x: World, batch: seq<Uuid>)
    requires batch != [] && NoDuplicates(batch) && KeysGainBatch(w, m, [batch[0]]) && KeysGainBatch(m, x, batch[1..])
    requires SameTables(w, m) && SameTables(m, x)
    ensures KeysGainBatch(w, x, batch) && SameTables(w, x)
  {
    SplitBatch(batch);
    assert forall id :: id in [batch[0]] <==> id == batch[0];
  }

  lemma CleanComposeRows(w: World, m: World, x: World, batch: seq<Uuid>)
    requires batch != [] && NoDuplicates(batch) && StoreGrows(m.gw, x.gw)
    requires BatchLinked(m, [batch[0]]) && OthersSame(w, m, [batch[0]]) && SameMoneyAsBefore(w, m)
    requires BatchLinked(x, batch[1..]) && OthersSame(m, x, batch[1..]) && SameMoneyAsBefore(m, x)
    ensures BatchLinked(x, batch) && OthersSame(w, x, batch) && SameMoneyAsBefore(w, x)
  {
    SplitBatch(batch);
    assert batch[0] in [batch[0]];
    assert Linked(m, batch[0]);
    forall id | id in w.db.refunds && id !in batch
      ensures id in x.db.refunds && x.db.refunds[id] == w.db.refunds[id]
    {
      assert id !in [batch[0]] && id in m.db.refunds;
    }
    forall id | id in w.db.refunds
      ensures SameMoney(x, id, w.db.refunds[id].amountCents, w.db.refunds[id].currency)
    {
      assert SameMoney(m, id, w.db.refunds[id].amountCents, w.db.refunds[id].currency);
    }
  }

  lemma RestRequested(w: World, m: World, batch: seq<Uuid>)
    requires batch != [] && NoDuplicates(batch) && AllRequested(w.db, batch) && OthersSame(w, m, [batch[0]])
    ensures AllRequested(m.db, batch[1..]) && NoDuplicates(batch[1..])
  {
    SplitBatch(batch);
    forall id | id in batch[1..]
      ensures id in m.db.refunds && m.db.refunds[id].status == Requested
    {
      assert id in batch && id !in [batch[0]];
    }
  }

  lemma {:induction false} CleanRunEffect(w: World, batch: seq<Uuid>)
    requires LedgerInv(w) && NoDuplicates(batch) && AllRequested(w.db, batch)
    ensures SubmittedCleanly(w, CleanRun(w, batch), batch)
    decreases |batch|
  {
    if batch != [] {
      var m, x := Submitted1(w, batch[0], HEALTHY), CleanRun(w, batch);
      assert batch[0] in batch;
      CleanOneEffect(w, batch[0]);
      RestRequested(w, m, batch);
      CleanRunEffect(m, batch[1..]);
      CleanComposeKeys(w, m, x, batch);
      CleanComposeRows(w, m, x, batch);
    }
  }

  // ---- the run that died ----

  /** What may have gone on before: submitters and recovery jobs, any number of them for any refunds and in any
      interleaving, each of which may be cut off at any statement, lose its response or time out. */
  predicate WorkerMove(m: Move) {
    match m
    case NewCharge(_, _) => false
    case Spawn(_, actor) => actor.SubmitBegin? || actor.RecoverBegin?
    case Crash(_) => true
    case Step(_, _) => true
  }

  predicate WorkersOnly(moves: seq<Move>) {
    forall i :: 0 <= i < |moves| ==> WorkerMove(moves[i])
  }

  /** A worker past its first step has only rows in hand that were stuck from the beginning. */
  predicate WorkerOf(w: World, a: Actor) {
    || a.Done? || a.SubmitBegin? || a.RecoverBegin?
    || (IsSubmit(a) && IsStuckRow(w.db, a.id))
    || (IsRecover(a) && !a.RecoverBegin? && AllStuck(w.db, a.todo))
  }

  predicate AllStuck(db: Db, todo: seq<Stuck>) {
    forall k :: k in todo ==> IsStuckRow(db, k.id)
  }

  ghost predicate StuckStay(w: World, x: World) {
    forall id :: IsStuckRow(w.db, id) ==> IsStuckRow(x.db, id)
  }

  predicate RestStays(w: World, x: World) {
    forall id :: id in w.db.refunds && !IsStuckRow(w.db, id) ==>
      id in x.db.refunds && x.db.refunds[id] == w.db.refunds[id]
  }

  predicate KeysWithinStuck(w: World, x: World) {
    forall id :: id in x.gw.store ==> id in w.gw.store || IsStuckRow(w.db, id)
  }

  /** How far the workers can have taken the world. */
  ghost predicate Attempted(w: World, x: World) {
    && SameTables(w, x)
    && StuckStay(w, x)
    && RestStays(w, x)
    && KeysWithinStuck(w, x)
    && SameMoneyAsBefore(w, x)
  }

  ghost predicate AttemptedState(w: World, s: State) {
    Attempted(w, s.w) && forall who :: who in s.actors ==> WorkerOf(w, s.actors[who])
  }

  lemma SameStuckRows(w: World, x: World)
    requires Attempted(w, x)
    ensures forall id :: IsStuckRow(x.db, id) <==> IsStuckRow(w.db, id)
  {
    forall id: Uuid
      ensures IsStuckRow(x.db, id) <==> IsStuckRow(w.db, id)
    {
      assert id in x.db.refunds ==> id in w.db.refunds;
    }
  }

  /** One stuck row rewritten, still stuck and worth the same. */
  lemma AttemptRow(w: World, x: World, id: Uuid, r: Refund)
    requires Attempted(w, x) && IsStuckRow(w.db, id) && id in x.db.refunds && IsStuck(r.status)
    requires r.amountCents == x.db.refunds[id].amountCents && r.currency == x.db.refunds[id].currency
    ensures Attempted(w, x.(db := WithRow(x.db, id, r)))
  {
    var y := x.(db := WithRow(x.db, id, r));
    assert y.db.refunds.Keys == x.db.refunds.Keys;
    forall other | other in w.db.refunds
      ensures SameMoney(y, other, w.db.refunds[other].amountCents, w.db.refunds[other].currency)
    {
      assert SameMoney(x, other, w.db.refunds[other].amountCents, w.db.refunds[other].currency);
    }
    assert forall other :: IsStuckRow(w.db, other) ==> IsStuckRow(x.db, other);
  }

  /** The log, and gateway entries for stuck rows, are free to grow. */
  lemma AttemptLog(w: World, x: World, e: Transition)
    requires Attempted(w, x)
    ensures Attempted(w, x.(db := AppendLog(x.db, e)))
  {
    AttemptSameRows(w, x, x.(db := AppendLog(x.db, e)));
  }

  lemma AttemptSameRows(w: World, x: World, y: World)
    requires Attempted(w, x) && SameTables(x, y) && y.db.refunds == x.db.refunds && KeysWithinStuck(w, y)
    ensures Attempted(w, y)
  {
    assert forall other :: IsStuckRow(w.db, other) ==> IsStuckRow(x.db, other);
    assert forall other :: other in w.db.refunds ==>
      SameMoney(x, other, w.db.refunds[other].amountCents, w.db.refunds[other].currency);
  }

  lemma AttemptCall(w: World, x: World, id: Uuid, amount: int, currency: string, config: MockConfig)
    requires Attempted(w, x) && IsStuckRow(w.db, id)
    ensures Attempted(w, CallGateway(x, amount, currency, id, config))
  {
    AttemptSameRows(w, x, CallGateway(x, amount, currency, id, config));
  }

  lemma AttemptMark(w: World, x: World, id: Uuid)
    requires Attempted(w, x) && IsStuckRow(w.db, id)
    ensures Attempted(w, x.(db := MarkSubmitted(x.db, id)))
  {
    assert IsStuckRow(x.db, id);
    AttemptRow(w, x, id, x.db.refunds[id].(status := Submitted));
  }

  lemma AttemptRecord(w: World, x: World, id: Uuid, ref: string)
    requires Attempted(w, x) && IsStuckRow(w.db, id)
    ensures RecordRef(x.db, id, ref).Some? ==> Attempted(w, x.(db := RecordRef(x.db, id, ref).value))
    ensures RecoverRef(x.db, id, ref).Some? ==> Attempted(w, x.(db := RecoverRef(x.db, id, ref).value))
  {
    assert IsStuckRow(x.db, id);
    var r := x.db.refunds[id];
    AttemptRow(w, x, id, r.(gatewayRef := Some(ref)));
    AttemptRow(w, x, id, r.(gatewayRef := Some(ref), status := Submitted));
  }

  lemma AttemptSubmit(w: World, x: World, a: Actor, config: MockConfig, y: World)
    requires Attempted(w, x) && IsSubmit(a) && (a.SubmitBegin? || IsStuckRow(w.db, a.id))
    requires y == ActSubmit(x, a, config).0
    ensures Attempted(w, y)
  {
    if a.SubmitRead? {
      AttemptMark(w, x, a.id);
      assert y == x.(db := MarkSubmitted(x.db, a.id));
    } else if a.SubmitMarked? && !a.row.status.Submitted? {
      AttemptLog(w, x, SubmitEntry(a.id, a.row.status));
      assert y == x.(db := AppendLog(x.db, SubmitEntry(a.id, a.row.status)));
    } else if a.SubmitLogged? {
      AttemptCall(w, x, a.id, a.row.amountCents, a.row.currency, config);
      assert y == CallGateway(x, a.row.amountCents, a.row.currency, a.id, config);
    } else if a.SubmitAccepted? && RecordRef(x.db, a.id, a.ref).Some? {
      AttemptRecord(w, x, a.id, a.ref);
      assert y == x.(db := RecordRef(x.db, a.id, a.ref).value);
    } else {
      assert y == x;
    }
  }

  lemma AttemptRecover(w: World, x: World, a: Actor, config: MockConfig, y: World)
    requires Attempted(w, x) && IsRecover(a) && (a.RecoverBegin? || AllStuck(w.db, a.todo))
    requires y == ActRecover(x, a, config).0
    ensures Attempted(w, y)
  {
    if a.RecoverBegin? || a.todo == [] {
      assert y == x;
    } else {
      assert IsStuckRow(w.db, a.todo[0].id);
      AttemptRecoverRow(w, x, a, config, y);
    }
  }

  lemma AttemptRecoverRow(w: World, x: World, a: Actor, config: MockConfig, y: World)
    requires Attempted(w, x) && IsRecover(a) && !a.RecoverBegin? && a.todo != [] && IsStuckRow(w.db, a.todo[0].id)
    requires y == ActRecover(x, a, config).0
    ensures Attempted(w, y)
  {
    var id := a.todo[0].id;
    if a.RecoverFound? && RecoverRef(x.db, id, a.ref).Some? {
      AttemptRecord(w, x, id, a.ref);
      assert y == x.(db := RecoverRef(x.db, id, a.ref).value);
    } else if a.RecoverRecorded? {
      AttemptLog(w, x, RecoverEntry(a.todo[0], "job:recover"));
      assert y == x.(db := AppendLog(x.db, RecoverEntry(a.todo[0], "job:recover")));
    } else if a.RecoverRead? {
      AttemptMark(w, x, id);
      assert y == x.(db := MarkSubmitted(x.db, id));
    } else if a.RecoverMarked? {
      AttemptCall(w, x, id, a.amount, a.currency, config);
      assert y == CallGateway(x, a.amount, a.currency, id, config);
    } else if a.RecoverAccepted? && RecordRef(x.db, id, a.ref).Some? {
      AttemptRecord(w, x, id, a.ref);
      assert y == x.(db := RecordRef(x.db, id, a.ref).value);
    } else if a.RecoverCalled? {
      AttemptLog(w, x, RecoverEntry(a.todo[0], "job:recover-resubmit"));
      assert y == x.(db := AppendLog(x.db, RecoverEntry(a.todo[0], "job:recover-resubmit")));
    } else {
      assert y == x;
    }
  }

  lemma StaysSubmitter(w: World, x: World, a: Actor, config: MockConfig)
    requires Attempted(w, x) && IsSubmit(a) && (a.SubmitBegin? || IsStuckRow(w.db, a.id))
    ensures WorkerOf(w, ActSubmit(x, a, config).1)
  {
    SameStuckRows(w, x);
    assert IsStuckRow(x.db, a.id) <==> IsStuckRow(w.db, a.id);
  }

  lemma StaysRecovering(w: World, x: World, a: Actor, config: MockConfig)
    requires Attempted(w, x) && IsRecover(a) && (a.RecoverBegin? || AllStuck(w.db, a.todo))
    ensures WorkerOf(w, ActRecover(x, a, config).1)
  {
    if a.RecoverBegin? {
      SelectedAreStuck(w, x);
    }
  }

  lemma SelectedAreStuck(w: World, x: World)
    requires Attempted(w, x)
    ensures AllStuck(w.db, SelectStuck(x.db))
  {
    SameStuckRows(w, x);
    forall k | k in SelectStuck(x.db)
      ensures IsStuckRow(w.db, k.id)
    {
      assert IsStuckRow(x.db, k.id);
    }
  }

  lemma AttemptStep(w: World, s: State, m: Move)
    requires AttemptedState(w, s) && Enabled(s, m) && m.Step?
    ensures AttemptedState(w, Next(s, m))
  {
    var a := s.actors[m.who];
    assert WorkerOf(w, a);
    if IsSubmit(a) {
      AttemptSubmit(w, s.w, a, m.choice.config, Next(s, m).w);
      StaysSubmitter(w, s.w, a, m.choice.config);
    } else if IsRecover(a) {
      AttemptRecover(w, s.w, a, m.choice.config, Next(s, m).w);
      StaysRecovering(w, s.w, a, m.choice.config);
    }
  }

  lemma AttemptMove(w: World, s: State, m: Move)
    requires AttemptedState(w, s) && Enabled(s, m) && WorkerMove(m)
    ensures AttemptedState(w, Next(s, m))
  {
    if m.Step? {
      AttemptStep(w, s, m);
    }
  }

  lemma {:induction false} AttemptRun(w: World, states: seq<State>, moves: seq<Move>, i: nat)
    requires IsRun(states, moves) && states[0] == State(w, map[]) && WorkersOnly(moves) && i <= |moves|
    ensures AttemptedState(w, states[i])
  {
    if i > 0 {
      AttemptRun(w, states, moves, i - 1);
      assert IsStepAt(states, moves, i - 1);
      AttemptMove(w, states[i - 1], moves[i - 1]);
    }
  }

  lemma CrashedInv(w: World, states: seq<State>, moves: seq<Move>)
    requires LedgerInv(w) && IsRun(states, moves) && states[0] == State(w, map[])
    ensures LedgerInv(states[|moves|].w)
  {
    RunInv(states, moves, |moves|);
  }

  // ---- the comparison ----

  /** The refs of one gateway renamed to those of another that holds the same keys. */
  ghost function Renaming(a: GatewayState, b: GatewayState): map<string, string>
    requires IdsDistinct(a.store) && a.store.Keys <= b.store.Keys
  {
    map k | k in a.store :: a.store[k].id := b.store[k].id
  }

  ghost predicate Injective(m: map<string, string>) {
    forall a, b :: a in m && b in m && a != b ==> m[a] != m[b]
  }

  /** The same key-to-(amount, currency) map. */
  predicate SameEntries(a: GatewayState, b: GatewayState) {
    && a.store.Keys == b.store.Keys
    && (forall k :: k in a.store ==>
          a.store[k].amount == b.store[k].amount && a.store[k].currency == b.store[k].currency)
  }

  predicate Renames(a: GatewayState, b: GatewayState, names: map<string, string>) {
    forall k :: k in a.store ==> k in b.store && a.store[k].id in names && names[a.store[k].id] == b.store[k].id
  }

  /** The same gateway map, key by key, up to a bijective renaming of refs. */
  ghost predicate SameGatewayUpToRefs(a: GatewayState, b: GatewayState, names: map<string, string>) {
    SameEntries(a, b) && a.issued == b.issued && Injective(names) && Renames(a, b, names)
  }

  ghost predicate SameStatuses(a: Db, b: Db) {
    && a.refunds.Keys == b.refunds.Keys
    && forall id :: id in a.refunds ==> a.refunds[id].status == b.refunds[id].status
  }

  lemma RenamingRenames(a: GatewayState, b: GatewayState)
    requires IdsDistinct(a.store) && a.store.Keys <= b.store.Keys
    ensures Renames(a, b, Renaming(a, b))
  {
  }

  lemma RenamingIsInjective(a: GatewayState, b: GatewayState)
    requires IdsDistinct(a.store) && IdsDistinct(b.store) && a.store.Keys <= b.store.Keys
    ensures Injective(Renaming(a, b))
  {
    var names := Renaming(a, b);
    forall x, y | x in names && y in names && x != y
      ensures names[x] != names[y]
    {
      var k :| k in a.store && a.store[k].id == x;
      var l :| l in a.store && a.store[l].id == y;
      assert k != l;
    }
  }

  lemma SameKeysSameEntries(w: World, a: World, b: World)
    requires RowsOk(a) && RowsOk(b) && SameMoneyAsBefore(w, a) && SameMoneyAsBefore(w, b)
    requires a.gw.store.Keys == b.gw.store.Keys <= w.db.refunds.Keys
    ensures SameEntries(a.gw, b.gw)
  {
    forall k | k in a.gw.store
      ensures a.gw.store[k].amount == b.gw.store[k].amount && a.gw.store[k].currency == b.gw.store[k].currency
    {
      SameEntry(w, a, k);
      SameEntry(w, b, k);
    }
  }

  lemma SameKeysSameIssued(a: GatewayState, b: GatewayState)
    requires Consistent(a) && Consistent(b) && a.store.Keys == b.store.Keys
    ensures a.issued == b.issued
  {
    assert |a.store| == |a.store.Keys| && |b.store| == |b.store.Keys|;
  }

  /** Two lawful worlds with the same rows' money and the same keys hold the same gateway map. */
  lemma SameKeysSameGateway(w: World, a: World, b: World)
    requires RowsOk(a) && RowsOk(b) && Consistent(a.gw) && Consistent(b.gw)
    requires SameMoneyAsBefore(w, a) && SameMoneyAsBefore(w, b)
    requires a.gw.store.Keys == b.gw.store.Keys <= w.db.refunds.Keys
    ensures SameGatewayUpToRefs(a.gw, b.gw, Renaming(a.gw, b.gw))
  {
    SameKeysSameEntries(w, a, b);
    SameKeysSameIssued(a.gw, b.gw);
    RenamingIsInjective(a.gw, b.gw);
    RenamingRenames(a.gw, b.gw);
  }

  lemma SameEntry(w: World, x: World, k: Uuid)
    requires RowsOk(x) && SameMoneyAsBefore(w, x) && k in x.gw.store && k in w.db.refunds
    ensures x.gw.store[k].amount == w.db.refunds[k].amountCents && x.gw.store[k].currency == w.db.refunds[k].currency
  {
    assert SameMoney(x, k, w.db.refunds[k].amountCents, w.db.refunds[k].currency);
    assert RowOk(x, k, x.db.refunds[k]);
  }

  /** A row outside the batch is one neither recovery nor the batch would touch the money of: if stuck
      at all, it is `submitted` and the gateway already holds it. */
  predicate OthersConverged(w: World, batch: seq<Uuid>) {
    forall id :: id in w.db.refunds && IsStuckRow(w.db, id) && id !in batch ==>
      w.db.refunds[id].status == Submitted && id in w.gw.store
  }

  /** The world after everyone died and one healthy recovery ran. */
  function CrashThenRecover(states: seq<State>, moves: seq<Move>): World
    requires IsRun(states, moves)
  {
    AfterRecovery(states[|moves|].w, [])
  }

  /** What crash and recovery did to the world they started from. */
  ghost predicate CrashRecovered(w: World, x: World) {
    && LedgerInv(x)
    && x.db.refunds.Keys == w.db.refunds.Keys
    && SameMoneyAsBefore(w, x)
    && (forall id :: id in x.gw.store <==> id in w.gw.store || IsStuckRow(w.db, id))
    && (forall id :: IsStuckRow(w.db, id) ==> Linked(x, id))
    && RestStays(w, x)
  }

  lemma CrashRecoveredKeys(w: World, m: World, x: World)
    requires Attempted(w, m)
    requires forall id :: id in x.gw.store <==> id in m.gw.store || IsStuckRow(w.db, id)
    ensures forall id :: id in x.gw.store <==> id in w.gw.store || IsStuckRow(w.db, id)
  {
    forall id: Uuid
      ensures id in x.gw.store <==> id in w.gw.store || IsStuckRow(w.db, id)
    {
      assert id in w.gw.store ==> id in m.gw.store;
    }
  }

  lemma CrashRecoverEffect(w: World, states: seq<State>, moves: seq<Move>)
    requires LedgerInv(w) && IsRun(states, moves) && states[0] == State(w, map[]) && WorkersOnly(moves)
    ensures CrashRecovered(w, CrashThenRecover(states, moves))
  {
    var m := states[|moves|].w;
    AttemptRun(w, states, moves, |moves|);
    CrashedInv(w, states, moves);
    SameStuckRows(w, m);
    HealthyRecoveryConverges(m);
    CrashRecoveredKeys(w, m, AfterRecovery(m, []));
    CrashRecoveredRows(w, m, AfterRecovery(m, []));
    CrashRecoveredMoney(w, m, AfterRecovery(m, []));
  }

  lemma CrashRecoveredMoney(w: World, m: World, x: World)
    requires LedgerInv(m) && SameMoneyAsBefore(w, m) && x == AfterRecovery(m, [])
    ensures SameMoneyAsBefore(w, x)
  {
    forall id | id in w.db.refunds
      ensures SameMoney(x, id, w.db.refunds[id].amountCents, w.db.refunds[id].currency)
    {
      assert SameMoney(m, id, w.db.refunds[id].amountCents, w.db.refunds[id].currency);
      RecoveryKeepsMoney(m, [], id);
    }
  }

  lemma CrashRecoveredRows(w: World, m: World, x: World)
    requires Attempted(w, m)
    requires forall id :: id in m.db.refunds && !IsStuckRow(w.db, id) ==>
      id in x.db.refunds && x.db.refunds[id] == m.db.refunds[id]
    ensures RestStays(w, x)
  {
    forall id | id in w.db.refunds && !IsStuckRow(w.db, id)
      ensures id in x.db.refunds && x.db.refunds[id] == w.db.refunds[id]
    {
      assert m.db.refunds[id] == w.db.refunds[id];
    }
  }

  lemma StatusesAgree(w: World, a: World, b: World, batch: seq<Uuid>)
    requires SubmittedCleanly(w, a, batch) && CrashRecovered(w, b) && AllRequested(w.db, batch)
    requires OthersConverged(w, batch)
    ensures SameStatuses(a.db, b.db)
  {
    forall id | id in a.db.refunds
      ensures a.db.refunds[id].status == b.db.refunds[id].status
    {
      if id in batch {
        assert Linked(a, id) && IsStuckRow(w.db, id) && Linked(b, id);
      } else if IsStuckRow(w.db, id) {
        assert Linked(b, id);
      }
    }
  }

  lemma KeysAgree(w: World, a: World, b: World, batch: seq<Uuid>)
    requires SubmittedCleanly(w, a, batch) && CrashRecovered(w, b) && AllRequested(w.db, batch)
    requires OthersConverged(w, batch)
    ensures a.gw.store.Keys == b.gw.store.Keys
  {
    forall id: Uuid
      ensures id in a.gw.store <==> id in b.gw.store
    {
      if id in batch {
        assert IsStuckRow(w.db, id);
      }
    }
  }

  /** If some other stuck row had not converged, recovery moved it as well, and the runs differ. */
  lemma OnlyIfOthersConverged(w: World, a: World, b: World, batch: seq<Uuid>)
    requires SubmittedCleanly(w, a, batch) && CrashRecovered(w, b)
    requires SameStatuses(a.db, b.db) && a.gw.store.Keys == b.gw.store.Keys
    ensures OthersConverged(w, batch)
  {
    forall id | id in w.db.refunds && IsStuckRow(w.db, id) && id !in batch
      ensures w.db.refunds[id].status == Submitted && id in w.gw.store
    {
      assert Linked(b, id);
      assert a.db.refunds[id] == w.db.refunds[id] && id in a.gw.store;
    }
  }

  /** Crash and recover equals a clean run. Whatever interleaving of submitters and of earlier recovery jobs
      the requested rows of a batch went through, with crashes at any statement, lost responses and timeouts,
      one healthy recovery reaches the statuses, the key-to-money map of the gateway and the issued count of
      submitting every row of the batch cleanly, up to a bijective renaming of refs, exactly when the rows
      outside the batch had nothing left to recover. */
  lemma CrashRecoverEqualsClean(w: World, batch: seq<Uuid>, states: seq<State>, moves: seq<Move>)
    requires LedgerInv(w) && NoDuplicates(batch) && AllRequested(w.db, batch)
    requires IsRun(states, moves) && states[0] == State(w, map[]) && WorkersOnly(moves)
    ensures var clean, recovered := CleanRun(w, batch), CrashThenRecover(states, moves);
      OthersConverged(w, batch) <==>
      SameStatuses(clean.db, recovered.db) && SameEntries(clean.gw, recovered.gw)
    ensures var clean, recovered := CleanRun(w, batch), CrashThenRecover(states, moves);
      OthersConverged(w, batch) ==> exists names :: SameGatewayUpToRefs(clean.gw, recovered.gw, names)
  {
    var clean, recovered := CleanRun(w, batch), CrashThenRecover(states, moves);
    CleanRunEffect(w, batch);
    CrashRecoverEffect(w, states, moves);
    if OthersConverged(w, batch) {
      StatusesAgree(w, clean, recovered, batch);
      KeysAgree(w, clean, recovered, batch);
      KeysArePersisted(w, clean);
      SameKeysSameGateway(w, clean, recovered);
    } else if SameStatuses(clean.db, recovered.db) && SameEntries(clean.gw, recovered.gw) {
      OnlyIfOthersConverged(w, clean, recovered, batch);
    }
  }

  lemma KeysArePersisted(w: World, x: World)
    requires LedgerInv(x) && SameTables(w, x)
    ensures x.gw.store.Keys <= w.db.refunds.Keys
  {
  }

  /** Row by row, for the batch itself and with nothing asked of the other rows: recovered like cleanly
      submitted, each row is `submitted`, carries its gateway ref, and the gateway holds the row's own
      amount and currency under its key. */
  lemma BatchRowsAgree(w: World, batch: seq<Uuid>, states: seq<State>, moves: seq<Move>, id: Uuid)
    requires LedgerInv(w) && NoDuplicates(batch) && AllRequested(w.db, batch) && id in batch
    requires IsRun(states, moves) && states[0] == State(w, map[]) && WorkersOnly(moves)
    ensures var clean, recovered, row := CleanRun(w, batch), CrashThenRecover(states, moves), w.db.refunds[id];
      && Linked(clean, id) && Linked(recovered, id)
      && clean.gw.store[id].amount == recovered.gw.store[id].amount == row.amountCents
      && clean.gw.store[id].currency == recovered.gw.store[id].currency == row.currency
  {
    var clean, recovered := CleanRun(w, batch), CrashThenRecover(states, moves);
    CleanRunEffect(w, batch);
    CrashRecoverEffect(w, states, moves);
    assert IsStuckRow(w.db, id);
    assert Linked(clean, id) && Linked(recovered, id);
    SameEntry(w, clean, id);
    SameEntry(w, recovered, id);
  }
}
