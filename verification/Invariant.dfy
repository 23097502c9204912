/** What holds of the tables and the gateway together, and how they may evolve. Every statement
    and every gateway call keeps the one and respects the other. */
module Invariant {
  import opened Outcomes
  import opened Ledger
  import opened Gateway
  import opened Statements

  /** The shared world. `approvals` is a history of who advanced a row out of review; no code
      reads it. */
  datatype World = World(db: Db, gw: GatewayState, approvals: map<Uuid, string>)

  /** One row against its charge, the gateway's entry for its key and the approvals. */
  predicate RowOk(w: World, id: Uuid, r: Refund) {
    && r.amountCents > 0
    && r.chargeId in w.db.charges
    && r.currency == w.db.charges[r.chargeId].currency
    && (IsTerminal(r.status) ==> r.gatewayRef.Some?)
    && (r.gatewayRef.Some? ==> id in w.gw.store && w.gw.store[id].id == r.gatewayRef.value)
    && (id in w.gw.store ==>
          && Rank(r.status) >= Rank(Submitted)
          && w.gw.store[id].amount == r.amountCents
          && w.gw.store[id].currency == r.currency)
    && (r.amountCents >= REVIEW_THRESHOLD_CENTS && Rank(r.status) >= Rank(Requested) ==>
          id in w.approvals && w.approvals[id] != r.requestedBy)
    && (id in w.approvals ==> Rank(r.status) >= Rank(Requested))
  }

  /** The log never runs ahead of the row. */
  predicate EntryOk(db: Db, e: Transition) {
    && e.refundId in db.refunds
    && Rank(e.to) <= Rank(db.refunds[e.refundId].status)
    && (IsTerminal(e.to) ==> db.refunds[e.refundId].status == e.to)
  }

  ghost predicate Enumerated(db: Db) {
    && NoDuplicates(db.created)
    && (forall id :: id in db.created <==> id in db.refunds)
  }

  predicate ChargeOk(db: Db, c: Uuid) {
    c in db.charges ==> 0 <= LiveSum(db, c) <= db.charges[c].amountCaptured <= I64_MAX
  }

  ghost predicate RowsOk(w: World) {
    forall id :: id in w.db.refunds ==> RowOk(w, id, w.db.refunds[id])
  }

  predicate LogOk(db: Db) {
    forall e :: e in db.log ==> EntryOk(db, e)
  }

  ghost predicate ChargesOk(db: Db) {
    forall c: Uuid :: ChargeOk(db, c)
  }

  ghost predicate LedgerInv(w: World) {
    && Enumerated(w.db)
    && Consistent(w.gw)
    && RowsOk(w)
    && w.gw.store.Keys <= w.db.refunds.Keys
    && w.approvals.Keys <= w.db.refunds.Keys
    && LogOk(w.db)
    && ChargesOk(w.db)
  }

  predicate ChargesStay(before: Db, after: Db) {
    forall c :: c in before.charges ==> c in after.charges && after.charges[c] == before.charges[c]
  }

  predicate RowsMove(before: Db, after: Db) {
    forall id :: id in before.refunds ==> id in after.refunds && RowMove(before.refunds[id], after.refunds[id])
  }

  /** No charge's live sum grows, but for the one a committing request holds locked. */
  predicate SumAllowed(before: Db, after: Db, inserting: Option<Uuid>, c: Uuid) {
    inserting != Some(c) ==> LiveSum(after, c) <= LiveSum(before, c)
  }

  ghost predicate SumsAllowed(before: Db, after: Db, inserting: Option<Uuid>) {
    forall c: Uuid :: SumAllowed(before, after, inserting, c)
  }

  /** A new gateway entry, that is, money on the move, belongs to a row that is `submitted`. */
  predicate MoneyMovesOnlyWhileSubmitted(w: World, x: World) {
    forall key :: key in x.gw.store && key !in w.gw.store ==>
      key in w.db.refunds && w.db.refunds[key].status.Submitted?
  }

  predicate ApprovalsStay(w: World, x: World) {
    forall id :: id in w.approvals ==> id in x.approvals && x.approvals[id] == w.approvals[id]
  }

  /** The permitted evolution of the shared world: nothing is deleted, rows move only along the
      status machine, gateway entries and approvals are write-once, money moves only for a
      submitted row, and live sums do not grow. */
  ghost predicate Evolves(w: World, x: World, inserting: Option<Uuid>) {
    && ChargesStay(w.db, x.db)
    && RowsMove(w.db, x.db)
    && StoreGrows(w.gw, x.gw)
    && MoneyMovesOnlyWhileSubmitted(w, x)
    && SumsAllowed(w.db, x.db, inserting)
    && w.db.log <= x.db.log
    && w.db.events <= x.db.events
    && ApprovalsStay(w, x)
  }

  lemma EvolvesRefl(w: World)
    ensures Evolves(w, w, None)
  {
  }

  /** A row that stays live only if it was live before counts for no more than before. */
  lemma UpdateSums(w: World, id: Uuid, r: Refund)
    requires RowsOk(w) && ChargesOk(w.db) && id in w.db.refunds && RowMove(w.db.refunds[id], r)
    ensures var after := w.db.(refunds := w.db.refunds[id := r]);
      SumsAllowed(w.db, after, None) && ChargesOk(after)
  {
    var after := w.db.(refunds := w.db.refunds[id := r]);
    assert forall other :: other in w.db.refunds ==> RowOk(w, other, w.db.refunds[other]);
    forall c: Uuid
      ensures SumAllowed(w.db, after, None, c) && ChargeOk(after, c)
    {
      assert ChargeOk(w.db, c);
      LiveSumMonotone(w.db.created, w.db.refunds, after.refunds, c);
      LiveSumNonNegative(w.db.created, after.refunds, c);
    }
  }

  lemma SameSums(before: Db, after: Db)
    requires ChargesOk(before)
    requires after.charges == before.charges && after.refunds == before.refunds && after.created == before.created
    ensures SumsAllowed(before, after, None) && ChargesOk(after)
  {
    forall c: Uuid
      ensures SumAllowed(before, after, None, c) && ChargeOk(after, c)
    {
      assert ChargeOk(before, c);
    }
  }

  lemma UpdateLog(db: Db, id: Uuid, r: Refund)
    requires id in db.refunds && RowMove(db.refunds[id], r) && LogOk(db)
    ensures LogOk(db.(refunds := db.refunds[id := r]))
  {
    var after := db.(refunds := db.refunds[id := r]);
    forall e | e in after.log
      ensures EntryOk(after, e)
    {
      assert EntryOk(db, e);
    }
  }

  lemma UpdateRows(w: World, id: Uuid, r: Refund)
    requires RowsOk(w) && id in w.db.refunds && RowOk(w, id, r)
    ensures RowsOk(w.(db := w.db.(refunds := w.db.refunds[id := r])))
  {
    var x := w.(db := w.db.(refunds := w.db.refunds[id := r]));
    forall other | other in x.db.refunds
      ensures RowOk(x, other, x.db.refunds[other])
    {
      assert RowOk(w, other, x.db.refunds[other]);
    }
  }

  lemma UpdateRowKeepsInv(w: World, id: Uuid, r: Refund)
    requires LedgerInv(w) && id in w.db.refunds
    requires RowMove(w.db.refunds[id], r) && RowOk(w, id, r)
    ensures LedgerInv(w.(db := w.db.(refunds := w.db.refunds[id := r])))
  {
    UpdateSums(w, id, r);
    UpdateLog(w.db, id, r);
    UpdateRows(w, id, r);
  }

  lemma UpdateRowEvolves(w: World, id: Uuid, r: Refund)
    requires RowsOk(w) && ChargesOk(w.db) && id in w.db.refunds && RowMove(w.db.refunds[id], r)
    ensures Evolves(w, w.(db := w.db.(refunds := w.db.refunds[id := r])), None)
  {
    UpdateSums(w, id, r);
  }

  /** Replacing one row by a lawful successor of it. */
  lemma UpdateRow(w: World, id: Uuid, r: Refund)
    requires LedgerInv(w) && id in w.db.refunds
    requires RowMove(w.db.refunds[id], r) && RowOk(w, id, r)
    ensures var x := w.(db := w.db.(refunds := w.db.refunds[id := r]));
      LedgerInv(x) && Evolves(w, x, None)
  {
    UpdateRowKeepsInv(w, id, r);
    UpdateRowEvolves(w, id, r);
  }

  lemma LogEntryKeepsInv(w: World, e: Transition)
    requires LedgerInv(w) && EntryOk(w.db, e)
    ensures LedgerInv(w.(db := AppendLog(w.db, e)))
  {
    SameSums(w.db, AppendLog(w.db, e));
  }

  lemma LogEntryEvolves(w: World, e: Transition)
    requires ChargesOk(w.db)
    ensures Evolves(w, w.(db := AppendLog(w.db, e)), None)
  {
    SameSums(w.db, AppendLog(w.db, e));
  }

  lemma LogEntry(w: World, e: Transition)
    requires LedgerInv(w) && EntryOk(w.db, e)
    ensures var x := w.(db := AppendLog(w.db, e));
      LedgerInv(x) && Evolves(w, x, None)
  {
    LogEntryKeepsInv(w, e);
    LogEntryEvolves(w, e);
  }

  /** Evolving and then appending to the log is evolving. */
  lemma EvolvesThenLog(w: World, x: World, inserting: Option<Uuid>, e: Transition)
    requires Evolves(w, x, inserting)
    ensures Evolves(w, x.(db := AppendLog(x.db, e)), inserting)
  {
    var y := x.(db := AppendLog(x.db, e));
    forall c: Uuid
      ensures SumAllowed(w.db, y.db, inserting, c)
    {
      assert SumAllowed(w.db, x.db, inserting, c);
    }
  }

  /** A status change and its audit row in one transaction. */
  lemma UpdateAndLog(w: World, id: Uuid, r: Refund, e: Transition)
    requires LedgerInv(w) && id in w.db.refunds
    requires RowMove(w.db.refunds[id], r) && RowOk(w, id, r)
    requires e.refundId == id && Rank(e.to) <= Rank(r.status) && (IsTerminal(e.to) ==> r.status == e.to)
    ensures var x := w.(db := AppendLog(w.db.(refunds := w.db.refunds[id := r]), e));
      LedgerInv(x) && Evolves(w, x, None)
  {
    var mid := w.(db := w.db.(refunds := w.db.refunds[id := r]));
    UpdateRow(w, id, r);
    assert EntryOk(mid.db, e);
    LogEntry(mid, e);
    EvolvesThenLog(w, mid, None, e);
  }

  // ---- the gateway ----

  function CallGateway(w: World, amount: int, currency: string, id: Uuid, config: MockConfig): World {
    w.(gw := Create(w.gw, amount, currency, id, config).0)
  }

  lemma CreateKeepsRows(w: World, id: Uuid, amount: int, currency: string, config: MockConfig)
    requires RowsOk(w) && Consistent(w.gw) && id in w.db.refunds
    requires Rank(w.db.refunds[id].status) >= Rank(Submitted)
    requires amount == w.db.refunds[id].amountCents && currency == w.db.refunds[id].currency
    ensures RowsOk(CallGateway(w, amount, currency, id, config))
  {
    var x := CallGateway(w, amount, currency, id, config);
    CreateIsConsistent(w.gw, amount, currency, id, config);
    forall other | other in x.db.refunds
      ensures RowOk(x, other, x.db.refunds[other])
    {
      assert RowOk(w, other, w.db.refunds[other]);
    }
  }

  /** Calling the gateway for a row that has at least been submitted. If money moves, the row is
      exactly `submitted`: a terminal row has a ref, so its key is already known. */
  lemma CreateKeeps(w: World, id: Uuid, amount: int, currency: string, config: MockConfig)
    requires LedgerInv(w) && id in w.db.refunds
    requires Rank(w.db.refunds[id].status) >= Rank(Submitted)
    requires amount == w.db.refunds[id].amountCents && currency == w.db.refunds[id].currency
    ensures var x := CallGateway(w, amount, currency, id, config);
      LedgerInv(x) && Evolves(w, x, None)
  {
    CreateIsConsistent(w.gw, amount, currency, id, config);
    CreateKeepsRows(w, id, amount, currency, config);
    SameSums(w.db, w.db);
    assert RowOk(w, id, w.db.refunds[id]);
  }

  // ---- approval ----

  function Approved(w: World, id: Uuid, approver: string): World {
    if id in w.db.refunds && w.db.refunds[id].status.PendingReview?
    then w.(db := MarkApproved(w.db, id), approvals := w.approvals[id := approver])
    else w
  }

  lemma ApprovedKeepsRows(w: World, id: Uuid, approver: string)
    requires RowsOk(w) && id in w.db.refunds && w.db.refunds[id].requestedBy != approver
    ensures RowsOk(Approved(w, id, approver))
    ensures ApprovalsStay(w, Approved(w, id, approver))
  {
    var x := Approved(w, id, approver);
    assert RowOk(w, id, w.db.refunds[id]);
    forall other | other in x.db.refunds
      ensures RowOk(x, other, x.db.refunds[other])
    {
      assert RowOk(w, other, w.db.refunds[other]);
    }
  }

  lemma ApproveKeepsInv(w: World, id: Uuid, approver: string)
    requires LedgerInv(w) && id in w.db.refunds && w.db.refunds[id].requestedBy != approver
    ensures LedgerInv(Approved(w, id, approver))
  {
    ApprovedKeepsRows(w, id, approver);
    if w.db.refunds[id].status.PendingReview? {
      var r := w.db.refunds[id].(status := Requested);
      UpdateSums(w, id, r);
      UpdateLog(w.db, id, r);
    }
  }

  lemma ApproveEvolves(w: World, id: Uuid, approver: string)
    requires RowsOk(w) && ChargesOk(w.db) && id in w.db.refunds && w.db.refunds[id].requestedBy != approver
    ensures Evolves(w, Approved(w, id, approver), None)
  {
    ApprovedKeepsRows(w, id, approver);
    if w.db.refunds[id].status.PendingReview? {
      UpdateSums(w, id, w.db.refunds[id].(status := Requested));
    }
  }

  // ---- a request's commit ----

  predicate NewRowOk(db: Db, id: Uuid, row: Refund, entry: Transition) {
    && id !in db.refunds
    && row.amountCents > 0
    && row.chargeId in db.charges
    && row.currency == db.charges[row.chargeId].currency
    && LiveSum(db, row.chargeId) + row.amountCents <= db.charges[row.chargeId].amountCaptured
    && row.gatewayRef.None?
    && row.status == (if row.amountCents >= REVIEW_THRESHOLD_CENTS then PendingReview else Requested)
    && entry.refundId == id && entry.to == row.status
  }

  lemma InsertSums(db: Db, id: Uuid, row: Refund, entry: Transition, position: nat)
    requires NewRowOk(db, id, row, entry) && position <= |db.created| && Enumerated(db) && ChargesOk(db)
    ensures var after := InsertRefund(db, id, row, entry, position);
      SumsAllowed(db, after, Some(row.chargeId)) && ChargesOk(after)
  {
    var after := InsertRefund(db, id, row, entry, position);
    forall c: Uuid
      ensures SumAllowed(db, after, Some(row.chargeId), c) && ChargeOk(after, c)
    {
      LiveSumInsert(db.created, position, db.refunds, id, row, c);
      assert ChargeOk(db, c);
    }
  }

  /** Inserting a new element anywhere keeps a listing free of repetitions. */
  lemma InsertNoDuplicates(ids: seq<Uuid>, id: Uuid, position: nat)
    requires NoDuplicates(ids) && id !in ids && position <= |ids|
    ensures NoDuplicates(ids[..position] + [id] + ids[position..])
  {
    var after := ids[..position] + [id] + ids[position..];
    forall i, j | 0 <= i < j < |after|
      ensures after[i] != after[j]
    {
      InsertedAt(ids, id, position, i);
      InsertedAt(ids, id, position, j);
    }
  }

  lemma InsertedAt(ids: seq<Uuid>, id: Uuid, position: nat, k: nat)
    requires position <= |ids| && k <= |ids|
    ensures (ids[..position] + [id] + ids[position..])[k]
         == if k < position then ids[k] else if k == position then id else ids[k - 1]
  {
  }

  lemma InsertMembers(ids: seq<Uuid>, id: Uuid, position: nat, other: Uuid)
    requires position <= |ids|
    ensures other in ids[..position] + [id] + ids[position..] <==> other == id || other in ids
  {
    assert ids == ids[..position] + ids[position..];
  }

  lemma InsertEnumerated(db: Db, id: Uuid, row: Refund, entry: Transition, position: nat)
    requires Enumerated(db) && id !in db.refunds && position <= |db.created|
    ensures Enumerated(InsertRefund(db, id, row, entry, position))
  {
    var after := InsertRefund(db, id, row, entry, position);
    InsertNoDuplicates(db.created, id, position);
    forall other
      ensures other in after.created <==> other in after.refunds
    {
      InsertMembers(db.created, id, position, other);
    }
  }

  lemma InsertRowsAndLog(w: World, id: Uuid, row: Refund, entry: Transition, position: nat)
    requires RowsOk(w) && LogOk(w.db) && NewRowOk(w.db, id, row, entry) && position <= |w.db.created|
    requires id !in w.gw.store && id !in w.approvals
    ensures var x := w.(db := InsertRefund(w.db, id, row, entry, position));
      RowsOk(x) && LogOk(x.db)
  {
    var x := w.(db := InsertRefund(w.db, id, row, entry, position));
    forall other | other in x.db.refunds
      ensures RowOk(x, other, x.db.refunds[other])
    {
      assert other != id ==> RowOk(w, other, w.db.refunds[other]);
    }
    forall e | e in x.db.log
      ensures EntryOk(x.db, e)
    {
      assert e in w.db.log ==> EntryOk(w.db, e);
    }
  }

  lemma InsertKeepsInv(w: World, id: Uuid, row: Refund, entry: Transition, position: nat)
    requires LedgerInv(w) && NewRowOk(w.db, id, row, entry) && position <= |w.db.created|
    ensures LedgerInv(w.(db := InsertRefund(w.db, id, row, entry, position)))
  {
    InsertRowsAndLog(w, id, row, entry, position);
    InsertSums(w.db, id, row, entry, position);
    InsertEnumerated(w.db, id, row, entry, position);
  }

  lemma InsertEvolves(w: World, id: Uuid, row: Refund, entry: Transition, position: nat)
    requires Enumerated(w.db) && ChargesOk(w.db) && NewRowOk(w.db, id, row, entry) && position <= |w.db.created|
    ensures Evolves(w, w.(db := InsertRefund(w.db, id, row, entry, position)), Some(row.chargeId))
  {
    InsertSums(w.db, id, row, entry, position);
  }

  // ---- the remaining statements ----

  lemma InsertEventKeeps(w: World, event: string)
    requires LedgerInv(w)
    ensures var x := w.(db := InsertEvent(w.db, event));
      LedgerInv(x) && Evolves(w, x, None)
  {
    SameSums(w.db, InsertEvent(w.db, event));
  }

  lemma NewChargeKeeps(w: World, c: Uuid, charge: Charge)
    requires LedgerInv(w) && c !in w.db.charges && 0 <= charge.amountCaptured <= I64_MAX
    ensures var x := w.(db := w.db.(charges := w.db.charges[c := charge]));
      LedgerInv(x) && Evolves(w, x, None)
  {
    NewChargeSums(w, c, charge);
    NewChargeRows(w, c, charge);
  }

  lemma NewChargeSums(w: World, c: Uuid, charge: Charge)
    requires RowsOk(w) && ChargesOk(w.db) && c !in w.db.charges && 0 <= charge.amountCaptured <= I64_MAX
    ensures var after := w.db.(charges := w.db.charges[c := charge]);
      SumsAllowed(w.db, after, None) && ChargesOk(after)
  {
    var after := w.db.(charges := w.db.charges[c := charge]);
    NoRowsNoSum(w, c);
    forall d: Uuid
      ensures SumAllowed(w.db, after, None, d) && ChargeOk(after, d)
    {
      assert ChargeOk(w.db, d);
    }
  }

  lemma NewChargeRows(w: World, c: Uuid, charge: Charge)
    requires RowsOk(w) && LogOk(w.db) && c !in w.db.charges
    ensures var x := w.(db := w.db.(charges := w.db.charges[c := charge]));
      RowsOk(x) && LogOk(x.db)
  {
    var x := w.(db := w.db.(charges := w.db.charges[c := charge]));
    forall id | id in x.db.refunds
      ensures RowOk(x, id, x.db.refunds[id])
    {
      assert RowOk(w, id, w.db.refunds[id]);
    }
    forall e | e in x.db.log
      ensures EntryOk(x.db, e)
    {
      assert EntryOk(w.db, e);
    }
  }

  lemma NoRowsNoSum(w: World, c: Uuid)
    requires RowsOk(w) && c !in w.db.charges
    ensures LiveSum(w.db, c) == 0
  {
    assert forall id :: id in w.db.refunds ==> RowOk(w, id, w.db.refunds[id]);
    NoLiveSum(w.db.created, w.db.refunds, c);
  }

  lemma {:induction false} NoLiveSum(ids: seq<Uuid>, refunds: map<Uuid, Refund>, c: Uuid)
    requires forall id :: id in refunds ==> refunds[id].chargeId != c
    ensures LiveSumOver(ids, refunds, c) == 0
  {
    if ids != [] {
      NoLiveSum(ids[1..], refunds, c);
    }
  }
}
