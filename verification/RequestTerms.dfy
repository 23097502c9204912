/** `request_refund` in plain terms: which amounts count against a charge, exactly which requests are accepted,
    and what an accepted one writes. Statuses, columns and the threshold are written out here, so nothing in
    this module leans on the names the rest of the project gives them. */
module RequestTerms {
  import opened Outcomes
  import opened Errors
  import opened Ledger
  import opened Gateway
  import opened Invariant
  import opened Protocol
  import opened ProtocolInvariant
  import opened ProtocolTheorems
  import opened Operations

  // ---- what counts ----

  /** The amounts of the charge's rows that are neither failed nor canceled. */
  function Outstanding(ids: seq<Uuid>, refunds: map<Uuid, Refund>, charge: Uuid): int {
    if ids == [] then 0
    else if ids[0] in refunds && refunds[ids[0]].chargeId == charge
            && refunds[ids[0]].status != Failed && refunds[ids[0]].status != Canceled
    then refunds[ids[0]].amountCents + Outstanding(ids[1..], refunds, charge)
    else Outstanding(ids[1..], refunds, charge)
  }

  /** What the gateway moved for those same rows. */
  function OutstandingMoved(ids: seq<Uuid>, w: World, charge: Uuid): int {
    if ids == [] then 0
    else if ids[0] in w.db.refunds && w.db.refunds[ids[0]].chargeId == charge && ids[0] in w.gw.store
            && w.db.refunds[ids[0]].status != Failed && w.db.refunds[ids[0]].status != Canceled
    then w.gw.store[ids[0]].amount + OutstandingMoved(ids[1..], w, charge)
    else OutstandingMoved(ids[1..], w, charge)
  }

  lemma {:induction false} OutstandingIsLiveSum(ids: seq<Uuid>, refunds: map<Uuid, Refund>, charge: Uuid)
    ensures Outstanding(ids, refunds, charge) == LiveSumOver(ids, refunds, charge)
  {
    if ids != [] {
      OutstandingIsLiveSum(ids[1..], refunds, charge);
    }
  }

  lemma {:induction false} OutstandingIsMovedSum(ids: seq<Uuid>, w: World, charge: Uuid)
    ensures OutstandingMoved(ids, w, charge) == MovedSumOver(ids, w, charge)
  {
    if ids != [] {
      OutstandingIsMovedSum(ids[1..], w, charge);
    }
  }

  /** In every reachable state, for each charge: what the gateway moved for its rows that neither failed nor were
      canceled is at most what those rows ask for, which is at most what was captured. The listing summed over
      has every row exactly once, and the gateway holds no key outside it. */
  lemma CapturedBound(states: seq<State>, moves: seq<Move>, i: nat, c: Uuid)
    requires IsRunFromStart(states, moves) && i <= |moves| && c in states[i].w.db.charges
    ensures var w := states[i].w; var ids := w.db.created;
      && 0 <= OutstandingMoved(ids, w, c) <= Outstanding(ids, w.db.refunds, c) <= w.db.charges[c].amountCaptured
      && (forall j, k :: 0 <= j < k < |ids| ==> ids[j] != ids[k])
      && (forall id :: id in ids <==> id in w.db.refunds)
      && (forall id :: id in w.gw.store ==> id in ids)
  {
    var w := states[i].w;
    MoneyBound(states, moves, i, c);
    ReachableInv(states, moves, i);
    OutstandingIsLiveSum(w.db.created, w.db.refunds, c);
    OutstandingIsMovedSum(w.db.created, w, c);
  }

  // ---- what verdicts do to the sum ----

  lemma {:induction false} OutstandingElsewhere(
    ids: seq<Uuid>, refunds: map<Uuid, Refund>, id: Uuid, r: Refund, charge: Uuid)
    requires id !in ids
    ensures Outstanding(ids, refunds[id := r], charge) == Outstanding(ids, refunds, charge)
  {
    if ids != [] {
      assert ids[0] in ids;
      OutstandingElsewhere(ids[1..], refunds, id, r, charge);
    }
  }

  /** One row's part in the sum. */
  function Share(r: Refund, charge: Uuid): int {
    if r.chargeId == charge && r.status != Failed && r.status != Canceled then r.amountCents else 0
  }

  lemma {:induction false} OutstandingAfterUpdate(
    ids: seq<Uuid>, refunds: map<Uuid, Refund>, id: Uuid, r: Refund, charge: Uuid)
    requires NoDuplicates(ids) && id in ids && id in refunds
    ensures Outstanding(ids, refunds[id := r], charge)
         == Outstanding(ids, refunds, charge) - Share(refunds[id], charge) + Share(r, charge)
  {
    assert ids[0] !in ids[1..];
    if ids[0] == id {
      OutstandingElsewhere(ids[1..], refunds, id, r, charge);
    } else {
      OutstandingAfterUpdate(ids[1..], refunds, id, r, charge);
    }
  }

  /** Settling a refund leaves every charge's sum as it was: settled money stays spent. */
  lemma SettlingKeepsSums(db: Db, id: Uuid, charge: Uuid)
    requires Enumerated(db) && id in db.refunds && db.refunds[id].status != Failed && db.refunds[id].status != Canceled
    ensures var settled := db.refunds[id := db.refunds[id].(status := Settled)];
      Outstanding(db.created, settled, charge) == Outstanding(db.created, db.refunds, charge)
  {
    OutstandingAfterUpdate(db.created, db.refunds, id, db.refunds[id].(status := Settled), charge);
  }

  /** Failing a refund gives back exactly its amount, to its own charge only. */
  lemma FailingLowersSum(db: Db, id: Uuid, reason: Option<string>, charge: Uuid)
    requires Enumerated(db) && id in db.refunds && db.refunds[id].status != Failed && db.refunds[id].status != Canceled
    ensures var r := db.refunds[id];
      var failed := db.refunds[id := r.(status := Failed, failureReason := reason)];
      Outstanding(db.created, failed, charge)
      == Outstanding(db.created, db.refunds, charge) - if r.chargeId == charge then r.amountCents else 0
  {
    var failed := db.refunds[id].(status := Failed, failureReason := reason);
    OutstandingAfterUpdate(db.created, db.refunds, id, failed, charge);
  }

  // ---- answers ----

  /** What is left of a charge. */
  function Left(db: Db, charge: Uuid): int
    requires charge in db.charges
  {
    db.charges[charge].amountCaptured - Outstanding(db.created, db.refunds, charge)
  }

  lemma SumFits(w: World, c: Uuid)
    requires LedgerInv(w) && c in w.db.charges
    ensures LiveSum(w.db, c) == Outstanding(w.db.created, w.db.refunds, c)
    ensures FitsI64(LiveSum(w.db, c))
    ensures Wrap64(w.db.charges[c].amountCaptured - LiveSum(w.db, c)) == Left(w.db, c) && 0 <= Left(w.db, c)
  {
    OutstandingIsLiveSum(w.db.created, w.db.refunds, c);
    assert ChargeOk(w.db, c);
    Wrap64Exact(w.db.charges[c].amountCaptured - LiveSum(w.db, c));
  }

  /** A request is accepted if and only if its charge exists, its currency is the charge's, its amount is positive
      and fits under what was captured, and its id is new. */
  lemma AcceptedIff(w: World, q: Request)
    requires LedgerInv(w)
    ensures RequestRefund(w.db, q).1 == Refunded(q.refundId) <==>
      && q.chargeId in w.db.charges
      && q.currency == w.db.charges[q.chargeId].currency
      && q.amountCents > 0
      && q.refundId !in w.db.refunds
      && Outstanding(w.db.created, w.db.refunds, q.chargeId) + q.amountCents <= w.db.charges[q.chargeId].amountCaptured
  {
    if q.chargeId in w.db.charges {
      SumFits(w, q.chargeId);
    }
  }

  /** Any other request is refused for the first of these reasons that applies, and changes nothing. */
  lemma RefusedBecause(w: World, q: Request)
    requires LedgerInv(w) && RequestRefund(w.db, q).1 != Refunded(q.refundId)
    ensures RequestRefund(w.db, q).0 == w.db
    ensures RequestRefund(w.db, q).1 == Rejected(
      if q.chargeId !in w.db.charges then ChargeNotFound(q.chargeId)
      else if q.currency != w.db.charges[q.chargeId].currency
      then CurrencyMismatch(q.currency, w.db.charges[q.chargeId].currency)
      else if q.amountCents > Left(w.db, q.chargeId)
      then OverRefund(q.chargeId, q.amountCents, Left(w.db, q.chargeId))
      else if q.amountCents <= 0 then DbError(CheckViolation)
      else DbError(PrimaryKeyViolation))
  {
    if q.chargeId in w.db.charges {
      SumFits(w, q.chargeId);
    }
  }

  // ---- what is written ----

  /** The status a new refund of this amount starts in. */
  function FirstStatus(amountCents: int): Status {
    if amountCents >= 100_000 then PendingReview else Requested
  }

  /** An accepted request writes one row and one audit row, with the requester in both, and nothing else. */
  lemma AcceptedWrites(db: Db, q: Request)
    requires RequestRefund(db, q).1 == Refunded(q.refundId)
    ensures var status := FirstStatus(q.amountCents);
      RequestRefund(db, q).0 == Db(
        charges := db.charges,
        refunds := db.refunds[q.refundId := Refund(
          chargeId := q.chargeId, amountCents := q.amountCents, currency := q.currency, gatewayRef := None,
          status := status, reasonCode := q.reasonCode, requestedBy := q.actor, failureReason := None)],
        created := db.created + [q.refundId],
        log := db.log + [Transition(
          refundId := q.refundId, from := None, to := status, actor := q.actor, reason := q.reasonCode)],
        events := db.events)
  {
    assert db.created[..|db.created|] + [q.refundId] + db.created[|db.created|..] == db.created + [q.refundId];
  }

  /** Right after a large request its own requester's approval is refused, a submit does nothing, and neither
      changes any table. */
  lemma LargeRequestWaits(db: Db, q: Request, gw: GatewayState, config: MockConfig)
    requires RequestRefund(db, q).1 == Refunded(q.refundId) && q.amountCents >= 100_000
    ensures var after := RequestRefund(db, q).0;
      && Approve(after, q.refundId, q.actor) == (after, Rejected(SeparationOfDuties(q.actor)))
      && Submit(after, gw, q.refundId, config) == (after, gw, Submission(false))
  {
    AcceptedWrites(db, q);
  }
}
