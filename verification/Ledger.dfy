/** The tables of the refund engine and the vocabulary shared by everything that
    reads or writes them: the status machine, the rows, and the live sum. */
module Ledger {
  import opened Outcomes

  type Uuid = nat

  // The bounds of a Postgres bigint and of a Rust i64.
  const I64_MIN: int := -0x8000_0000_0000_0000
  const I64_MAX: int := 0x7fff_ffff_ffff_ffff

  // Amounts at or above this many cents wait for a second person.
  const REVIEW_THRESHOLD_CENTS: int := 100_000

  predicate FitsI64(x: int) {
    I64_MIN <= x <= I64_MAX
  }

  /** Two's complement wrap-around of a 64-bit result. */
  function Wrap64(x: int): int {
    (x - I64_MIN) % 0x1_0000_0000_0000_0000 + I64_MIN
  }

  datatype Status = PendingReview | Requested | Submitted | Settled | Failed | Canceled

  predicate IsTerminal(s: Status) {
    s.Settled? || s.Failed? || s.Canceled?
  }

  /** Refunds that moved, or may yet move, money. */
  predicate IsLive(s: Status) {
    !s.Failed? && !s.Canceled?
  }

  function Rank(s: Status): nat {
    match s
    case PendingReview => 0
    case Requested => 1
    case Submitted => 2
    case _ => 3
  }

  /** One step, or a stutter, of the per-refund status machine. */
  predicate StatusMove(before: Status, after: Status) {
    || before == after
    || (before.PendingReview? && after.Requested?)
    || (before.Requested? && after.Submitted?)
    || (before.Submitted? && after.Settled?)
    || (before.Submitted? && after.Failed?)
  }

  datatype Charge = Charge(amountCaptured: int, currency: string)

  // The row's idempotency key is the text of its own id, so the key is not stored again.
  datatype Refund = Refund(
    chargeId: Uuid,
    amountCents: int,
    currency: string,
    gatewayRef: Option<string>,
    status: Status,
    reasonCode: Option<string>,
    requestedBy: string,
    failureReason: Option<string>)

  datatype Transition = Transition(
    refundId: Uuid,
    from: Option<Status>,
    to: Status,
    actor: string,
    reason: Option<string>)

  /** The four tables. `created` lists the refund ids in `created_at` order. */
  datatype Db = Db(
    charges: map<Uuid, Charge>,
    refunds: map<Uuid, Refund>,
    created: seq<Uuid>,
    log: seq<Transition>,
    events: set<string>)

  /** What may ever happen to a row: only its status, its still missing gateway ref and
      its failure reason change. */
  predicate RowMove(before: Refund, after: Refund) {
    && after.chargeId == before.chargeId
    && after.amountCents == before.amountCents
    && after.currency == before.currency
    && after.reasonCode == before.reasonCode
    && after.requestedBy == before.requestedBy
    && StatusMove(before.status, after.status)
    && (before.gatewayRef.Some? ==> after.gatewayRef == before.gatewayRef)
  }

  function LiveAmount(refunds: map<Uuid, Refund>, id: Uuid, charge: Uuid): int {
    if id in refunds && refunds[id].chargeId == charge && IsLive(refunds[id].status)
    then refunds[id].amountCents else 0
  }

  /** What the refunds listed in `ids` that are neither failed nor canceled take from the charge. */
  function LiveSumOver(ids: seq<Uuid>, refunds: map<Uuid, Refund>, charge: Uuid): int {
    if ids == [] then 0 else LiveAmount(refunds, ids[0], charge) + LiveSumOver(ids[1..], refunds, charge)
  }

  function LiveSum(db: Db, charge: Uuid): int {
    LiveSumOver(db.created, db.refunds, charge)
  }

  predicate NoDuplicates<T(==)>(xs: seq<T>) {
    forall i, j :: 0 <= i < j < |xs| ==> xs[i] != xs[j]
  }

  lemma {:induction false} LiveSumAppend(a: seq<Uuid>, b: seq<Uuid>, refunds: map<Uuid, Refund>, charge: Uuid)
    ensures LiveSumOver(a + b, refunds, charge) == LiveSumOver(a, refunds, charge) + LiveSumOver(b, refunds, charge)
  {
    if a == [] {
      assert a + b == b;
    } else {
      assert (a + b)[1..] == a[1..] + b;
      LiveSumAppend(a[1..], b, refunds, charge);
    }
  }

  /** A row that counts for no more than before never raises the sum. */
  lemma {:induction false} LiveSumMonotone(
      ids: seq<Uuid>, before: map<Uuid, Refund>, after: map<Uuid, Refund>, charge: Uuid)
    requires forall id :: id in ids ==> LiveAmount(after, id, charge) <= LiveAmount(before, id, charge)
    ensures LiveSumOver(ids, after, charge) <= LiveSumOver(ids, before, charge)
  {
    if ids != [] {
      assert ids[0] in ids;
      LiveSumMonotone(ids[1..], before, after, charge);
    }
  }

  lemma {:induction false} LiveSumNonNegative(ids: seq<Uuid>, refunds: map<Uuid, Refund>, charge: Uuid)
    requires forall id :: id in refunds ==> refunds[id].amountCents > 0
    ensures LiveSumOver(ids, refunds, charge) >= 0
  {
    if ids != [] {
      LiveSumNonNegative(ids[1..], refunds, charge);
    }
  }

  /** Inserting a new row anywhere in the listing adds exactly its amount to its own charge
      and nothing to any other. */
  lemma LiveSumInsert(ids: seq<Uuid>, position: nat, refunds: map<Uuid, Refund>, id: Uuid, row: Refund, charge: Uuid)
    requires position <= |ids| && id !in ids && id !in refunds && IsLive(row.status)
    ensures LiveSumOver(ids[..position] + [id] + ids[position..], refunds[id := row], charge)
         == LiveSumOver(ids, refunds, charge) + if row.chargeId == charge then row.amountCents else 0
  {
    var after := refunds[id := row];
    LiveSumAppend(ids[..position] + [id], ids[position..], after, charge);
    LiveSumAppend(ids[..position], [id], after, charge);
    LiveSumAppend(ids[..position], ids[position..], after, charge);
    assert ids[..position] + ids[position..] == ids;
    LiveSumMonotone(ids, refunds, after, charge);
    LiveSumMonotone(ids, after, refunds, charge);
  }
}
