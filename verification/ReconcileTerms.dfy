/** `reconcile` in plain terms: positions in the file, columns of the rows, and the three classes by them. */
module ReconcileTerms {
  import opened Outcomes
  import opened Ledger
  import opened Reconcile

  // ---- the rows ----

  /** Our side is exactly the listed rows that are settled and carry a ref, with that ref and amount. */
  lemma {:induction false} SelectedPlainly(ids: seq<Uuid>, refunds: map<Uuid, Refund>, s: SettledRow)
    ensures s in SelectSettledFrom(ids, refunds) <==>
      && s.id in ids && s.id in refunds && refunds[s.id].status == Settled
      && refunds[s.id].gatewayRef == Some(s.gatewayRef) && refunds[s.id].amountCents == s.amountCents
  {
    if ids != [] {
      SelectedPlainly(ids[1..], refunds, s);
      var rest, whole := SelectSettledFrom(ids[1..], refunds), SelectSettledFrom(ids, refunds);
      if whole != rest {
        assert forall t :: t in whole <==> t == whole[0] || t in rest;
      }
    }
  }

  // ---- the line that counts ----

  /** The line at `i` has this ref and no later one does. */
  predicate LastAt(file: seq<SettlementLine>, ref: string, i: int) {
    && 0 <= i < |file|
    && file[i].gatewayRef == ref
    && forall j :: i < j < |file| ==> file[j].gatewayRef != ref
  }

  lemma {:induction false} LastLinePlainly(file: seq<SettlementLine>, ref: string)
    ensures forall i :: LastAt(file, ref, i) ==> LastLine(file, ref) == Some(file[i])
    ensures LastLine(file, ref).None? <==> forall i :: 0 <= i < |file| ==> file[i].gatewayRef != ref
  {
    if file != [] {
      LastLinePlainly(file[1..], ref);
      assert forall i :: 0 < i < |file| ==> file[i] == file[1..][i - 1];
      forall i | LastAt(file, ref, i)
        ensures LastLine(file, ref) == Some(file[i])
      {
        if i > 0 {
          assert LastAt(file[1..], ref, i - 1);
        }
      }
    }
  }

  // ---- the classes ----

  /** Class one: the settled rows whose ref no line has. */
  lemma MissingPlainly(settled: seq<SettledRow>, file: seq<SettlementLine>, id: Uuid)
    ensures id in Missing(settled, file) <==>
      exists s :: s in settled && s.id == id && forall i :: 0 <= i < |file| ==> file[i].gatewayRef != s.gatewayRef
  {
    MissingMeans(settled, file, id);
    forall s | s in settled
      ensures LastLine(file, s.gatewayRef).None? <==> forall i :: 0 <= i < |file| ==> file[i].gatewayRef != s.gatewayRef
    {
      LastLinePlainly(file, s.gatewayRef);
    }
  }

  /** Class three: a settled row against the last line with its ref, if the amounts differ, with both amounts. */
  lemma MismatchPlainly(settled: seq<SettledRow>, file: seq<SettlementLine>, s: SettledRow, i: int)
    requires s in settled && LastAt(file, s.gatewayRef, i)
    ensures file[i].amountCents != s.amountCents ==>
      AmountMismatch(s.gatewayRef, s.id, s.amountCents, file[i].amountCents) in Mismatches(settled, file)
    ensures file[i].amountCents == s.amountCents && IdsDistinctIn(settled) ==>
      !exists m :: m in Mismatches(settled, file) && m.refundId == s.id
  {
    LastLinePlainly(file, s.gatewayRef);
    MismatchMeans(settled, file, AmountMismatch(s.gatewayRef, s.id, s.amountCents, file[i].amountCents));
    if IdsDistinctIn(settled) {
      ExactlyOneClass(settled, file, s);
      assert Flagged(Mismatches(settled, file), s.id) <==>
        exists m :: m in Mismatches(settled, file) && m.refundId == s.id;
    }
  }

  /** Class two: line by line, in the order of the file and as often as they occur, the refs that no settled row
      has. */
  lemma {:induction false} UnmatchedPlainly(first: seq<SettlementLine>, rest: seq<SettlementLine>,
                                            settled: seq<SettledRow>)
    ensures Unmatched(first + rest, settled) == Unmatched(first, settled) + Unmatched(rest, settled)
    ensures |first| == 1 ==>
      Unmatched(first, settled) == (
        if exists i :: 0 <= i < |settled| && settled[i].gatewayRef == first[0].gatewayRef then []
        else [first[0].gatewayRef])
  {
    if first == [] {
      assert first + rest == rest;
    } else {
      assert (first + rest)[1..] == first[1..] + rest;
      UnmatchedPlainly(first[1..], rest, settled);
      var ref := first[0].gatewayRef;
      assert HasRow(settled, ref) <==> exists i :: 0 <= i < |settled| && settled[i].gatewayRef == ref;
    }
  }
}
