/** Daily reconciliation: settled refunds against the bank's settlement file. The hash-indexed matcher
    equals a naive scan, and its three classes account for every cent of difference. */
module Reconcile {
  import opened Outcomes
  import opened Ledger
  import opened Gateway
  import opened Invariant
  import opened Protocol
  import opened ProtocolInvariant
  import opened ProtocolTheorems
  import opened Engine

  datatype SettlementLine = SettlementLine(gatewayRef: string, amountCents: int)

  datatype SettledRow = SettledRow(id: Uuid, gatewayRef: string, amountCents: int)

  datatype AmountMismatch = AmountMismatch(gatewayRef: string, refundId: Uuid, dbAmountCents: int, fileAmountCents: int)

  datatype ReconResult = ReconResult(
    settledMissingFromFile: seq<Uuid>, lineWithNoRefund: seq<string>, amountMismatch: seq<AmountMismatch>)

  /** Our side of the match: every settled refund with a gateway ref. */
  function SelectSettledFrom(ids: seq<Uuid>, refunds: map<Uuid, Refund>): seq<SettledRow> {
    if ids == [] then []
    else if ids[0] in refunds && refunds[ids[0]].status.Settled? && refunds[ids[0]].gatewayRef.Some? then
      [SettledRow(ids[0], refunds[ids[0]].gatewayRef.value, refunds[ids[0]].amountCents)]
      + SelectSettledFrom(ids[1..], refunds)
    else SelectSettledFrom(ids[1..], refunds)
  }

  function SelectSettled(db: Db): seq<SettledRow> {
    SelectSettledFrom(db.created, db.refunds)
  }

  // ---- the naive scan ----

  /** The last line of the file with this ref. */
  function LastLine(file: seq<SettlementLine>, ref: string): Option<SettlementLine> {
    if file == [] then None
    else
      var later := LastLine(file[1..], ref);
      if later.Some? then later else if file[0].gatewayRef == ref then Some(file[0]) else None
  }

  predicate HasRow(settled: seq<SettledRow>, ref: string) {
    exists s :: s in settled && s.gatewayRef == ref
  }

  function Missing(settled: seq<SettledRow>, file: seq<SettlementLine>): seq<Uuid> {
    if settled == [] then []
    else if LastLine(file, settled[0].gatewayRef).None? then [settled[0].id] + Missing(settled[1..], file)
    else Missing(settled[1..], file)
  }

  function Mismatches(settled: seq<SettledRow>, file: seq<SettlementLine>): seq<AmountMismatch> {
    if settled == [] then []
    else
      var s, line := settled[0], LastLine(file, settled[0].gatewayRef);
      if line.Some? && line.value.amountCents != s.amountCents then
        [AmountMismatch(s.gatewayRef, s.id, s.amountCents, line.value.amountCents)] + Mismatches(settled[1..], file)
      else Mismatches(settled[1..], file)
  }

  function Unmatched(file: seq<SettlementLine>, settled: seq<SettledRow>): seq<string> {
    if file == [] then []
    else if HasRow(settled, file[0].gatewayRef) then Unmatched(file[1..], settled)
    else [file[0].gatewayRef] + Unmatched(file[1..], settled)
  }

  // ---- the matcher ----

  lemma {:induction false} LastLineAppend(file: seq<SettlementLine>, line: SettlementLine, ref: string)
    ensures LastLine(file + [line], ref) == if line.gatewayRef == ref then Some(line) else LastLine(file, ref)
  {
    if file == [] {
      assert [line][1..] == [];
    } else {
      assert (file + [line])[1..] == file[1..] + [line];
      LastLineAppend(file[1..], line, ref);
    }
  }

  lemma {:induction false} MissingAppend(settled: seq<SettledRow>, s: SettledRow, file: seq<SettlementLine>)
    ensures Missing(settled + [s], file)
         == Missing(settled, file) + if LastLine(file, s.gatewayRef).None? then [s.id] else []
  {
    if settled == [] {
      assert [] + [s] == [s];
    } else {
      assert (settled + [s])[1..] == settled[1..] + [s];
      MissingAppend(settled[1..], s, file);
    }
  }

  lemma {:induction false} MismatchesAppend(settled: seq<SettledRow>, s: SettledRow, file: seq<SettlementLine>)
    ensures var line := LastLine(file, s.gatewayRef);
      Mismatches(settled + [s], file) == Mismatches(settled, file) +
        if line.Some? && line.value.amountCents != s.amountCents
        then [AmountMismatch(s.gatewayRef, s.id, s.amountCents, line.value.amountCents)] else []
  {
    if settled == [] {
      assert [] + [s] == [s];
    } else {
      assert (settled + [s])[1..] == settled[1..] + [s];
      MismatchesAppend(settled[1..], s, file);
    }
  }

  lemma {:induction false} UnmatchedAppend(file: seq<SettlementLine>, line: SettlementLine, settled: seq<SettledRow>)
    ensures Unmatched(file + [line], settled)
         == Unmatched(file, settled) + if HasRow(settled, line.gatewayRef) then [] else [line.gatewayRef]
  {
    if file == [] {
      assert [] + [line] == [line];
    } else {
      assert (file + [line])[1..] == file[1..] + [line];
      UnmatchedAppend(file[1..], line, settled);
    }
  }

  lemma {:induction false} LastLineExists(file: seq<SettlementLine>, ref: string)
    ensures LastLine(file, ref).Some? <==> exists line :: line in file && line.gatewayRef == ref
    ensures LastLine(file, ref).Some? ==>
      LastLine(file, ref).value in file && LastLine(file, ref).value.gatewayRef == ref
  {
    if file != [] {
      LastLineExists(file[1..], ref);
      assert forall line :: line in file <==> line == file[0] || line in file[1..];
    }
  }

  ghost predicate Indexes(index: map<string, SettlementLine>, file: seq<SettlementLine>) {
    forall ref: string ::
      (if ref in index then LastLine(file, ref) == Some(index[ref]) else LastLine(file, ref).None?)
  }

  method IndexFile(file: seq<SettlementLine>) returns (fileByRef: map<string, SettlementLine>)
    ensures Indexes(fileByRef, file)
  {
    fileByRef := map[];
    var i := 0;
    while i < |file|
      invariant 0 <= i <= |file|
      invariant Indexes(fileByRef, file[..i])
    {
      assert file[..i + 1] == file[..i] + [file[i]];
      forall ref: string
        ensures LastLine(file[..i + 1], ref)
             == if file[i].gatewayRef == ref then Some(file[i]) else LastLine(file[..i], ref)
      {
        LastLineAppend(file[..i], file[i], ref);
      }
      fileByRef := fileByRef[file[i].gatewayRef := file[i]];
      i := i + 1;
    }
    assert file[..i] == file;
  }

  method MatchRows(settled: seq<SettledRow>, file: seq<SettlementLine>, fileByRef: map<string, SettlementLine>)
    returns (missing: seq<Uuid>, mismatch: seq<AmountMismatch>, matchedRefs: set<string>)
    requires Indexes(fileByRef, file)
    ensures missing == Missing(settled, file) && mismatch == Mismatches(settled, file)
    ensures forall ref :: ref in matchedRefs <==> HasRow(settled, ref) && ref in fileByRef
  {
    missing, mismatch, matchedRefs := [], [], {};
    var i := 0;
    while i < |settled|
      invariant 0 <= i <= |settled|
      invariant missing == Missing(settled[..i], file) && mismatch == Mismatches(settled[..i], file)
      invariant forall ref :: ref in matchedRefs <==> HasRow(settled[..i], ref) && ref in fileByRef
    {
      var s := settled[i];
      assert settled[..i + 1] == settled[..i] + [s];
      MissingAppend(settled[..i], s, file);
      MismatchesAppend(settled[..i], s, file);
      HasRowAppend(settled[..i], s);
      if s.gatewayRef !in fileByRef {
        missing := missing + [s.id];
      } else {
        var line := fileByRef[s.gatewayRef];
        matchedRefs := matchedRefs + {s.gatewayRef};
        if line.amountCents != s.amountCents {
          mismatch := mismatch + [AmountMismatch(s.gatewayRef, s.id, s.amountCents, line.amountCents)];
        }
      }
      i := i + 1;
    }
    assert settled[..i] == settled;
  }

  lemma HasRowAppend(settled: seq<SettledRow>, s: SettledRow)
    ensures forall ref :: HasRow(settled + [s], ref) <==> HasRow(settled, ref) || s.gatewayRef == ref
  {
    forall ref
      ensures HasRow(settled + [s], ref) <==> HasRow(settled, ref) || s.gatewayRef == ref
    {
      assert forall t :: t in settled + [s] <==> t in settled || t == s;
    }
  }

  method CollectUnmatched(file: seq<SettlementLine>, settled: seq<SettledRow>, matchedRefs: set<string>)
    returns (unmatched: seq<string>)
    requires forall line :: line in file ==> (line.gatewayRef in matchedRefs <==> HasRow(settled, line.gatewayRef))
    ensures unmatched == Unmatched(file, settled)
  {
    unmatched := [];
    var i := 0;
    while i < |file|
      invariant 0 <= i <= |file|
      invariant unmatched == Unmatched(file[..i], settled)
    {
      assert file[..i + 1] == file[..i] + [file[i]];
      UnmatchedAppend(file[..i], file[i], settled);
      if file[i].gatewayRef !in matchedRefs {
        unmatched := unmatched + [file[i].gatewayRef];
      }
      i := i + 1;
    }
    assert file[..i] == file;
  }

  /** The hash-indexed matcher refines the naive scan. */
  method ReconcileRows(settled: seq<SettledRow>, file: seq<SettlementLine>) returns (result: ReconResult)
    ensures result == ReconResult(Missing(settled, file), Unmatched(file, settled), Mismatches(settled, file))
  {
    var fileByRef := IndexFile(file);
    var missing, mismatch, matchedRefs := MatchRows(settled, file, fileByRef);
    forall line | line in file
      ensures line.gatewayRef in matchedRefs <==> HasRow(settled, line.gatewayRef)
    {
      LastLineExists(file, line.gatewayRef);
    }
    var unmatched := CollectUnmatched(file, settled, matchedRefs);
    result := ReconResult(missing, unmatched, mismatch);
  }

  method Reconcile(pool: Database, file: seq<SettlementLine>) returns (result: ReconResult)
    ensures var settled := SelectSettled(pool.View());
      result == ReconResult(Missing(settled, file), Unmatched(file, settled), Mismatches(settled, file))
  {
    var settled := SelectSettled(pool.View());
    result := ReconcileRows(settled, file);
  }

  // ---- what the classes mean ----

  predicate IdsDistinctIn(settled: seq<SettledRow>) {
    forall i, j :: 0 <= i < j < |settled| ==> settled[i].id != settled[j].id
  }

  predicate Flagged(ms: seq<AmountMismatch>, id: Uuid) {
    exists m :: m in ms && m.refundId == id
  }

  lemma {:induction false} MissingMeans(settled: seq<SettledRow>, file: seq<SettlementLine>, id: Uuid)
    ensures id in Missing(settled, file) <==>
      exists s :: s in settled && s.id == id && LastLine(file, s.gatewayRef).None?
  {
    if settled != [] {
      MissingMeans(settled[1..], file, id);
      assert forall s :: s in settled <==> s == settled[0] || s in settled[1..];
    }
  }

  lemma {:induction false} MismatchMeans(settled: seq<SettledRow>, file: seq<SettlementLine>, m: AmountMismatch)
    ensures m in Mismatches(settled, file) <==>
      exists s :: s in settled && LastLine(file, s.gatewayRef).Some?
        && m == AmountMismatch(s.gatewayRef, s.id, s.amountCents, LastLine(file, s.gatewayRef).value.amountCents)
        && m.fileAmountCents != m.dbAmountCents
  {
    if settled != [] {
      MismatchMeans(settled[1..], file, m);
      assert forall s :: s in settled <==> s == settled[0] || s in settled[1..];
    }
  }

  /** A settled row is missing, mismatched or clean, one and only one, judged against the last line with
      its ref. */
  lemma ExactlyOneClass(settled: seq<SettledRow>, file: seq<SettlementLine>, s: SettledRow)
    requires s in settled && IdsDistinctIn(settled)
    ensures var line := LastLine(file, s.gatewayRef);
      && (s.id in Missing(settled, file) <==> line.None?)
      && (Flagged(Mismatches(settled, file), s.id) <==> line.Some? && line.value.amountCents != s.amountCents)
  {
    MissingMeans(settled, file, s.id);
    OnlyRowWithId(settled, s);
    var line := LastLine(file, s.gatewayRef);
    if line.Some? && line.value.amountCents != s.amountCents {
      var m := AmountMismatch(s.gatewayRef, s.id, s.amountCents, line.value.amountCents);
      MismatchMeans(settled, file, m);
      assert m in Mismatches(settled, file);
    }
    if Flagged(Mismatches(settled, file), s.id) {
      var m :| m in Mismatches(settled, file) && m.refundId == s.id;
      MismatchMeans(settled, file, m);
    }
  }

  lemma OnlyRowWithId(settled: seq<SettledRow>, s: SettledRow)
    requires s in settled && IdsDistinctIn(settled)
    ensures forall t :: t in settled && t.id == s.id ==> t == s
  {
  }

  /** Class two, line by line: in file order and with multiplicity, the lines no settled row answers for. */
  lemma {:induction false} UnmatchedMeans(file: seq<SettlementLine>, settled: seq<SettledRow>, ref: string)
    ensures multiset(Unmatched(file, settled))[ref] == if HasRow(settled, ref) then 0 else LinesWith(file, ref)
  {
    if file != [] {
      UnmatchedMeans(file[1..], settled, ref);
      if !HasRow(settled, file[0].gatewayRef) {
        assert Unmatched(file, settled)[1..] == Unmatched(file[1..], settled);
        assert Unmatched(file, settled) == [file[0].gatewayRef] + Unmatched(file[1..], settled);
      }
    }
  }

  function LinesWith(file: seq<SettlementLine>, ref: string): nat {
    if file == [] then 0 else (if file[0].gatewayRef == ref then 1 else 0) + LinesWith(file[1..], ref)
  }

  // ---- conservation ----

  function FileTotal(file: seq<SettlementLine>): int {
    if file == [] then 0 else file[0].amountCents + FileTotal(file[1..])
  }

  function SettledTotal(settled: seq<SettledRow>): int {
    if settled == [] then 0 else settled[0].amountCents + SettledTotal(settled[1..])
  }

  /** Money of class one, two and three. */
  function MissingTotal(settled: seq<SettledRow>, file: seq<SettlementLine>): int {
    if settled == [] then 0
    else
      (if LastLine(file, settled[0].gatewayRef).None? then settled[0].amountCents else 0)
      + MissingTotal(settled[1..], file)
  }

  function UnmatchedTotal(file: seq<SettlementLine>, settled: seq<SettledRow>): int {
    if file == [] then 0
    else (if HasRow(settled, file[0].gatewayRef) then 0 else file[0].amountCents) + UnmatchedTotal(file[1..], settled)
  }

  function MismatchDelta(ms: seq<AmountMismatch>): int {
    if ms == [] then 0 else ms[0].fileAmountCents - ms[0].dbAmountCents + MismatchDelta(ms[1..])
  }

  /** Money on lines that a later line with the same settled ref hides from the index. */
  function ShadowedTotal(file: seq<SettlementLine>, settled: seq<SettledRow>): int {
    if file == [] then 0
    else
      var line := file[0];
      (if HasRow(settled, line.gatewayRef) && LastLine(file[1..], line.gatewayRef).Some? then line.amountCents else 0)
      + ShadowedTotal(file[1..], settled)
  }

  predicate RefsDistinctIn(settled: seq<SettledRow>) {
    forall i, j :: 0 <= i < j < |settled| ==> settled[i].gatewayRef != settled[j].gatewayRef
  }

  predicate LinesDistinct(file: seq<SettlementLine>) {
    forall i, j :: 0 <= i < j < |file| ==> file[i].gatewayRef != file[j].gatewayRef
  }

  function LastAmount(file: seq<SettlementLine>, ref: string): int {
    var line := LastLine(file, ref);
    if line.Some? then line.value.amountCents else 0
  }

  function LastTotal(file: seq<SettlementLine>, settled: seq<SettledRow>): int {
    if settled == [] then 0 else LastAmount(file, settled[0].gatewayRef) + LastTotal(file, settled[1..])
  }

  lemma {:induction false} RowsAgainstLastLines(settled: seq<SettledRow>, file: seq<SettlementLine>)
    ensures LastTotal(file, settled) - SettledTotal(settled)
         == MismatchDelta(Mismatches(settled, file)) - MissingTotal(settled, file)
  {
    if settled != [] {
      RowsAgainstLastLines(settled[1..], file);
      var s, line := settled[0], LastLine(file, settled[0].gatewayRef);
      if line.Some? && line.value.amountCents != s.amountCents {
        assert Mismatches(settled, file)[1..] == Mismatches(settled[1..], file);
      }
    }
  }

  lemma HasRowFirst(settled: seq<SettledRow>, ref: string)
    requires settled != []
    ensures HasRow(settled, ref) <==> settled[0].gatewayRef == ref || HasRow(settled[1..], ref)
  {
    assert forall s :: s in settled <==> s == settled[0] || s in settled[1..];
  }

  /** One more line in front counts once for the settled row with its ref, unless a later line hides it. */
  lemma {:induction false} LastTotalCons(line: SettlementLine, rest: seq<SettlementLine>, settled: seq<SettledRow>)
    requires RefsDistinctIn(settled)
    ensures LastTotal([line] + rest, settled) == LastTotal(rest, settled) +
      if HasRow(settled, line.gatewayRef) && LastLine(rest, line.gatewayRef).None? then line.amountCents else 0
  {
    if settled != [] {
      FirstRefIsAlone(settled);
      LastTotalCons(line, rest, settled[1..]);
      HasRowFirst(settled, line.gatewayRef);
      assert ([line] + rest)[1..] == rest;
    }
  }

  lemma FirstRefIsAlone(settled: seq<SettledRow>)
    requires settled != [] && RefsDistinctIn(settled)
    ensures !HasRow(settled[1..], settled[0].gatewayRef) && RefsDistinctIn(settled[1..])
  {
    forall s | s in settled[1..]
      ensures s.gatewayRef != settled[0].gatewayRef
    {
      var i :| 0 <= i < |settled[1..]| && settled[1..][i] == s;
      assert settled[i + 1] == s;
    }
  }

  lemma {:induction false} LinesAgainstLastLines(file: seq<SettlementLine>, settled: seq<SettledRow>)
    requires RefsDistinctIn(settled)
    ensures FileTotal(file) == UnmatchedTotal(file, settled) + LastTotal(file, settled) + ShadowedTotal(file, settled)
  {
    if file == [] {
      NoFileNoTotal(settled);
    } else {
      LinesAgainstLastLines(file[1..], settled);
      LastTotalCons(file[0], file[1..], settled);
      assert [file[0]] + file[1..] == file;
    }
  }

  lemma {:induction false} NoFileNoTotal(settled: seq<SettledRow>)
    ensures LastTotal([], settled) == 0
  {
    if settled != [] {
      NoFileNoTotal(settled[1..]);
    }
  }

  /** Conservation, for every file and every set of settled rows with distinct refs: the difference of the
      totals is class two, plus the mismatches, minus class one, plus whatever repeated lines hide. */
  lemma Conservation(settled: seq<SettledRow>, file: seq<SettlementLine>)
    requires RefsDistinctIn(settled)
    ensures FileTotal(file) - SettledTotal(settled)
         == UnmatchedTotal(file, settled) + MismatchDelta(Mismatches(settled, file)) - MissingTotal(settled, file)
            + ShadowedTotal(file, settled)
  {
    LinesAgainstLastLines(file, settled);
    RowsAgainstLastLines(settled, file);
  }

  /** A file that repeats no ref hides nothing. */
  lemma {:induction false} DistinctLinesHideNothing(file: seq<SettlementLine>, settled: seq<SettledRow>)
    requires LinesDistinct(file)
    ensures ShadowedTotal(file, settled) == 0
  {
    if file != [] {
      LastLineExists(file[1..], file[0].gatewayRef);
      forall line | line in file[1..]
        ensures line.gatewayRef != file[0].gatewayRef
      {
        var i :| 0 <= i < |file[1..]| && file[1..][i] == line;
        assert file[i + 1] == line;
      }
      forall i, j | 0 <= i < j < |file[1..]|
        ensures file[1..][i].gatewayRef != file[1..][j].gatewayRef
      {
        assert file[1..][i] == file[i + 1] && file[1..][j] == file[j + 1];
      }
      DistinctLinesHideNothing(file[1..], settled);
    }
  }

  lemma {:induction false} NoneMissing(settled: seq<SettledRow>, file: seq<SettlementLine>)
    requires Missing(settled, file) == []
    ensures MissingTotal(settled, file) == 0
  {
    if settled != [] {
      NoneMissing(settled[1..], file);
    }
  }

  lemma {:induction false} NoneUnmatched(file: seq<SettlementLine>, settled: seq<SettledRow>)
    requires Unmatched(file, settled) == []
    ensures UnmatchedTotal(file, settled) == 0
  {
    if file != [] {
      NoneUnmatched(file[1..], settled);
    }
  }

  /** With no flag raised, as much settled as the bank says it moved just when repeated lines hide
      nothing on balance. */
  lemma NoFlagsMeanEqualTotalsIff(settled: seq<SettledRow>, file: seq<SettlementLine>)
    requires RefsDistinctIn(settled)
    requires Missing(settled, file) == [] && Unmatched(file, settled) == [] && Mismatches(settled, file) == []
    ensures FileTotal(file) == SettledTotal(settled) <==> ShadowedTotal(file, settled) == 0
  {
    Conservation(settled, file);
    NoneMissing(settled, file);
    NoneUnmatched(file, settled);
  }

  /** In particular when the file repeats no ref. */
  lemma NoFlagsMeanEqualTotals(settled: seq<SettledRow>, file: seq<SettlementLine>)
    requires RefsDistinctIn(settled) && LinesDistinct(file)
    requires Missing(settled, file) == [] && Unmatched(file, settled) == [] && Mismatches(settled, file) == []
    ensures FileTotal(file) == SettledTotal(settled)
  {
    NoFlagsMeanEqualTotalsIff(settled, file);
    DistinctLinesHideNothing(file, settled);
  }

  /** With a repeated ref the file can be a whole line off and nothing is flagged. */
  lemma RepeatedLineIsNotFlagged(id: Uuid, ref: string, amount: int)
    requires amount > 0
    ensures var settled := [SettledRow(id, ref, amount)];
      var line := SettlementLine(ref, amount);
      var file := [line, line];
      && Missing(settled, file) == [] && Unmatched(file, settled) == [] && Mismatches(settled, file) == []
      && FileTotal(file) == SettledTotal(settled) + amount
  {
    var settled, line := [SettledRow(id, ref, amount)], SettlementLine(ref, amount);
    var file := [line, line];
    assert file[1..] == [line] && [line][1..] == [] && settled[1..] == [];
    assert settled[0] in settled;
    assert HasRow(settled, ref);
    assert Unmatched([line], settled) == [];
    LastLineAppend([], line, ref);
    LastLineAppend([line], line, ref);
    assert [] + [line] == [line] && [line] + [line] == file;
    assert LastLine(file, ref) == Some(line);
    assert FileTotal([line]) == amount;
    assert FileTotal(file) == amount + amount;
    assert SettledTotal(settled) == amount;
  }

  // ---- in every reachable state ----

  /** The `IS NOT NULL` filter drops no settled row. */
  lemma {:induction false} EverySettledRowIsSelected(w: World, ids: seq<Uuid>, id: Uuid)
    requires RowsOk(w) && id in ids && id in w.db.refunds && w.db.refunds[id].status == Settled
    ensures w.db.refunds[id].gatewayRef.Some?
    ensures SettledRow(id, w.db.refunds[id].gatewayRef.value, w.db.refunds[id].amountCents)
         in SelectSettledFrom(ids, w.db.refunds)
  {
    assert RowOk(w, id, w.db.refunds[id]);
    if ids[0] != id {
      EverySettledRowIsSelected(w, ids[1..], id);
    }
  }

  lemma {:induction false} SelectedRowsAreSettled(ids: seq<Uuid>, refunds: map<Uuid, Refund>, s: SettledRow)
    requires s in SelectSettledFrom(ids, refunds)
    ensures s.id in ids && s.id in refunds && refunds[s.id].status == Settled
    ensures refunds[s.id].gatewayRef == Some(s.gatewayRef) && refunds[s.id].amountCents == s.amountCents
  {
    if !(ids[0] in refunds && refunds[ids[0]].status.Settled? && refunds[ids[0]].gatewayRef.Some? && s.id == ids[0]) {
      SelectedRowsAreSettled(ids[1..], refunds, s);
    } else if s != SelectSettledFrom(ids, refunds)[0] {
      SelectedRowsAreSettled(ids[1..], refunds, s);
    }
  }

  /** The gateway's own account of a refund. */
  function GatewayLine(gw: GatewayState, id: Uuid): SettlementLine
    requires id in gw.store
  {
    SettlementLine(gw.store[id].id, gw.store[id].amount)
  }

  /** The file lists the gateway's entries of exactly the settled rows, in any order, any number of times. */
  predicate IsGatewayFile(w: World, settled: seq<SettledRow>, file: seq<SettlementLine>) {
    && (forall s :: s in settled ==> s.id in w.gw.store && GatewayLine(w.gw, s.id) in file)
    && (forall line :: line in file ==>
          exists s :: s in settled && s.id in w.gw.store && line == GatewayLine(w.gw, s.id))
  }

  lemma RowMatchesGateway(w: World, s: SettledRow)
    requires RowsOk(w) && s in SelectSettled(w.db)
    ensures s.id in w.gw.store && GatewayLine(w.gw, s.id) == SettlementLine(s.gatewayRef, s.amountCents)
  {
    SelectedRowsAreSettled(w.db.created, w.db.refunds, s);
    assert RowOk(w, s.id, w.db.refunds[s.id]);
  }

  lemma {:induction false} NothingMissingOrMismatched(settled: seq<SettledRow>, file: seq<SettlementLine>)
    requires forall s :: s in settled ==>
      LastLine(file, s.gatewayRef) == Some(SettlementLine(s.gatewayRef, s.amountCents))
    ensures Missing(settled, file) == [] && Mismatches(settled, file) == []
  {
    if settled != [] {
      assert settled[0] in settled;
      NothingMissingOrMismatched(settled[1..], file);
    }
  }

  lemma {:induction false} NothingUnmatched(file: seq<SettlementLine>, settled: seq<SettledRow>)
    requires forall line :: line in file ==> HasRow(settled, line.gatewayRef)
    ensures Unmatched(file, settled) == []
  {
    if file != [] {
      assert file[0] in file;
      NothingUnmatched(file[1..], settled);
    }
  }

  lemma LastGatewayLine(w: World, file: seq<SettlementLine>, s: SettledRow)
    requires LedgerInv(w) && IsGatewayFile(w, SelectSettled(w.db), file) && s in SelectSettled(w.db)
    ensures LastLine(file, s.gatewayRef) == Some(SettlementLine(s.gatewayRef, s.amountCents))
  {
    RowMatchesGateway(w, s);
    LastLineExists(file, s.gatewayRef);
    assert GatewayLine(w.gw, s.id) in file;
    var line := LastLine(file, s.gatewayRef).value;
    var t :| t in SelectSettled(w.db) && t.id in w.gw.store && line == GatewayLine(w.gw, t.id);
    RowMatchesGateway(w, t);
    assert t.id == s.id;
  }

  /** In every reachable state of the protocol, reconciling against the gateway's own entries for the
      settled rows flags nothing. */
  lemma ReachableStatesReconcile(states: seq<State>, moves: seq<Move>, i: nat, file: seq<SettlementLine>)
    requires IsRunFromStart(states, moves) && i <= |moves|
    requires IsGatewayFile(states[i].w, SelectSettled(states[i].w.db), file)
    ensures var settled := SelectSettled(states[i].w.db);
      Missing(settled, file) == [] && Unmatched(file, settled) == [] && Mismatches(settled, file) == []
  {
    ReachableInv(states, moves, i);
    var w := states[i].w;
    var settled := SelectSettled(w.db);
    forall s | s in settled
      ensures LastLine(file, s.gatewayRef) == Some(SettlementLine(s.gatewayRef, s.amountCents))
    {
      LastGatewayLine(w, file, s);
    }
    NothingMissingOrMismatched(settled, file);
    forall line | line in file
      ensures HasRow(settled, line.gatewayRef)
    {
      var s :| s in settled && s.id in w.gw.store && line == GatewayLine(w.gw, s.id);
      RowMatchesGateway(w, s);
    }
    NothingUnmatched(file, settled);
  }

  /** ... and the filter drops nothing. */
  lemma ReachableStatesSelectAllSettled(states: seq<State>, moves: seq<Move>, i: nat, id: Uuid)
    requires IsRunFromStart(states, moves) && i <= |moves|
    ensures (exists s :: s in SelectSettled(states[i].w.db) && s.id == id)
       <==> id in states[i].w.db.refunds && states[i].w.db.refunds[id].status == Settled
  {
    ReachableInv(states, moves, i);
    var w := states[i].w;
    if id in w.db.refunds && w.db.refunds[id].status == Settled {
      assert id in w.db.created;
      EverySettledRowIsSelected(w, w.db.created, id);
    }
    if s :| s in SelectSettled(w.db) && s.id == id {
      SelectedRowsAreSettled(w.db.created, w.db.refunds, s);
    }
  }

  /** The query returns each id and each ref once: ids are listed once, and the partial unique index
      keeps refs apart. */
  lemma {:induction false} SelectedAreDistinct(ids: seq<Uuid>, db: Db)
    requires NoDuplicates(ids) && RefsDistinct(db)
    ensures IdsDistinctIn(SelectSettledFrom(ids, db.refunds)) && RefsDistinctIn(SelectSettledFrom(ids, db.refunds))
  {
    if ids != [] {
      assert ids[0] !in ids[1..];
      SelectedAreDistinct(ids[1..], db);
      var rest, whole := SelectSettledFrom(ids[1..], db.refunds), SelectSettledFrom(ids, db.refunds);
      if whole != rest {
        FirstSelectedIsApart(ids, db);
        OneMoreDistinct(whole[0], rest);
      }
    }
  }

  lemma FirstSelectedIsApart(ids: seq<Uuid>, db: Db)
    requires ids != [] && ids[0] !in ids[1..] && RefsDistinct(db)
    requires SelectSettledFrom(ids, db.refunds) != SelectSettledFrom(ids[1..], db.refunds)
    ensures var rest, whole := SelectSettledFrom(ids[1..], db.refunds), SelectSettledFrom(ids, db.refunds);
      && whole == [whole[0]] + rest
      && forall s :: s in rest ==> s.id != whole[0].id && s.gatewayRef != whole[0].gatewayRef
  {
    forall s | s in SelectSettledFrom(ids[1..], db.refunds)
      ensures s.id != ids[0] && db.refunds[ids[0]].gatewayRef != Some(s.gatewayRef)
    {
      SelectedRowsAreSettled(ids[1..], db.refunds, s);
    }
  }

  lemma OneMoreDistinct(first: SettledRow, rest: seq<SettledRow>)
    requires IdsDistinctIn(rest) && RefsDistinctIn(rest)
    requires forall s :: s in rest ==> s.id != first.id && s.gatewayRef != first.gatewayRef
    ensures IdsDistinctIn([first] + rest) && RefsDistinctIn([first] + rest)
  {
    var whole := [first] + rest;
    forall i, j | 0 <= i < j < |whole|
      ensures whole[i].id != whole[j].id && whole[i].gatewayRef != whole[j].gatewayRef
    {
      assert whole[j] == rest[j - 1] && rest[j - 1] in rest;
      assert i > 0 ==> whole[i] == rest[i - 1];
    }
  }

  /** The file a bank would send that saw exactly what the gateway moved for the settled rows. */
  function GatewayFile(gw: GatewayState, settled: seq<SettledRow>): seq<SettlementLine>
    requires forall s :: s in settled ==> s.id in gw.store
  {
    seq(|settled|, i requires 0 <= i < |settled| => GatewayLine(gw, settled[i].id))
  }

  lemma {:induction false} SameTotals(settled: seq<SettledRow>, file: seq<SettlementLine>)
    requires |file| == |settled|
    requires forall i :: 0 <= i < |file| ==> file[i].amountCents == settled[i].amountCents
    ensures FileTotal(file) == SettledTotal(settled)
  {
    if file != [] {
      assert forall i :: 0 <= i < |file[1..]| ==> file[1..][i] == file[i + 1] && settled[1..][i] == settled[i + 1];
      SameTotals(settled[1..], file[1..]);
    }
  }

  /** In every reachable state there is such a file; it lists the settled rows one by one, to the same total,
      and flags nothing. */
  lemma GatewayFileReconciles(states: seq<State>, moves: seq<Move>, i: nat) returns (file: seq<SettlementLine>)
    requires IsRunFromStart(states, moves) && i <= |moves|
    ensures var settled := SelectSettled(states[i].w.db);
      && |file| == |settled| && IsGatewayFile(states[i].w, settled, file)
      && FileTotal(file) == SettledTotal(settled)
      && Missing(settled, file) == [] && Unmatched(file, settled) == [] && Mismatches(settled, file) == []
  {
    ReachableInv(states, moves, i);
    file := GatewayFileOf(states[i].w);
    ReachableStatesReconcile(states, moves, i, file);
  }

  lemma GatewayFileOf(w: World) returns (file: seq<SettlementLine>)
    requires RowsOk(w)
    ensures var settled := SelectSettled(w.db);
      |file| == |settled| && IsGatewayFile(w, settled, file) && FileTotal(file) == SettledTotal(settled)
  {
    var settled := SelectSettled(w.db);
    forall s | s in settled
      ensures s.id in w.gw.store && GatewayLine(w.gw, s.id) == SettlementLine(s.gatewayRef, s.amountCents)
    {
      RowMatchesGateway(w, s);
    }
    file := GatewayFile(w.gw, settled);
    forall s | s in settled
      ensures GatewayLine(w.gw, s.id) in file
    {
      var k :| 0 <= k < |settled| && settled[k] == s;
      assert file[k] == GatewayLine(w.gw, s.id);
    }
    forall line | line in file
      ensures exists s :: s in settled && s.id in w.gw.store && line == GatewayLine(w.gw, s.id)
    {
      var k :| 0 <= k < |file| && file[k] == line;
      assert settled[k] in settled;
    }
    SameTotals(settled, file);
  }

  lemma ReachableSelectionIsDistinct(states: seq<State>, moves: seq<Move>, i: nat)
    requires IsRunFromStart(states, moves) && i <= |moves|
    ensures IdsDistinctIn(SelectSettled(states[i].w.db)) && RefsDistinctIn(SelectSettled(states[i].w.db))
  {
    ReachableInv(states, moves, i);
    InvRefsDistinct(states[i].w);
    SelectedAreDistinct(states[i].w.db.created, states[i].w.db);
  }

  /** Conservation in every reachable state, for every file: the difference to what the rows that settled
      are worth is class two, plus the mismatches, minus class one, plus what repeated lines hide; and with
      no flag raised the totals agree just when nothing is hidden on balance. */
  lemma ReachableConservation(states: seq<State>, moves: seq<Move>, i: nat, file: seq<SettlementLine>)
    requires IsRunFromStart(states, moves) && i <= |moves|
    ensures var settled := SelectSettled(states[i].w.db);
      FileTotal(file) - SettledTotal(settled)
      == UnmatchedTotal(file, settled) + MismatchDelta(Mismatches(settled, file)) - MissingTotal(settled, file)
         + ShadowedTotal(file, settled)
    ensures var settled := SelectSettled(states[i].w.db);
      Missing(settled, file) == [] && Unmatched(file, settled) == [] && Mismatches(settled, file) == [] ==>
        (FileTotal(file) == SettledTotal(settled) <==> ShadowedTotal(file, settled) == 0)
  {
    var settled := SelectSettled(states[i].w.db);
    ReachableSelectionIsDistinct(states, moves, i);
    Conservation(settled, file);
    if Missing(settled, file) == [] && Unmatched(file, settled) == [] && Mismatches(settled, file) == [] {
      NoFlagsMeanEqualTotalsIff(settled, file);
    }
  }

  /** In every reachable state, each refund that settled is missing, mismatched or clean, one and only one. */
  lemma ReachableExactlyOneClass(states: seq<State>, moves: seq<Move>, i: nat, file: seq<SettlementLine>, id: Uuid)
    requires IsRunFromStart(states, moves) && i <= |moves|
    requires id in states[i].w.db.refunds && states[i].w.db.refunds[id].status == Settled
    ensures var settled, r := SelectSettled(states[i].w.db), states[i].w.db.refunds[id];
      && r.gatewayRef.Some?
      && var line := LastLine(file, r.gatewayRef.value);
      && (id in Missing(settled, file) <==> line.None?)
      && (Flagged(Mismatches(settled, file), id) <==> line.Some? && line.value.amountCents != r.amountCents)
  {
    var db, settled := states[i].w.db, SelectSettled(states[i].w.db);
    ReachableInv(states, moves, i);
    ReachableSelectionIsDistinct(states, moves, i);
    EverySettledRowIsSelected(states[i].w, db.created, id);
    ExactlyOneClass(settled, file, SettledRow(id, db.refunds[id].gatewayRef.value, db.refunds[id].amountCents));
  }
}
