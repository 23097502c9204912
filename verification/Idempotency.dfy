/** Idempotency keys done right: submitting a refund again and again moves money at most once. */
module Idempotency {
  import opened Outcomes
  import opened Ledger
  import opened Gateway
  import opened Statements
  import opened Invariant
  import opened Protocol
  import opened Operations
  import opened Recovery
  import opened CrashRecovery

  /** Submit the same refund once per configuration, in turn. */
  function SubmitAgain(w: World, id: Uuid, configs: seq<MockConfig>): World
    decreases |configs|
  {
    if configs == [] then w else SubmitAgain(Submitted1(w, id, configs[0]), id, configs[1..])
  }

  predicate SomeLanded(configs: seq<MockConfig>) {
    exists i :: 0 <= i < |configs| && !configs[i].timeOut
  }

  lemma LandedFirstOrLater(configs: seq<MockConfig>)
    requires configs != []
    ensures SomeLanded(configs) <==> !configs[0].timeOut || SomeLanded(configs[1..])
  {
    if SomeLanded(configs[1..]) {
      var i :| 0 <= i < |configs[1..]| && !configs[1..][i].timeOut;
      assert !configs[i + 1].timeOut;
    }
    if SomeLanded(configs) {
      var i :| 0 <= i < |configs| && !configs[i].timeOut;
      assert i > 0 ==> !configs[1..][i - 1].timeOut;
    }
  }

  lemma SubmitGateway(db: Db, gw: GatewayState, id: Uuid, config: MockConfig)
    requires IsStuckRow(db, id)
    ensures Submit(db, gw, id, config).1
         == Create(gw, db.refunds[id].amountCents, db.refunds[id].currency, id, config).0
  {
  }

  lemma RecordKeepsStatus(db: Db, id: Uuid, ref: string)
    requires id in db.refunds && RecordRef(db, id, ref).Some?
    ensures var after := RecordRef(db, id, ref).value;
      id in after.refunds && after.refunds[id].status == db.refunds[id].status
  {
  }

  lemma SubmitStatus(db: Db, gw: GatewayState, id: Uuid, config: MockConfig)
    requires IsStuckRow(db, id)
    ensures var after := Submit(db, gw, id, config).0;
      id in after.refunds && after.refunds[id].status == Submitted
  {
    var r, marked := db.refunds[id], MarkSubmitted(db, id);
    var logged := if r.status.Submitted? then marked else AppendLog(marked, SubmitEntry(id, r.status));
    var outcome := Create(gw, r.amountCents, r.currency, id, config).1;
    if outcome.Accepted? && RecordRef(logged, id, outcome.refund.id).Some? {
      RecordKeepsStatus(logged, id, outcome.refund.id);
    }
  }

  lemma CreateKeys(gw: GatewayState, amount: int, currency: string, id: Uuid, config: MockConfig)
    ensures var after := Create(gw, amount, currency, id, config).0;
      && StoreGrows(gw, after)
      && after.store.Keys == gw.store.Keys + (if config.timeOut then {} else {id})
  {
    if id in gw.store {
      assert gw.store.Keys + {id} == gw.store.Keys;
    } else {
      CreateNew(gw, amount, currency, id, config);
    }
  }

  /** One submit of a stuck row: it ends `submitted`, and the gateway knows its key unless this was the
      first call to reach it and it timed out. */
  lemma SubmitOnce(w: World, id: Uuid, config: MockConfig)
    requires IsStuckRow(w.db, id)
    ensures var x := Submitted1(w, id, config);
      && id in x.db.refunds && x.db.refunds[id].status == Submitted
      && StoreGrows(w.gw, x.gw)
      && x.gw.store.Keys == w.gw.store.Keys + (if config.timeOut then {} else {id})
  {
    SubmitGateway(w.db, w.gw, id, config);
    SubmitStatus(w.db, w.gw, id, config);
    CreateKeys(w.gw, w.db.refunds[id].amountCents, w.db.refunds[id].currency, id, config);
  }

  lemma {:induction false} RetriesKeys(w: World, id: Uuid, configs: seq<MockConfig>)
    requires IsStuckRow(w.db, id)
    ensures var x := SubmitAgain(w, id, configs);
      && IsStuckRow(x.db, id)
      && x.gw.store.Keys == w.gw.store.Keys + (if SomeLanded(configs) then {id} else {})
    decreases |configs|
  {
    if configs != [] {
      SubmitOnce(w, id, configs[0]);
      RetriesKeys(Submitted1(w, id, configs[0]), id, configs[1..]);
      LandedFirstOrLater(configs);
    }
  }

  lemma {:induction false} RetriesKeepInv(w: World, id: Uuid, configs: seq<MockConfig>)
    requires LedgerInv(w)
    ensures LedgerInv(SubmitAgain(w, id, configs))
    decreases |configs|
  {
    if configs != [] {
      SubmitKeepsInv(w, id, configs[0]);
      RetriesKeepInv(Submitted1(w, id, configs[0]), id, configs[1..]);
    }
  }

  /** Any number of retries, under any mixture of drops and timeouts: the gateway holds the key exactly
      when some attempt landed (or it did before), and it issued one refund for it, or none. */
  lemma RetriesIssueOnce(w: World, id: Uuid, configs: seq<MockConfig>)
    requires LedgerInv(w) && IsStuckRow(w.db, id)
    ensures var x := SubmitAgain(w, id, configs);
      && IsStuckRow(x.db, id)
      && x.gw.store.Keys == w.gw.store.Keys + (if SomeLanded(configs) then {id} else {})
      && x.gw.issued == w.gw.issued + (if id !in w.gw.store && SomeLanded(configs) then 1 else 0)
  {
    RetriesKeys(w, id, configs);
    RetriesKeepInv(w, id, configs);
    IssuedCountsKeys(w.gw, SubmitAgain(w, id, configs).gw, id);
  }

  lemma IssuedCountsKeys(before: GatewayState, after: GatewayState, id: Uuid)
    requires before.issued == |before.store| && after.issued == |after.store|
    ensures after.store.Keys == before.store.Keys ==> after.issued == before.issued
    ensures after.store.Keys == before.store.Keys + {id} ==>
      after.issued == before.issued + if id in before.store then 0 else 1
  {
    assert |before.store| == |before.store.Keys| && |after.store| == |after.store.Keys|;
    if id in before.store {
      assert before.store.Keys + {id} == before.store.Keys;
    }
  }

  /** Once a ref is on record, or the row is terminal or in review, a further submit under any gateway
      behaviour changes nothing: no row, no log entry, no gateway entry. */
  lemma AcceptedIsStable(w: World, id: Uuid, config: MockConfig)
    requires LedgerInv(w) && id in w.db.refunds
    requires w.db.refunds[id].gatewayRef.Some? || !IsStuck(w.db.refunds[id].status)
    ensures var (db, gw, reply) := Submit(w.db, w.gw, id, config);
      && db == w.db && gw == w.gw
      && reply == Submission(IsStuck(w.db.refunds[id].status) && !config.dropResponse)
  {
    if IsStuck(w.db.refunds[id].status) {
      KnownAndSubmitted(w, id);
      SubmitOfAccepted(w.db, w.gw, id, config);
    }
  }

  lemma KnownAndSubmitted(w: World, id: Uuid)
    requires RowsOk(w) && id in w.db.refunds && w.db.refunds[id].gatewayRef.Some?
    ensures id in w.gw.store && Rank(w.db.refunds[id].status) >= Rank(Submitted)
  {
    assert RowOk(w, id, w.db.refunds[id]);
  }

  lemma SubmitOfAccepted(db: Db, gw: GatewayState, id: Uuid, config: MockConfig)
    requires id in db.refunds && db.refunds[id].status == Submitted && db.refunds[id].gatewayRef.Some? && id in gw.store
    ensures Submit(db, gw, id, config) == (db, gw, Submission(!config.dropResponse))
  {
    assert MarkSubmitted(db, id) == db by {
      assert db.refunds[id := db.refunds[id]] == db.refunds;
    }
    assert RecordRef(db, id, gw.store[id].id) == Some(db);
  }
}
