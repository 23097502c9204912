/** `recover_submitted` in plain terms: which rows it walks and in what order, what it writes for each of them, and
    under what name. */
module RecoverTerms {
  import opened Outcomes
  import opened Errors
  import opened Ledger
  import opened Gateway
  import opened Statements
  import opened Invariant
  import opened Operations
  import opened Recovery

  // ---- the stuck list ----

  /** The walk has exactly the rows in `requested` or `submitted`, with the status each of them has. */
  lemma WalksExactly(db: Db, k: Stuck)
    requires Enumerated(db)
    ensures k in SelectStuck(db) <==>
      && k.id in db.refunds && k.status == db.refunds[k.id].status
      && (db.refunds[k.id].status == Requested || db.refunds[k.id].status == Submitted)
  {
    assert k.id in db.created <==> k.id in db.refunds;
  }

  /** `places` is where the walked rows stand in the listing, one after the other. */
  predicate InOrder(todo: seq<Stuck>, ids: seq<Uuid>, places: seq<nat>) {
    && |places| == |todo|
    && (forall i :: 0 <= i < |todo| ==> places[i] < |ids| && ids[places[i]] == todo[i].id)
    && (forall i, j :: 0 <= i < j < |places| ==> places[i] < places[j])
  }

  function Shifted(places: seq<nat>): seq<nat> {
    seq(|places|, i requires 0 <= i < |places| => places[i] + 1)
  }

  lemma ShiftedInOrder(todo: seq<Stuck>, ids: seq<Uuid>, places: seq<nat>)
    requires ids != [] && InOrder(todo, ids[1..], places)
    ensures InOrder(todo, ids, Shifted(places))
  {
  }

  lemma FirstInOrder(k: Stuck, todo: seq<Stuck>, ids: seq<Uuid>, places: seq<nat>)
    requires ids != [] && k.id == ids[0] && InOrder(todo, ids, places)
    requires forall i :: 0 <= i < |places| ==> places[i] > 0
    ensures InOrder([k] + todo, ids, [0] + places)
  {
    var all := [0] + places;
    forall i, j | 0 <= i < j < |all|
      ensures all[i] < all[j]
    {
      assert all[j] == places[j - 1];
      assert i > 0 ==> all[i] == places[i - 1];
    }
  }

  /** The walk follows `created_at` order. */
  lemma {:induction false} WalksInOrder(ids: seq<Uuid>, refunds: map<Uuid, Refund>) returns (places: seq<nat>)
    ensures InOrder(SelectStuckFrom(ids, refunds), ids, places)
  {
    places := [];
    if ids != [] {
      var todo := SelectStuckFrom(ids[1..], refunds);
      var later := WalksInOrder(ids[1..], refunds);
      ShiftedInOrder(todo, ids, later);
      places := Shifted(later);
      if ids[0] in refunds && IsStuck(refunds[ids[0]].status) {
        FirstInOrder(Stuck(ids[0], refunds[ids[0]].status), todo, ids, places);
        places := [0] + places;
      } else {
        assert [] + todo == todo;
      }
    }
  }

  // ---- what the database may refuse ----

  /** A listed row that is gone, and a ref that another row carries, stop the walk with nothing written for the row,
      but for a status and a gateway entry already past. */
  lemma RefusedRows(db: Db, gw: GatewayState, k: Stuck, config: MockConfig)
    ensures k.id !in gw.store && k.id !in db.refunds ==> RecoverOne(db, gw, k, config) == (db, gw, None)
    ensures k.id in gw.store && k.id in db.refunds && db.refunds[k.id].gatewayRef == None
            && (exists other :: other in db.refunds && other != k.id
                  && db.refunds[other].gatewayRef == Some(gw.store[k.id].id)) ==>
      RecoverOne(db, gw, k, config) == (db, gw, None)
  {
  }

  // ---- what is written ----

  /** The audit row of a walked row: by name, whether the gateway already held its key. */
  function WalkedEntry(k: Stuck, held: bool): Transition {
    Transition(
      refundId := k.id, from := Some(k.status), to := Submitted,
      actor := if held then "job:recover" else "job:recover-resubmit", reason := None)
  }

  function WalkedEntries(todo: seq<Stuck>, store: map<Uuid, GatewayRefund>): seq<Transition> {
    seq(|todo|, i requires 0 <= i < |todo| => WalkedEntry(todo[i], todo[i].id in store))
  }

  lemma {:induction false} WalkLogs(w: World, todo: seq<Stuck>, report: RecoveryReport, configs: seq<MockConfig>)
    requires LedgerInv(w) && Fresh(w.db, todo)
    ensures RecoverAll(w.db, w.gw, todo, report, configs).0.log == w.db.log + WalkedEntries(todo, w.gw.store)
    decreases |todo|
  {
    if todo != [] {
      WalkStep(w, todo, report, configs);
      var m := RecoveredOne(w, todo[0], First(configs));
      var found := RecoverOne(w.db, w.gw, todo[0], First(configs)).2.value;
      WalkLogs(m, todo[1..], Counted(report, found), Rest(configs));
      FirstEntryThenRest(w, m, todo, First(configs), found);
    }
  }

  lemma FirstEntryThenRest(w: World, m: World, todo: seq<Stuck>, config: MockConfig, found: bool)
    requires todo != [] && OneEffect(w, m, todo[0], config, found)
    requires forall k :: k in todo[1..] ==> k.id != todo[0].id
    ensures m.db.log + WalkedEntries(todo[1..], m.gw.store) == w.db.log + WalkedEntries(todo, w.gw.store)
  {
    var first, rest := WalkedEntry(todo[0], found), WalkedEntries(todo[1..], m.gw.store);
    assert m.db.log == w.db.log + [first];
    forall i | 0 <= i < |todo|
      ensures ([first] + rest)[i] == WalkedEntries(todo, w.gw.store)[i]
    {
      if i > 0 {
        assert todo[1..][i - 1] == todo[i] && todo[i] in todo[1..];
      }
    }
    assert [first] + rest == WalkedEntries(todo, w.gw.store);
  }

  /** A recovery appends one audit row for each row it walks, in order, under the name of what it did: `job:recover`
      if the gateway already held the key, `job:recover-resubmit` if not. */
  lemma RecoveryLogs(w: World, configs: seq<MockConfig>)
    requires LedgerInv(w)
    ensures AfterRecovery(w, configs).db.log == w.db.log + WalkedEntries(SelectStuck(w.db), w.gw.store)
  {
    SelectStuckFresh(w.db);
    WalkLogs(w, SelectStuck(w.db), NO_REPORT, configs);
  }

  /** What it makes of each row: a walked row is `submitted` and, if it had no ref and the gateway's answer got
      through, takes the gateway's ref; every other row stays. The answer gets through if the gateway knew the key,
      or, for its turn in the walk, is neither dropping responses nor timing out. */
  lemma RecoveryRows(w: World, configs: seq<MockConfig>, i: nat)
    requires LedgerInv(w) && i < |SelectStuck(w.db)|
    ensures var x := AfterRecovery(w, configs); var id := SelectStuck(w.db)[i].id;
      var config := if i < |configs| then configs[i] else MockConfig(false, false);
      && id in w.db.refunds && id in x.db.refunds
      && (id in x.gw.store <==> id in w.gw.store || !config.timeOut)
      && var r := w.db.refunds[id];
      && x.db.refunds[id] == (
           if r.gatewayRef == None && id in x.gw.store
              && (id in w.gw.store || (!config.dropResponse && !config.timeOut))
           then r.(status := Submitted, gatewayRef := Some(x.gw.store[id].id))
           else r.(status := Submitted))
      && (id in x.gw.store ==> x.gw.store[id].amount == r.amountCents && x.gw.store[id].currency == r.currency)
  {
    var x, todo := AfterRecovery(w, configs), SelectStuck(w.db);
    SelectStuckFresh(w.db);
    RecoverAllEffect(w, todo, NO_REPORT, configs);
    var id := todo[i].id;
    assert Converged(w, x, id, ConfigAt(configs, i));
    assert RowOk(x, id, x.db.refunds[id]);
  }

  lemma RecoveryLeavesOthers(w: World, configs: seq<MockConfig>, id: Uuid)
    requires LedgerInv(w) && id in w.db.refunds
    requires w.db.refunds[id].status != Requested && w.db.refunds[id].status != Submitted
    ensures var x := AfterRecovery(w, configs); id in x.db.refunds && x.db.refunds[id] == w.db.refunds[id]
  {
    SelectStuckFresh(w.db);
    RecoverAllEffect(w, SelectStuck(w.db), NO_REPORT, configs);
    assert !Walks(SelectStuck(w.db), id);
  }

  /** Its report: how many rows it walked, and how many of them the gateway already held. */
  lemma RecoveryReports(w: World, configs: seq<MockConfig>)
    requires LedgerInv(w)
    ensures var todo := SelectStuck(w.db);
      Recover(w.db, w.gw, configs).2 == Some(RecoveryReport(
        alreadyAtGateway := Held(todo, w.gw.store), resubmitted := |todo| - Held(todo, w.gw.store), walked := |todo|))
  {
    var todo := SelectStuck(w.db);
    RecoveryAccounting(w, configs);
    HeldOrUnknown(todo, w.gw.store);
  }

  function Held(todo: seq<Stuck>, store: map<Uuid, GatewayRefund>): (n: nat)
    ensures n <= |todo|
  {
    if todo == [] then 0 else (if todo[0].id in store then 1 else 0) + Held(todo[1..], store)
  }

  lemma {:induction false} HeldOrUnknown(todo: seq<Stuck>, store: map<Uuid, GatewayRefund>)
    ensures Held(todo, store) + Unknown(todo, store) == |todo|
  {
    if todo != [] {
      HeldOrUnknown(todo[1..], store);
    }
  }
}
