/** Recovery run as a whole: what it does to every row, what it counts, and that it converges. */
module Recovery {
  import opened Outcomes
  import opened Errors
  import opened Ledger
  import opened Gateway
  import opened Statements
  import opened Invariant
  import opened Protocol
  import opened ProtocolInvariant
  import opened Operations

  // ---- the stuck list ----

  predicate Walks(todo: seq<Stuck>, id: Uuid) {
    exists k :: k in todo && k.id == id
  }

  predicate DistinctIds(todo: seq<Stuck>) {
    forall i, j :: 0 <= i < j < |todo| ==> todo[i].id != todo[j].id
  }

  /** A list whose rows are still as it says, each once. */
  predicate Fresh(db: Db, todo: seq<Stuck>) {
    && DistinctIds(todo)
    && (forall k :: k in todo ==> k.id in db.refunds && db.refunds[k.id].status == k.status && IsStuck(k.status))
  }

  lemma {:induction false} SelectStuckExact(ids: seq<Uuid>, refunds: map<Uuid, Refund>, id: Uuid)
    ensures Walks(SelectStuckFrom(ids, refunds), id) <==> id in ids && id in refunds && IsStuck(refunds[id].status)
  {
    if ids != [] {
      SelectStuckExact(ids[1..], refunds, id);
      var rest := SelectStuckFrom(ids[1..], refunds);
      var whole := SelectStuckFrom(ids, refunds);
      if Walks(rest, id) {
        var k :| k in rest && k.id == id;
        assert k in whole;
      }
      if id == ids[0] && id in refunds && IsStuck(refunds[id].status) {
        assert Stuck(id, refunds[id].status) in whole;
      }
      if Walks(whole, id) {
        var k :| k in whole && k.id == id;
        assert k in rest || k.id == ids[0];
      }
    }
  }

  lemma {:induction false} SelectStuckDistinct(ids: seq<Uuid>, refunds: map<Uuid, Refund>)
    requires NoDuplicates(ids)
    ensures DistinctIds(SelectStuckFrom(ids, refunds))
  {
    if ids != [] {
      SelectStuckDistinct(ids[1..], refunds);
      var rest, whole := SelectStuckFrom(ids[1..], refunds), SelectStuckFrom(ids, refunds);
      assert ids[0] !in ids[1..];
      if |whole| > |rest| {
        assert whole[1..] == rest;
        forall j | 0 < j < |whole|
          ensures whole[j].id != ids[0]
        {
          assert whole[j] == rest[j - 1] && rest[j - 1] in rest;
        }
        forall i, j | 0 <= i < j < |whole|
          ensures whole[i].id != whole[j].id
        {
          assert i > 0 ==> whole[i] == rest[i - 1] && whole[j] == rest[j - 1];
        }
      }
    }
  }

  /** The walk covers exactly the rows stuck in `requested` or `submitted`, each once. */
  lemma SelectStuckFresh(db: Db)
    requires Enumerated(db)
    ensures Fresh(db, SelectStuck(db))
    ensures forall id :: Walks(SelectStuck(db), id) <==> id in db.refunds && IsStuck(db.refunds[id].status)
  {
    SelectStuckDistinct(db.created, db.refunds);
    forall id: Uuid
      ensures Walks(SelectStuck(db), id) <==> id in db.refunds && IsStuck(db.refunds[id].status)
    {
      SelectStuckExact(db.created, db.refunds, id);
    }
  }

  // ---- one row ----

  /** The row after recovery: `submitted`, with the gateway's ref if an answer reached us. */
  function RecoveredRow(r: Refund, id: Uuid, after: GatewayState, answered: bool): Refund {
    if r.gatewayRef.None? && answered && id in after.store
    then r.(status := Submitted, gatewayRef := Some(after.store[id].id))
    else r.(status := Submitted)
  }

  predicate Answered(gw: GatewayState, id: Uuid, config: MockConfig) {
    id in gw.store || config == HEALTHY
  }

  /** What recovering one row does, and all it does. */
  ghost predicate OneRecovered(w: World, x: World, k: Stuck, config: MockConfig, found: bool) {
    LedgerInv(x) && OneEffect(w, x, k, config, found)
  }

  predicate OneEffect(w: World, x: World, k: Stuck, config: MockConfig, found: bool) {
    && k.id in w.db.refunds
    && (found <==> k.id in w.gw.store)
    && x.db.refunds == w.db.refunds[k.id := RecoveredRow(w.db.refunds[k.id], k.id, x.gw, Answered(w.gw, k.id, config))]
    && x.db.created == w.db.created
    && x.db.charges == w.db.charges
    && x.db.events == w.db.events
    && x.approvals == w.approvals
    && StoreGrows(w.gw, x.gw)
    && x.gw.store.Keys == w.gw.store.Keys + (if found || config.timeOut then {} else {k.id})
    && x.gw.issued == w.gw.issued + (if found || config.timeOut then 0 else 1)
    && x.db.log == w.db.log + [RecoveredEntry(k, found)]
  }

  function WithRow(db: Db, id: Uuid, r: Refund): Db {
    db.(refunds := db.refunds[id := r])
  }

  lemma SubmittedAtGateway(w: World, id: Uuid)
    requires RowsOk(w) && id in w.gw.store && id in w.db.refunds
    ensures Rank(w.db.refunds[id].status) >= Rank(Submitted)
  {
    assert RowOk(w, id, w.db.refunds[id]);
  }

  lemma RecordedIsRecovered(db: Db, id: Uuid, gw: GatewayState)
    requires id in db.refunds && id in gw.store && db.refunds[id].status == Submitted
    ensures RefRecorded(db, id, gw.store[id].id) == WithRow(db, id, RecoveredRow(db.refunds[id], id, gw, true))
  {
    assert db.refunds[id := db.refunds[id]] == db.refunds;
  }

  lemma FoundRecords(w: World, id: Uuid)
    requires LedgerInv(w) && id in w.gw.store && id in w.db.refunds && IsStuck(w.db.refunds[id].status)
    ensures var recorded := WithRow(w.db, id, RecoveredRow(w.db.refunds[id], id, w.gw, true));
      && RecoverRef(w.db, id, w.gw.store[id].id) == Some(recorded)
      && LedgerInv(w.(db := recorded))
  {
    SubmittedAtGateway(w, id);
    RecoverRefIsRecordRef(w, id, w.gw.store[id].id);
    RecordSucceeds(w, id, w.gw.store[id].id);
    RecordKeeps(w, id, w.gw.store[id].id);
    RecordedIsRecovered(w.db, id, w.gw);
  }

  /** The tables with one row recovered and its audit row appended. */
  function WithRecovered(db: Db, k: Stuck, gw: GatewayState, answered: bool, found: bool): Db
    requires k.id in db.refunds
  {
    AppendLog(WithRow(db, k.id, RecoveredRow(db.refunds[k.id], k.id, gw, answered)), RecoveredEntry(k, found))
  }

  function RecoveredEntry(k: Stuck, found: bool): Transition {
    RecoverEntry(k, if found then "job:recover" else "job:recover-resubmit")
  }

  lemma RecoverFoundOne(w: World, k: Stuck, config: MockConfig)
    requires LedgerInv(w) && k.id in w.gw.store && k.id in w.db.refunds && IsStuck(k.status)
    requires w.db.refunds[k.id].status == k.status
    ensures RecoverOne(w.db, w.gw, k, config) == (WithRecovered(w.db, k, w.gw, true, true), w.gw, Some(true))
    ensures LedgerInv(w.(db := WithRecovered(w.db, k, w.gw, true, true), gw := w.gw))
  {
    FoundRecords(w, k.id);
    RecoveredAndLogged(w, k, w.gw, true, true);
  }

  /** The audit row of a recovered row keeps the ledger. */
  lemma RecoveredAndLogged(w: World, k: Stuck, gw: GatewayState, answered: bool, found: bool)
    requires k.id in w.db.refunds && IsStuck(k.status)
    requires LedgerInv(w.(db := WithRow(w.db, k.id, RecoveredRow(w.db.refunds[k.id], k.id, gw, answered)), gw := gw))
    ensures LedgerInv(w.(db := WithRecovered(w.db, k, gw, answered, found), gw := gw))
  {
    var recorded := WithRow(w.db, k.id, RecoveredRow(w.db.refunds[k.id], k.id, gw, answered));
    LogEntryKeepsInv(w.(db := recorded, gw := gw), RecoveredEntry(k, found));
  }

  lemma MarkedCalled(w: World, id: Uuid, config: MockConfig)
    requires LedgerInv(w) && id in w.db.refunds && IsStuck(w.db.refunds[id].status)
    ensures var r := w.db.refunds[id];
      && MarkSubmitted(w.db, id) == WithRow(w.db, id, r.(status := Submitted))
      && LedgerInv(CallGateway(w.(db := MarkSubmitted(w.db, id)), r.amountCents, r.currency, id, config))
  {
    var r := w.db.refunds[id];
    MarkKeeps(w, id);
    CreateKeeps(w.(db := MarkSubmitted(w.db, id)), id, r.amountCents, r.currency, config);
  }

  lemma CreateNew(gw: GatewayState, amount: int, currency: string, id: Uuid, config: MockConfig)
    requires id !in gw.store
    ensures var (after, outcome) := Create(gw, amount, currency, id, config);
      && (outcome.Accepted? <==> config == HEALTHY)
      && (outcome.Accepted? ==> id in after.store && outcome.refund == after.store[id])
      && after.store.Keys == gw.store.Keys + (if config.timeOut then {} else {id})
      && after.issued == gw.issued + (if config.timeOut then 0 else 1)
      && StoreGrows(gw, after)
  {
  }

  lemma RecordCalled(w: World, id: Uuid)
    requires LedgerInv(w) && id in w.gw.store && id in w.db.refunds && w.db.refunds[id].status == Submitted
    ensures var recorded := WithRow(w.db, id, RecoveredRow(w.db.refunds[id], id, w.gw, true));
      && RecordRef(w.db, id, w.gw.store[id].id) == Some(recorded)
      && LedgerInv(w.(db := recorded))
  {
    RecordSucceeds(w, id, w.gw.store[id].id);
    RecordKeeps(w, id, w.gw.store[id].id);
    RecordedIsRecovered(w.db, id, w.gw);
  }

  lemma TwiceWritten(db: Db, id: Uuid, r: Refund, s: Refund)
    requires id in db.refunds
    ensures WithRow(WithRow(db, id, r), id, s) == WithRow(db, id, s)
  {
    assert db.refunds[id := r][id := s] == db.refunds[id := s];
  }

  /** The row marked, the gateway called, and its answer recorded. */
  lemma ResubmitAnswered(w: World, id: Uuid)
    requires LedgerInv(w) && id !in w.gw.store && id in w.db.refunds && IsStuck(w.db.refunds[id].status)
    ensures var r := w.db.refunds[id];
      var (gw, outcome) := Create(w.gw, r.amountCents, r.currency, id, HEALTHY);
      var recorded := WithRow(w.db, id, RecoveredRow(r, id, gw, true));
      && outcome.Accepted?
      && RecordRef(MarkSubmitted(w.db, id), id, outcome.refund.id) == Some(recorded)
      && LedgerInv(w.(db := recorded, gw := gw))
  {
    var r := w.db.refunds[id];
    var marked := r.(status := Submitted);
    CreateNew(w.gw, r.amountCents, r.currency, id, HEALTHY);
    MarkedCalled(w, id, HEALTHY);
    var called := CallGateway(w.(db := WithRow(w.db, id, marked)), r.amountCents, r.currency, id, HEALTHY);
    RecordCalled(called, id);
    assert RecoveredRow(marked, id, called.gw, true) == RecoveredRow(r, id, called.gw, true);
    TwiceWritten(w.db, id, marked, RecoveredRow(r, id, called.gw, true));
  }

  /** The row marked and the gateway called, with no answer. */
  lemma ResubmitUnanswered(w: World, id: Uuid, config: MockConfig)
    requires LedgerInv(w) && id !in w.gw.store && id in w.db.refunds && IsStuck(w.db.refunds[id].status)
    requires config != HEALTHY
    ensures var r := w.db.refunds[id];
      var (gw, outcome) := Create(w.gw, r.amountCents, r.currency, id, config);
      var marked := WithRow(w.db, id, RecoveredRow(r, id, gw, false));
      && !outcome.Accepted?
      && MarkSubmitted(w.db, id) == marked
      && LedgerInv(w.(db := marked, gw := gw))
  {
    CreateNew(w.gw, w.db.refunds[id].amountCents, w.db.refunds[id].currency, id, config);
    MarkedCalled(w, id, config);
  }

  lemma RecoverMissingOne(w: World, k: Stuck, config: MockConfig)
    requires LedgerInv(w) && k.id !in w.gw.store && k.id in w.db.refunds && IsStuck(k.status)
    requires w.db.refunds[k.id].status == k.status
    ensures var r := w.db.refunds[k.id];
      var gw := Create(w.gw, r.amountCents, r.currency, k.id, config).0;
      var after := WithRecovered(w.db, k, gw, config == HEALTHY, false);
      RecoverOne(w.db, w.gw, k, config) == (after, gw, Some(false)) && LedgerInv(w.(db := after, gw := gw))
  {
    var r := w.db.refunds[k.id];
    if config == HEALTHY {
      ResubmitAnswered(w, k.id);
    } else {
      ResubmitUnanswered(w, k.id, config);
    }
    RecoveredAndLogged(w, k, Create(w.gw, r.amountCents, r.currency, k.id, config).0, config == HEALTHY, false);
  }

  lemma EffectOf(w: World, k: Stuck, config: MockConfig, gw: GatewayState, found: bool)
    requires k.id in w.db.refunds && (found <==> k.id in w.gw.store) && StoreGrows(w.gw, gw)
    requires gw.store.Keys == w.gw.store.Keys + (if found || config.timeOut then {} else {k.id})
    requires gw.issued == w.gw.issued + (if found || config.timeOut then 0 else 1)
    requires LedgerInv(w.(db := WithRecovered(w.db, k, gw, Answered(w.gw, k.id, config), found), gw := gw))
    ensures OneRecovered(
      w, w.(db := WithRecovered(w.db, k, gw, Answered(w.gw, k.id, config), found), gw := gw), k, config, found)
  {
  }

  lemma MissingEffect(w: World, k: Stuck, config: MockConfig)
    requires k.id in w.db.refunds && k.id !in w.gw.store
    requires var r := w.db.refunds[k.id];
      var gw := Create(w.gw, r.amountCents, r.currency, k.id, config).0;
      LedgerInv(w.(db := WithRecovered(w.db, k, gw, config == HEALTHY, false), gw := gw))
    ensures var r := w.db.refunds[k.id];
      var gw := Create(w.gw, r.amountCents, r.currency, k.id, config).0;
      OneRecovered(w, w.(db := WithRecovered(w.db, k, gw, config == HEALTHY, false), gw := gw), k, config, false)
  {
    var r := w.db.refunds[k.id];
    CreateNew(w.gw, r.amountCents, r.currency, k.id, config);
    EffectOf(w, k, config, Create(w.gw, r.amountCents, r.currency, k.id, config).0, false);
  }

  lemma RecoverOneEffect(w: World, k: Stuck, config: MockConfig)
    requires LedgerInv(w) && k.id in w.db.refunds && IsStuck(k.status) && w.db.refunds[k.id].status == k.status
    ensures RecoverOne(w.db, w.gw, k, config).2.Some?
    ensures var (db, gw, done) := RecoverOne(w.db, w.gw, k, config); var found := done.value;
      OneRecovered(w, w.(db := db, gw := gw), k, config, found)
  {
    if k.id in w.gw.store {
      RecoverFoundOne(w, k, config);
      EffectOf(w, k, config, w.gw, true);
    } else {
      RecoverMissingOne(w, k, config);
      MissingEffect(w, k, config);
    }
  }

  // ---- the whole walk ----

  /** A walked row: `submitted`, known to the gateway unless its call timed out, and carrying the
      gateway's ref if the gateway knew it before or answered now. */
  predicate Converged(w: World, x: World, id: Uuid, config: MockConfig) {
    && id in w.db.refunds && id in x.db.refunds
    && (id in x.gw.store <==> id in w.gw.store || !config.timeOut)
    && x.db.refunds[id] == RecoveredRow(w.db.refunds[id], id, x.gw, Answered(w.gw, id, config))
  }

  ghost predicate RowsConverged(w: World, x: World, todo: seq<Stuck>, configs: seq<MockConfig>) {
    forall i :: 0 <= i < |todo| ==> Converged(w, x, todo[i].id, ConfigAt(configs, i))
  }

  ghost predicate OthersUntouched(w: World, x: World, todo: seq<Stuck>) {
    forall id: Uuid :: !Walks(todo, id) ==>
      && (id in w.db.refunds ==> id in x.db.refunds && x.db.refunds[id] == w.db.refunds[id])
      && (id in x.gw.store <==> id in w.gw.store)
  }

  predicate SameTables(w: World, x: World) {
    && x.db.refunds.Keys == w.db.refunds.Keys
    && x.db.created == w.db.created
    && x.db.charges == w.db.charges
    && x.approvals == w.approvals
    && StoreGrows(w.gw, x.gw)
  }

  ghost predicate AllRecovered(w: World, x: World, todo: seq<Stuck>, configs: seq<MockConfig>) {
    && LedgerInv(x)
    && SameTables(w, x)
    && RowsConverged(w, x, todo, configs)
    && OthersUntouched(w, x, todo)
  }

  /** How many of the rows the gateway does not know. */
  function Unknown(todo: seq<Stuck>, store: map<Uuid, GatewayRefund>): nat {
    if todo == [] then 0 else (if todo[0].id in store then 0 else 1) + Unknown(todo[1..], store)
  }

  lemma {:induction false} UnknownAgrees(
    todo: seq<Stuck>, before: map<Uuid, GatewayRefund>, after: map<Uuid, GatewayRefund>)
    requires forall k :: k in todo ==> (k.id in before <==> k.id in after)
    ensures Unknown(todo, before) == Unknown(todo, after)
  {
    if todo != [] {
      assert todo[0] in todo;
      UnknownAgrees(todo[1..], before, after);
    }
  }

  lemma WalksFirst(todo: seq<Stuck>, id: Uuid)
    requires todo != []
    ensures Walks(todo, id) <==> todo[0].id == id || Walks(todo[1..], id)
  {
    if Walks(todo[1..], id) {
      var k :| k in todo[1..] && k.id == id;
      assert k in todo;
    }
    if todo[0].id == id {
      assert todo[0] in todo;
    }
    if Walks(todo, id) {
      var k :| k in todo && k.id == id;
      assert k == todo[0] || k in todo[1..];
    }
  }

  lemma FirstNotInRest(todo: seq<Stuck>)
    requires todo != [] && DistinctIds(todo)
    ensures !Walks(todo[1..], todo[0].id)
  {
    forall k | k in todo[1..]
      ensures k.id != todo[0].id
    {
      var j :| 0 <= j < |todo[1..]| && todo[1..][j] == k;
      assert todo[j + 1] == k;
    }
  }

  /** Recovering the first row leaves the rest of the list fresh. */
  lemma FreshRest(w: World, m: World, todo: seq<Stuck>, config: MockConfig, found: bool)
    requires todo != [] && Fresh(w.db, todo) && OneEffect(w, m, todo[0], config, found)
    ensures Fresh(m.db, todo[1..])
    ensures forall k :: k in todo[1..] ==> k.id != todo[0].id
  {
    FirstNotInRest(todo);
    forall k | k in todo[1..]
      ensures k.id in m.db.refunds && m.db.refunds[k.id].status == k.status && IsStuck(k.status) && k.id != todo[0].id
    {
      assert k in todo;
      assert Walks(todo[1..], k.id);
    }
    forall i, j | 0 <= i < j < |todo[1..]|
      ensures todo[1..][i].id != todo[1..][j].id
    {
      assert todo[i + 1].id != todo[j + 1].id;
    }
  }

  lemma ComposeRows(w: World, m: World, x: World, todo: seq<Stuck>, configs: seq<MockConfig>, found: bool)
    requires todo != [] && DistinctIds(todo)
    requires OneEffect(w, m, todo[0], First(configs), found)
    requires RowsConverged(m, x, todo[1..], Rest(configs)) && OthersUntouched(m, x, todo[1..])
    requires StoreGrows(m.gw, x.gw)
    ensures RowsConverged(w, x, todo, configs)
  {
    FirstNotInRest(todo);
    forall i | 0 <= i < |todo|
      ensures Converged(w, x, todo[i].id, ConfigAt(configs, i))
    {
      if i > 0 {
        assert todo[1..][i - 1] == todo[i] && ConfigAt(Rest(configs), i - 1) == ConfigAt(configs, i);
        assert Converged(m, x, todo[1..][i - 1].id, ConfigAt(Rest(configs), i - 1));
        assert todo[i].id != todo[0].id;
      }
    }
  }

  lemma ComposeOthers(w: World, m: World, x: World, todo: seq<Stuck>, config: MockConfig, found: bool)
    requires todo != [] && OneEffect(w, m, todo[0], config, found) && OthersUntouched(m, x, todo[1..])
    ensures OthersUntouched(w, x, todo)
  {
    forall id: Uuid | !Walks(todo, id)
      ensures id in w.db.refunds ==> id in x.db.refunds && x.db.refunds[id] == w.db.refunds[id]
      ensures id in x.gw.store <==> id in w.gw.store
    {
      WalksFirst(todo, id);
    }
  }

  predicate NoTimeouts(configs: seq<MockConfig>) {
    forall i :: 0 <= i < |configs| ==> !configs[i].timeOut
  }

  lemma NothingRecovered(w: World, configs: seq<MockConfig>)
    requires LedgerInv(w)
    ensures AllRecovered(w, w, [], configs)
  {
  }

  lemma ComposeTables(w: World, m: World, x: World, k: Stuck, config: MockConfig, found: bool)
    requires OneEffect(w, m, k, config, found) && SameTables(m, x)
    ensures SameTables(w, x)
  {
  }

  /** What one row and then the rest of the walk do is what the whole walk does. */
  lemma Compose(w: World, m: World, x: World, todo: seq<Stuck>, configs: seq<MockConfig>, found: bool)
    requires todo != [] && DistinctIds(todo)
    requires OneRecovered(w, m, todo[0], First(configs), found)
    requires AllRecovered(m, x, todo[1..], Rest(configs))
    ensures AllRecovered(w, x, todo, configs)
  {
    ComposeTables(w, m, x, todo[0], First(configs), found);
    ComposeRows(w, m, x, todo, configs, found);
    ComposeOthers(w, m, x, todo, First(configs), found);
  }

  /** The world after recovering a list of stuck rows. */
  function Recovered(w: World, todo: seq<Stuck>, report: RecoveryReport, configs: seq<MockConfig>): World {
    var (db, gw, _) := RecoverAll(w.db, w.gw, todo, report, configs);
    w.(db := db, gw := gw)
  }

  function RecoveredOne(w: World, k: Stuck, config: MockConfig): World
    requires RecoverOne(w.db, w.gw, k, config).2.Some?
  {
    var (db, gw, _) := RecoverOne(w.db, w.gw, k, config);
    w.(db := db, gw := gw)
  }

  /** The first row recovered: the walk goes on from the world it leaves, with a list still fresh. */
  lemma WalkStep(w: World, todo: seq<Stuck>, report: RecoveryReport, configs: seq<MockConfig>)
    requires todo != [] && LedgerInv(w) && Fresh(w.db, todo)
    ensures RecoverOne(w.db, w.gw, todo[0], First(configs)).2.Some?
    ensures var found := RecoverOne(w.db, w.gw, todo[0], First(configs)).2.value;
      var m := RecoveredOne(w, todo[0], First(configs));
      && OneRecovered(w, m, todo[0], First(configs), found)
      && Fresh(m.db, todo[1..])
      && (forall k :: k in todo[1..] ==> k.id != todo[0].id)
      && RecoverAll(w.db, w.gw, todo, report, configs)
         == RecoverAll(m.db, m.gw, todo[1..], Counted(report, found), Rest(configs))
  {
    assert todo[0] in todo;
    RecoverOneEffect(w, todo[0], First(configs));
    var found := RecoverOne(w.db, w.gw, todo[0], First(configs)).2.value;
    FreshRest(w, RecoveredOne(w, todo[0], First(configs)), todo, First(configs), found);
  }

  lemma {:induction false} RecoverAllEffect(
    w: World, todo: seq<Stuck>, report: RecoveryReport, configs: seq<MockConfig>)
    requires LedgerInv(w) && Fresh(w.db, todo)
    ensures RecoverAll(w.db, w.gw, todo, report, configs).2.Some?
    ensures AllRecovered(w, Recovered(w, todo, report, configs), todo, configs)
    decreases |todo|
  {
    if todo == [] {
      NothingRecovered(w, configs);
    } else {
      WalkStep(w, todo, report, configs);
      var m := RecoveredOne(w, todo[0], First(configs));
      var found := RecoverOne(w.db, w.gw, todo[0], First(configs)).2.value;
      RecoverAllEffect(m, todo[1..], Counted(report, found), Rest(configs));
      Compose(w, m, Recovered(m, todo[1..], Counted(report, found), Rest(configs)), todo, configs, found);
    }
  }

  predicate CountsRight(report: RecoveryReport, done: RecoveryReport, walked: nat, unknown: nat) {
    && done.walked == report.walked + walked
    && done.resubmitted == report.resubmitted + unknown
    && done.alreadyAtGateway + unknown == report.alreadyAtGateway + walked
  }

  lemma {:induction false} RecoverAllCounts(
    w: World, todo: seq<Stuck>, report: RecoveryReport, configs: seq<MockConfig>)
    requires LedgerInv(w) && Fresh(w.db, todo)
    ensures var (db, gw, done) := RecoverAll(w.db, w.gw, todo, report, configs);
      && done.Some?
      && CountsRight(report, done.value, |todo|, Unknown(todo, w.gw.store))
      && (NoTimeouts(configs) ==> gw.issued == w.gw.issued + Unknown(todo, w.gw.store))
    decreases |todo|
  {
    if todo != [] {
      WalkStep(w, todo, report, configs);
      var m := RecoveredOne(w, todo[0], First(configs));
      var found := RecoverOne(w.db, w.gw, todo[0], First(configs)).2.value;
      RecoverAllCounts(m, todo[1..], Counted(report, found), Rest(configs));
      CountsStep(w, m, todo, First(configs), found);
      if NoTimeouts(configs) {
        TimeoutsStep(configs);
      }
    }
  }

  /** Recovering the first row settles its share of the counts. */
  lemma CountsStep(w: World, m: World, todo: seq<Stuck>, config: MockConfig, found: bool)
    requires todo != [] && OneEffect(w, m, todo[0], config, found)
    requires forall k :: k in todo[1..] ==> k.id != todo[0].id
    ensures Unknown(todo, w.gw.store) == (if found then 0 else 1) + Unknown(todo[1..], m.gw.store)
    ensures !config.timeOut ==> m.gw.issued == w.gw.issued + if found then 0 else 1
  {
    UnknownAgrees(todo[1..], w.gw.store, m.gw.store);
  }

  lemma TimeoutsStep(configs: seq<MockConfig>)
    requires NoTimeouts(configs)
    ensures !First(configs).timeOut && NoTimeouts(Rest(configs))
  {
  }

  // ---- main results ----

  function AfterRecovery(w: World, configs: seq<MockConfig>): World {
    Recovered(w, SelectStuck(w.db), NO_REPORT, configs)
  }

  predicate IsStuckRow(db: Db, id: Uuid) {
    id in db.refunds && IsStuck(db.refunds[id].status)
  }

  /** A row that waits for its settle webhook with the gateway's own ref recorded. */
  predicate Linked(x: World, id: Uuid) {
    && id in x.db.refunds && id in x.gw.store
    && x.db.refunds[id].status == Submitted
    && x.db.refunds[id].gatewayRef == Some(x.gw.store[id].id)
  }

  /** The accounting of one recovery under any gateway behaviour: every stuck row is walked and counted
      once; the resubmitted ones are exactly those the gateway did not know; and with no timeouts the
      gateway issues exactly that many refunds. */
  lemma RecoveryAccounting(w: World, configs: seq<MockConfig>)
    requires LedgerInv(w)
    ensures var (_, gw, done) := Recover(w.db, w.gw, configs);
      && done.Some?
      && done.value.walked == |SelectStuck(w.db)| == done.value.alreadyAtGateway + done.value.resubmitted
      && done.value.resubmitted == Unknown(SelectStuck(w.db), w.gw.store)
      && (NoTimeouts(configs) ==> gw.issued == w.gw.issued + done.value.resubmitted)
  {
    SelectStuckFresh(w.db);
    RecoverAllCounts(w, SelectStuck(w.db), NO_REPORT, configs);
  }

  lemma ConvergedRow(w: World, x: World, todo: seq<Stuck>, configs: seq<MockConfig>, id: Uuid) returns (i: nat)
    requires RowsConverged(w, x, todo, configs) && Walks(todo, id)
    ensures i < |todo| && todo[i].id == id && Converged(w, x, id, ConfigAt(configs, i))
  {
    var k :| k in todo && k.id == id;
    i :| i < |todo| && todo[i] == k;
  }

  /** Recovery against a healthy gateway: every stuck row ends `submitted` with the gateway's own ref,
      the gateway gains exactly the stuck keys, and no other row changes. */
  lemma HealthyRecoveryConverges(w: World)
    requires LedgerInv(w)
    ensures var x := AfterRecovery(w, []);
      && LedgerInv(x)
      && x.db.refunds.Keys == w.db.refunds.Keys
      && StoreGrows(w.gw, x.gw)
      && (forall id :: IsStuckRow(w.db, id) ==> Linked(x, id))
      && (forall id :: id in w.db.refunds && !IsStuckRow(w.db, id) ==> x.db.refunds[id] == w.db.refunds[id])
      && (forall id :: id in x.gw.store <==> id in w.gw.store || IsStuckRow(w.db, id))
  {
    var x := AfterRecovery(w, []);
    SelectStuckFresh(w.db);
    RecoverAllEffect(w, SelectStuck(w.db), NO_REPORT, []);
    forall id: Uuid
      ensures id in x.gw.store <==> id in w.gw.store || IsStuckRow(w.db, id)
    {
      if IsStuckRow(w.db, id) {
        HealthyRow(w, x, id);
      }
    }
    forall id | IsStuckRow(w.db, id)
      ensures Linked(x, id)
    {
      HealthyRow(w, x, id);
    }
  }

  lemma HealthyRow(w: World, x: World, id: Uuid)
    requires LedgerInv(x) && RowsConverged(w, x, SelectStuck(w.db), [])
    requires Walks(SelectStuck(w.db), id)
    ensures Linked(x, id)
  {
    var _ := ConvergedRow(w, x, SelectStuck(w.db), [], id);
    assert RowOk(x, id, x.db.refunds[id]);
  }

  /** Recovery never changes what a row is worth. */
  lemma RecoveryKeepsMoney(w: World, configs: seq<MockConfig>, id: Uuid)
    requires LedgerInv(w) && id in w.db.refunds
    ensures SameMoney(AfterRecovery(w, configs), id, w.db.refunds[id].amountCents, w.db.refunds[id].currency)
  {
    var x, todo := AfterRecovery(w, configs), SelectStuck(w.db);
    SelectStuckFresh(w.db);
    RecoverAllEffect(w, todo, NO_REPORT, configs);
    if Walks(todo, id) {
      var i := ConvergedRow(w, x, todo, configs, id);
    }
  }

  /** After one recovery without timeouts, even one that lost every response, each row that was stuck
      is `submitted` and known to the gateway. */
  lemma TimeoutFreeRecoveryLands(w: World, configs: seq<MockConfig>)
    requires LedgerInv(w) && NoTimeouts(configs)
    ensures var m := AfterRecovery(w, configs);
      && LedgerInv(m)
      && (forall id :: IsStuckRow(m.db, id) <==> IsStuckRow(w.db, id))
      && (forall id :: IsStuckRow(m.db, id) ==> id in m.gw.store)
  {
    var m, todo := AfterRecovery(w, configs), SelectStuck(w.db);
    SelectStuckFresh(w.db);
    RecoverAllEffect(w, todo, NO_REPORT, configs);
    forall id: Uuid
      ensures IsStuckRow(m.db, id) <==> IsStuckRow(w.db, id)
      ensures IsStuckRow(m.db, id) ==> id in m.gw.store
    {
      if IsStuckRow(w.db, id) {
        var i := ConvergedRow(w, m, todo, configs, id);
      } else {
        assert !Walks(todo, id);
      }
    }
  }

  lemma {:induction false} NoneUnknown(todo: seq<Stuck>, store: map<Uuid, GatewayRefund>)
    requires forall k :: k in todo ==> k.id in store
    ensures Unknown(todo, store) == 0
  {
    if todo != [] {
      assert todo[0] in todo;
      NoneUnknown(todo[1..], store);
    }
  }

  lemma KnownRow(m: World, x: World, configs: seq<MockConfig>, id: Uuid)
    requires LedgerInv(x) && RowsConverged(m, x, SelectStuck(m.db), configs)
    requires Walks(SelectStuck(m.db), id) && id in m.gw.store
    ensures Linked(x, id)
  {
    var i := ConvergedRow(m, x, SelectStuck(m.db), configs, id);
    assert RowOk(x, id, x.db.refunds[id]);
  }

  lemma KnownKeys(m: World, x: World, configs: seq<MockConfig>, id: Uuid)
    requires RowsConverged(m, x, SelectStuck(m.db), configs) && OthersUntouched(m, x, SelectStuck(m.db))
    requires Walks(SelectStuck(m.db), id) ==> id in m.gw.store
    ensures id in x.gw.store <==> id in m.gw.store
  {
    if Walks(SelectStuck(m.db), id) {
      var i := ConvergedRow(m, x, SelectStuck(m.db), configs, id);
    }
  }

  lemma RecoveryResubmitsNothing(m: World, configs: seq<MockConfig>)
    requires LedgerInv(m) && (forall id :: IsStuckRow(m.db, id) ==> id in m.gw.store)
    ensures Recover(m.db, m.gw, configs).2.Some?
    ensures Recover(m.db, m.gw, configs).2.value.resubmitted == 0
  {
    var todo := SelectStuck(m.db);
    SelectStuckFresh(m.db);
    RecoveryAccounting(m, configs);
    forall k | k in todo
      ensures k.id in m.gw.store
    {
      assert Walks(todo, k.id);
    }
    NoneUnknown(todo, m.gw.store);
  }

  /** If every stuck row is known to the gateway, recovery under any gateway behaviour at all (drops,
      timeouts) creates nothing and gives every stuck row its ref. */
  lemma RecoveryOfKnownRows(m: World, configs: seq<MockConfig>)
    requires LedgerInv(m) && (forall id :: IsStuckRow(m.db, id) ==> id in m.gw.store)
    ensures var x := AfterRecovery(m, configs);
      && (forall id :: id in x.gw.store <==> id in m.gw.store)
      && (forall id :: IsStuckRow(m.db, id) ==> Linked(x, id))
  {
    var x := AfterRecovery(m, configs);
    SelectStuckFresh(m.db);
    RecoverAllEffect(m, SelectStuck(m.db), NO_REPORT, configs);
    forall id: Uuid
      ensures id in x.gw.store <==> id in m.gw.store
    {
      KnownKeys(m, x, configs, id);
    }
    forall id: Uuid | IsStuckRow(m.db, id)
      ensures Linked(x, id)
    {
      KnownRow(m, x, configs, id);
    }
  }

  /** Two recoveries converge: the first may lose every response but must not time out, the second may
      do anything. The second resubmits nothing, and every row stuck at first ends with its ref. */
  lemma SecondRecoveryConverges(w: World, first: seq<MockConfig>, second: seq<MockConfig>)
    requires LedgerInv(w) && NoTimeouts(first)
    ensures var m := AfterRecovery(w, first); var x := AfterRecovery(m, second);
      && Recover(m.db, m.gw, second).2.Some?
      && Recover(m.db, m.gw, second).2.value.resubmitted == 0
      && (forall id :: id in x.gw.store <==> id in m.gw.store)
      && (forall id :: IsStuckRow(w.db, id) ==> Linked(x, id))
  {
    TimeoutFreeRecoveryLands(w, first);
    RecoveryResubmitsNothing(AfterRecovery(w, first), second);
    RecoveryOfKnownRows(AfterRecovery(w, first), second);
  }
}
