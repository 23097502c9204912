/** The payment gateway: a write-once store keyed by idempotency key, which may drop its
    response or time out on any call. */
module Gateway {
  import opened Outcomes
  import opened Ledger
  import opened GatewayRef

  datatype GatewayRefund = GatewayRefund(id: string, amount: int, currency: string, idempotencyKey: Uuid)

  datatype GatewayOutcome = Accepted(refund: GatewayRefund) | Dropped | TimedOut

  datatype MockConfig = MockConfig(dropResponse: bool, timeOut: bool)

  const HEALTHY := MockConfig(false, false)

  /** What the gateway remembers: the refund issued for each key, the ref counter and the
      number of distinct refunds created. */
  datatype GatewayState = GatewayState(store: map<Uuid, GatewayRefund>, counter: nat, issued: nat)

  const EMPTY := GatewayState(map[], 0, 0)

  /** One atomic `create_refund` call. A known key is deduplicated before the timeout is
      considered, and even a deduplicated answer can be lost on its way back. */
  function Create(gw: GatewayState, amount: int, currency: string, key: Uuid, config: MockConfig)
    : (GatewayState, GatewayOutcome)
  {
    if key in gw.store then
      (gw, if config.dropResponse then Dropped else Accepted(gw.store[key]))
    else if config.timeOut then
      (gw, TimedOut)
    else
      var refund := GatewayRefund(FormatRef(gw.counter + 1), amount, currency, key);
      (GatewayState(gw.store[key := refund], gw.counter + 1, gw.issued + 1),
       if config.dropResponse then Dropped else Accepted(refund))
  }

  ghost predicate IssuedRef(id: string, counter: nat) {
    exists n: nat :: 1 <= n <= counter && id == FormatRef(n)
  }

  predicate FiledUnderOwnKey(store: map<Uuid, GatewayRefund>) {
    forall key :: key in store ==> store[key].idempotencyKey == key
  }

  ghost predicate AllIssued(store: map<Uuid, GatewayRefund>, counter: nat) {
    forall key :: key in store ==> IssuedRef(store[key].id, counter)
  }

  predicate IdsDistinct(store: map<Uuid, GatewayRefund>) {
    forall k, l :: k in store && l in store && k != l ==> store[k].id != store[l].id
  }

  /** Every counter agrees with the store, and every stored id is one of the refs printed so far,
      no two of them alike. */
  ghost predicate Consistent(gw: GatewayState) {
    && gw.issued == gw.counter == |gw.store|
    && FiledUnderOwnKey(gw.store)
    && AllIssued(gw.store, gw.counter)
    && IdsDistinct(gw.store)
  }

  /** Entries are write-once. */
  predicate StoreGrows(before: GatewayState, after: GatewayState) {
    forall key :: key in before.store ==> key in after.store && after.store[key] == before.store[key]
  }

  /** The next ref to be printed is not among those issued so far. */
  lemma NextRefIsFresh(id: string, counter: nat)
    requires IssuedRef(id, counter)
    ensures id != FormatRef(counter + 1)
    ensures IssuedRef(id, counter + 1)
  {
    var m: nat :| 1 <= m <= counter && id == FormatRef(m);
    if id == FormatRef(counter + 1) {
      FormatRefInjective(m, counter + 1);
    }
  }

  lemma NextRefIsFreshInStore(store: map<Uuid, GatewayRefund>, counter: nat)
    requires AllIssued(store, counter)
    ensures AllIssued(store, counter + 1)
    ensures forall key :: key in store ==> store[key].id != FormatRef(counter + 1)
  {
    forall key | key in store
      ensures IssuedRef(store[key].id, counter + 1) && store[key].id != FormatRef(counter + 1)
    {
      assert IssuedRef(store[key].id, counter);
      NextRefIsFresh(store[key].id, counter);
    }
  }

  lemma FileIssued(store: map<Uuid, GatewayRefund>, refund: GatewayRefund, counter: nat)
    requires AllIssued(store, counter) && IssuedRef(refund.id, counter)
    ensures AllIssued(store[refund.idempotencyKey := refund], counter)
  {
    var after := store[refund.idempotencyKey := refund];
    forall key | key in after
      ensures IssuedRef(after[key].id, counter)
    {
      if key == refund.idempotencyKey {
        assert after[key] == refund;
      } else {
        assert IssuedRef(store[key].id, counter);
      }
    }
  }

  lemma FileDistinct(store: map<Uuid, GatewayRefund>, refund: GatewayRefund)
    requires IdsDistinct(store) && refund.idempotencyKey !in store
    requires forall key :: key in store ==> store[key].id != refund.id
    ensures IdsDistinct(store[refund.idempotencyKey := refund])
    ensures |store[refund.idempotencyKey := refund]| == |store| + 1
  {
    assert store[refund.idempotencyKey := refund].Keys == store.Keys + {refund.idempotencyKey};
  }

  /** One call keeps the store consistent, overwrites nothing, and can add no other key. */
  lemma CreateIsConsistent(gw: GatewayState, amount: int, currency: string, key: Uuid, config: MockConfig)
    requires Consistent(gw)
    ensures var (after, outcome) := Create(gw, amount, currency, key, config);
      && Consistent(after)
      && StoreGrows(gw, after)
      && gw.store.Keys <= after.store.Keys <= gw.store.Keys + {key}
      && (outcome.Accepted? ==> key in after.store && outcome.refund == after.store[key])
      && (key !in after.store <==> outcome.TimedOut?)
      && (key !in gw.store && key in after.store ==>
            after.store[key].amount == amount && after.store[key].currency == currency)
  {
    if key !in gw.store && !config.timeOut {
      NextRefIsFreshInStore(gw.store, gw.counter);
      assert IssuedRef(FormatRef(gw.counter + 1), gw.counter + 1);
      var refund := GatewayRefund(FormatRef(gw.counter + 1), amount, currency, key);
      FileIssued(gw.store, refund, gw.counter + 1);
      FileDistinct(gw.store, refund);
    }
  }

  datatype Call = Call(amount: int, currency: string, key: Uuid, config: MockConfig)

  function CreateAll(gw: GatewayState, calls: seq<Call>): GatewayState
    decreases |calls|
  {
    if calls == [] then gw
    else
      var c := calls[0];
      CreateAll(Create(gw, c.amount, c.currency, c.key, c.config).0, calls[1..])
  }

  /** A key is landed by a list of calls when some call for it does not time out. */
  predicate Landed(calls: seq<Call>, key: Uuid) {
    exists i :: 0 <= i < |calls| && calls[i].key == key && !calls[i].config.timeOut
  }

  lemma LandedFirst(calls: seq<Call>, key: Uuid)
    requires calls != []
    ensures Landed(calls, key)
       <==> (key == calls[0].key && !calls[0].config.timeOut) || Landed(calls[1..], key)
  {
    if Landed(calls[1..], key) {
      var i :| 0 <= i < |calls[1..]| && calls[1..][i].key == key && !calls[1..][i].config.timeOut;
      assert calls[i + 1].key == key;
    }
    if Landed(calls, key) {
      var i :| 0 <= i < |calls| && calls[i].key == key && !calls[i].config.timeOut;
      assert i > 0 ==> calls[1..][i - 1].key == key;
    }
  }

  /** At most once, over any list of calls under any configurations: one refund per distinct key
      that was known before or landed, never overwritten, never two ids alike. */
  lemma {:induction false} AtMostOnce(gw: GatewayState, calls: seq<Call>)
    requires Consistent(gw)
    ensures var after := CreateAll(gw, calls);
      && Consistent(after)
      && StoreGrows(gw, after)
      && (forall key :: key in after.store <==> key in gw.store || Landed(calls, key))
    decreases |calls|
  {
    if calls != [] {
      var c := calls[0];
      var (mid, outcome) := Create(gw, c.amount, c.currency, c.key, c.config);
      CreateIsConsistent(gw, c.amount, c.currency, c.key, c.config);
      AtMostOnce(mid, calls[1..]);
      forall key
        ensures key in CreateAll(gw, calls).store <==> key in gw.store || Landed(calls, key)
      {
        LandedFirst(calls, key);
      }
    }
  }

  /** The in-memory gateway object, whose fields each call changes in place. */
  class MockGateway {
    var store: map<Uuid, GatewayRefund>
    var counter: nat
    var config: MockConfig
    var issued: nat

    ghost function State(): GatewayState
      reads this
    {
      GatewayState(store, counter, issued)
    }

    constructor ()
      ensures State() == EMPTY && config == HEALTHY
      ensures Consistent(State())
    {
      store, counter, config, issued := map[], 0, HEALTHY, 0;
    }

    constructor WithConfig(config: MockConfig)
      ensures State() == EMPTY && this.config == config
      ensures Consistent(State())
    {
      store, counter, issued := map[], 0, 0;
      this.config := config;
    }

    method SetConfig(config: MockConfig)
      modifies this`config
      ensures this.config == config
    {
      this.config := config;
    }

    /** Zero double refunds: the count is the number of distinct keys served. */
    method IssuedCount() returns (count: nat)
      requires Consistent(State())
      ensures count == |store.Keys|
    {
      count := issued;
    }

    method NextRef() returns (id: string)
      modifies this`counter
      ensures counter == old(counter) + 1 && id == FormatRef(counter)
    {
      counter := counter + 1;
      id := FormatRef(counter);
    }

    method CreateRefund(amount: int, currency: string, idempotencyKey: Uuid) returns (outcome: GatewayOutcome)
      modifies this`store, this`counter, this`issued
      ensures (State(), outcome) == Create(old(State()), amount, currency, idempotencyKey, config)
      ensures StoreGrows(old(State()), State())
      ensures Consistent(old(State())) ==> Consistent(State())
    {
      if Consistent(State()) {
        CreateIsConsistent(State(), amount, currency, idempotencyKey, config);
      }
      if idempotencyKey in store {
        var existing := store[idempotencyKey];
        return if config.dropResponse then Dropped else Accepted(existing);
      }
      if config.timeOut {
        return TimedOut;
      }
      var id := NextRef();
      var refund := GatewayRefund(id, amount, currency, idempotencyKey);
      store := store[idempotencyKey := refund];
      issued := issued + 1;
      outcome := if config.dropResponse then Dropped else Accepted(refund);
    }

    method LookupByKey(idempotencyKey: Uuid) returns (found: Option<GatewayRefund>)
      ensures found.Some? <==> idempotencyKey in store
      ensures found.Some? ==> found.value == store[idempotencyKey]
    {
      found := if idempotencyKey in store then Some(store[idempotencyKey]) else None;
    }
  }
}
