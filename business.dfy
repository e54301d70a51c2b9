/** The business operations on an in-memory store: each method changes the
    store's tables step by step, as the session does, and is proved to leave
    them exactly as the matching reference definition in `Ledger` says. */
module Business {
  import opened Schema
  import opened Ledger

  /** `UPDATE subscription SET total_amount = total_amount + amount WHERE id = id`. */
  function Credit(subscriptions: seq<Subscription>, id: Id, amount: real): seq<Subscription> {
    seq(|subscriptions|, j requires 0 <= j < |subscriptions| =>
      if subscriptions[j].id == id
      then subscriptions[j].(totalAmount := subscriptions[j].totalAmount + amount)
      else subscriptions[j])
  }

  /** Progress of the fan-out loop: the rows whose key is in `charged` carry one
      charge, and only bound rows are among them; every other row is untouched. */
  predicate ChargedSoFar(
    initial: seq<Subscription>, current: seq<Subscription>, charged: set<Id>, topicIds: seq<Id>)
  {
    |current| == |initial| &&
    (forall j :: 0 <= j < |current| ==>
      current[j] == if initial[j].id in charged then Charge(initial[j], topicIds) else initial[j]) &&
    forall j :: 0 <= j < |initial| && initial[j].id in charged ==> initial[j].topicId in topicIds
  }

  /** The first `i` selected keys have been credited and the rest have not. */
  predicate CreditedUpTo(selected: seq<Subscription>, i: nat, charged: set<Id>)
    requires i <= |selected|
  {
    (forall k :: 0 <= k < i ==> selected[k].id in charged) &&
    forall k :: i <= k < |selected| ==> selected[k].id !in charged
  }

  lemma CreditedUpToStep(selected: seq<Subscription>, i: nat, charged: set<Id>)
    requires AscendingIds(selected) && i < |selected| && CreditedUpTo(selected, i, charged)
    ensures selected[i].id !in charged
    ensures CreditedUpTo(selected, i + 1, charged + {selected[i].id})
  {
  }

  /** One pass of the fan-out loop: crediting the next selected subscription,
      found by key, charges exactly that row and no other. */
  lemma CreditStep(
    before: seq<Subscription>, current: seq<Subscription>, charged: set<Id>, topicIds: seq<Id>, s: Subscription)
    requires AscendingIds(before) && s in before && s.topicId in topicIds && s.id !in charged
    requires ChargedSoFar(before, current, charged, topicIds)
    ensures ChargedSoFar(before, Credit(current, s.id, s.singleMetricPricing), charged + {s.id}, topicIds)
  {
    forall j | 0 <= j < |before| && before[j].id == s.id ensures before[j] == s {
      SameIdSameRow(before, j, s);
    }
  }

  /** When every selected key has been credited, each row is charged exactly
      when its topic is bound. */
  lemma CreditedAll(
    before: seq<Subscription>, current: seq<Subscription>, charged: set<Id>, topicIds: seq<Id>)
    requires ChargedSoFar(before, current, charged, topicIds)
    requires CreditedUpTo(Selected(before, topicIds), |Selected(before, topicIds)|, charged)
    ensures current == ChargeAll(before, topicIds)
  {
    var selected := Selected(before, topicIds);
    forall j | 0 <= j < |current| ensures current[j] == Charge(before[j], topicIds) {
      if before[j].topicId in topicIds {
        assert before[j] in selected;
        var k :| 0 <= k < |selected| && selected[k] == before[j];
      }
    }
  }

  lemma EntriesSnoc(selected: seq<Subscription>, i: nat, metricId: Id, at: Timestamp, first: Id)
    requires i < |selected|
    ensures Entries(selected[..i + 1], metricId, at, first) ==
      Entries(selected[..i], metricId, at, first) +
      [Transaction(first + i, selected[i].id, metricId, selected[i].singleMetricPricing, at)]
  {
  }

  /** Everything the fan-out loop has done after crediting `i` of the selected
      subscriptions: `current` is the subscription table and `added` the
      transactions appended so far. */
  predicate FanOutProgress(
    initial: seq<Subscription>, topicIds: seq<Id>, selected: seq<Subscription>, i: nat, charged: set<Id>,
    current: seq<Subscription>, added: seq<Transaction>, metricId: Id, at: Timestamp, first: Id)
  {
    i <= |selected| &&
    CreditedUpTo(selected, i, charged) &&
    ChargedSoFar(initial, current, charged, topicIds) &&
    added == Entries(selected[..i], metricId, at, first)
  }

  lemma FanOutStep(
    initial: seq<Subscription>, topicIds: seq<Id>, selected: seq<Subscription>, i: nat, charged: set<Id>,
    current: seq<Subscription>, added: seq<Transaction>, metricId: Id, at: Timestamp, first: Id,
    entry: Transaction)
    requires AscendingIds(initial) && selected == Selected(initial, topicIds) && i < |selected|
    requires FanOutProgress(initial, topicIds, selected, i, charged, current, added, metricId, at, first)
    requires entry == Transaction(first + i, selected[i].id, metricId, selected[i].singleMetricPricing, at)
    ensures FanOutProgress(
      initial, topicIds, selected, i + 1, charged + {selected[i].id},
      Credit(current, selected[i].id, selected[i].singleMetricPricing),
      added + [entry], metricId, at, first)
  {
    CreditedUpToStep(selected, i, charged);
    assert selected[i] in selected;
    CreditStep(initial, current, charged, topicIds, selected[i]);
    EntriesSnoc(selected, i, metricId, at, first);
  }

  lemma FanOutDone(
    initial: seq<Subscription>, topicIds: seq<Id>, selected: seq<Subscription>, charged: set<Id>,
    current: seq<Subscription>, added: seq<Transaction>, metricId: Id, at: Timestamp, first: Id)
    requires selected == Selected(initial, topicIds)
    requires FanOutProgress(initial, topicIds, selected, |selected|, charged, current, added, metricId, at, first)
    ensures current == ChargeAll(initial, topicIds)
    ensures added == Entries(selected, metricId, at, first)
  {
    assert selected[..|selected|] == selected;
    CreditedAll(initial, current, charged, topicIds);
  }

  /** The fan-out of `process_metric_value`: selects the subscriptions on one of
      `topicIds`, then for each appends a transaction of its price under the next
      key and increments its balance by that price, by key. */
  method ChargeSubscriptions(
    subscriptions: seq<Subscription>, transactions: seq<Transaction>, first: Id,
    metricId: Id, topicIds: seq<Id>, calculatedOn: Timestamp)
    returns (charged: seq<Subscription>, ledger: seq<Transaction>, next: Id)
    requires AscendingIds(subscriptions)
    ensures charged == ChargeAll(subscriptions, topicIds)
    ensures ledger == transactions + Entries(Selected(subscriptions, topicIds), metricId, calculatedOn, first)
    ensures next == first + |Selected(subscriptions, topicIds)|
  {
    var selected := Selected(subscriptions, topicIds);
    charged, ledger, next := subscriptions, transactions, first;
    ghost var done: set<Id> := {};
    ghost var added: seq<Transaction> := [];
    var i := 0;
    while i < |selected|
      invariant i <= |selected| && next == first + i
      invariant ledger == transactions + added
      invariant FanOutProgress(subscriptions, topicIds, selected, i, done, charged, added, metricId, calculatedOn, first)
    {
      var subscription := selected[i];
      var transaction := Transaction(next, subscription.id, metricId, subscription.singleMetricPricing, calculatedOn);
      FanOutStep(subscriptions, topicIds, selected, i, done, charged, added, metricId, calculatedOn, first, transaction);
      ledger := ledger + [transaction];
      added := added + [transaction];
      next := next + 1;
      charged := Credit(charged, subscription.id, subscription.singleMetricPricing);
      done := done + {subscription.id};
      i := i + 1;
    }
    FanOutDone(subscriptions, topicIds, selected, done, charged, added, metricId, calculatedOn, first);
  }

  class Store {
    var clients: seq<Client>
    var subscriptions: seq<Subscription>
    var metrics: seq<Metric>
    var metricValues: seq<MetricValue>
    var transactions: seq<Transaction>
    var contents: seq<Content>
    /** The next key `flush` hands out. */
    var nextId: Id
    /** The value a subscription created without a price receives. */
    const pricingDefault: real

    function Snapshot(): Tables
      reads this
    {
      Tables(clients, subscriptions, metrics, metricValues, transactions, contents, nextId)
    }

    predicate Valid()
      reads this
    {
      WellFormed(Snapshot())
    }

    constructor (pricingDefault: real)
      ensures Valid() && Snapshot() == EMPTY && this.pricingDefault == pricingDefault
    {
      clients, subscriptions, metrics := [], [], [];
      metricValues, transactions, contents := [], [], [];
      nextId := 0;
      this.pricingDefault := pricingDefault;
    }

    /** `create_client_with_subscription`: adds the client, flushes to learn its
        key, then adds one subscription per (topic, amount) entry. */
    method CreateClientWithSubscription(name: string, topics: seq<(Id, real)>, initialAmount: real)
      returns (client: Client)
      requires Valid()
      modifies this
      ensures Valid()
      ensures Inserted(client, Snapshot()) == CreateClient(old(Snapshot()), pricingDefault, name, topics, initialAmount)
    {
      ghost var before := Snapshot();
      client := Client(nextId, name);
      var added: seq<Subscription> := [];
      var next := nextId + 1;
      var i := 0;
      while i < |topics|
        invariant i <= |topics| && next == client.id + 1 + i
        invariant added == NewSubscriptions(client.id + 1, client.id, topics[..i], initialAmount, pricingDefault)
      {
        var (topicId, _) := topics[i];
        added := added + [Subscription(next, client.id, topicId, initialAmount, pricingDefault)];
        next := next + 1;
        i := i + 1;
        assert NewSubscriptions(client.id + 1, client.id, topics[..i], initialAmount, pricingDefault) ==
          NewSubscriptions(client.id + 1, client.id, topics[..i - 1], initialAmount, pricingDefault) +
          [Subscription(next - 1, client.id, topicId, initialAmount, pricingDefault)];
      }
      assert topics[..i] == topics;
      CreateClientKeepsWellFormed(before, pricingDefault, name, topics, initialAmount);
      clients, subscriptions, nextId := clients + [client], subscriptions + added, next;
    }

    /** `add_content_with_metric_values`: adds the content row, flushes to learn
        its key, then adds one metric value per (metric id, value) entry. The
        clock is read inside the loop: entry `k` is stamped `stamps[k]`. */
    method AddContentWithMetricValues(
      sourceId: Id, title: string, url: string, contentText: string,
      values: seq<(Id, real)>, stamps: seq<Timestamp>)
      returns (content: Content)
      requires Valid() && |stamps| == |values|
      modifies this
      ensures Valid()
      ensures Inserted(content, Snapshot()) == AddContent(old(Snapshot()), sourceId, title, url, contentText, values, stamps)
    {
      ghost var before := Snapshot();
      content := Content(nextId, sourceId, title, url, contentText);
      var added: seq<MetricValue> := [];
      var next := nextId + 1;
      var i := 0;
      while i < |values|
        invariant i <= |values| && next == content.id + 1 + i
        invariant added == NewMetricValues(content.id + 1, values[..i], stamps[..i])
      {
        var (metricId, value) := values[i];
        var calculatedOn := stamps[i];
        added := added + [MetricValue(next, metricId, value, calculatedOn)];
        next := next + 1;
        i := i + 1;
        assert NewMetricValues(content.id + 1, values[..i], stamps[..i]) ==
          NewMetricValues(content.id + 1, values[..i - 1], stamps[..i - 1])
            + [MetricValue(next - 1, metricId, value, calculatedOn)];
      }
      assert values[..i] == values && stamps[..i] == stamps;
      AddContentKeepsWellFormed(before, sourceId, title, url, contentText, values, stamps);
      contents, metricValues, nextId := contents + [content], metricValues + added, next;
    }

    /** `process_metric_value`: looks the metric up and fails before any write if
        it is unknown; records the value; then charges the metric's subscriptions. */
    method ProcessMetricValue(metricId: Id, value: real, calculatedOn: Timestamp) returns (outcome: Outcome)
      requires Valid()
      modifies this
      ensures Valid()
      ensures Step(outcome, Snapshot()) == Process(old(Snapshot()), metricId, value, calculatedOn)
    {
      ghost var before := Snapshot();
      var found := MetricById(metrics, metricId);
      if found.None? {
        outcome := MetricNotFound(metricId);
        return;
      }
      var topicIds := found.value.topicIds;
      RecordKeepsWellFormed(before, metricId, value, calculatedOn, topicIds);
      var recorded := metricValues + [MetricValue(nextId, metricId, value, calculatedOn)];
      var charged, ledger, next :=
        ChargeSubscriptions(subscriptions, transactions, nextId + 1, metricId, topicIds, calculatedOn);
      assert Record(before, metricId, value, calculatedOn, topicIds) ==
        Tables(clients, charged, metrics, recorded, ledger, contents, next);
      metricValues, subscriptions, transactions, nextId := recorded, charged, ledger, next;
      outcome := Done;
    }

    /** Test setup: registers a metric bound to `topicIds`. */
    method AddMetric(name: string, topicIds: seq<Id>) returns (metric: Metric)
      requires Valid()
      modifies this
      ensures Valid()
      ensures metric == Metric(old(nextId), name, topicIds)
      ensures Snapshot() == old(Snapshot()).(metrics := old(metrics) + [metric], nextId := old(nextId) + 1)
    {
      metric := Metric(nextId, name, topicIds);
      metrics := metrics + [metric];
      nextId := nextId + 1;
    }

    /** Test setup: adds a subscription with an explicit price and balance. */
    method AddSubscription(clientId: Id, topicId: Id, totalAmount: real, singleMetricPricing: real)
      returns (subscription: Subscription)
      requires Valid()
      modifies this
      ensures Valid()
      ensures subscription == Subscription(old(nextId), clientId, topicId, totalAmount, singleMetricPricing)
      ensures Snapshot() ==
        old(Snapshot()).(subscriptions := old(subscriptions) + [subscription], nextId := old(nextId) + 1)
    {
      ghost var before := Snapshot();
      subscription := Subscription(nextId, clientId, topicId, totalAmount, singleMetricPricing);
      subscriptions := subscriptions + [subscription];
      nextId := nextId + 1;
      forall k | 0 <= k < |transactions| ensures HasSubscription(subscriptions, transactions[k].subscriptionId) {
        assert HasSubscription(before.subscriptions, transactions[k].subscriptionId);
        var j :| 0 <= j < |before.subscriptions| && before.subscriptions[j].id == transactions[k].subscriptionId;
        assert subscriptions[j] == before.subscriptions[j];
      }
    }
  }

  /** An empty store holding one client and no subscription. */
  method NewStoreWithClient() returns (store: Store, client: Client)
    ensures fresh(store) && store.Valid()
    ensures store.clients == [client]
    ensures store.subscriptions == [] && store.metrics == [] && store.transactions == []
  {
    store := new Store(0.0);
    client := store.CreateClientWithSubscription("client", [], 0.0);
    assert NewSubscriptions(1, 0, [], 0.0, 0.0) == [];
  }

  /** The fixture of the two-worker test: one client, one subscription on
      `topicId` at 0.00 priced 1.00, and one metric bound to that topic. */
  method SetUpScenario(topicId: Id) returns (store: Store, subscription: Subscription, metric: Metric)
    ensures fresh(store) && store.Valid()
    ensures |store.clients| == 1
    ensures store.subscriptions == [subscription] && store.metrics == [metric] && store.transactions == []
    ensures store.clients[0].id == subscription.clientId
    ensures subscription.topicId == topicId && metric.topicIds == [topicId]
    ensures subscription.totalAmount == 0.0 && subscription.singleMetricPricing == 1.0
  {
    var client;
    store, client := NewStoreWithClient();
    subscription := store.AddSubscription(client.id, topicId, 0.0, 1.0);
    metric := store.AddMetric("Guaranteed Concurrency Failure Test", [topicId]);
  }

  /** The sequential run of the two-worker test: a subscription at 0.00 priced
      1.00, one metric bound to its topic, two observations one after the other.
      The balance ends at 2.00 and the ledger holds exactly two charges of 1.00. */
  method SequentialChargeScenario(topicId: Id, firstAt: Timestamp, secondAt: Timestamp)
    returns (balance: real, ledger: seq<Transaction>)
    ensures balance == 2.0
    ensures |ledger| == 2
    ensures ledger[0].amount == 1.0 && ledger[1].amount == 1.0
    ensures ledger[0].createdAt == firstAt && ledger[1].createdAt == secondAt
    ensures ledger[0].subscriptionId == ledger[1].subscriptionId
  {
    var store, subscription, metric := SetUpScenario(topicId);
    ghost var start := store.Snapshot();
    var first := store.ProcessMetricValue(metric.id, subscription.singleMetricPricing, firstAt);
    var second := store.ProcessMetricValue(metric.id, subscription.singleMetricPricing, secondAt);
    TwoObservations(start, subscription, metric, 1.0, firstAt, 1.0, secondAt);
    balance := store.subscriptions[0].totalAmount;
    ledger := store.transactions;
  }
}
