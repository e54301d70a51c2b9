/** Reference definitions of the three business operations as functions from the
    tables before a call to the tables after it, and the properties the ledger
    promises about them. The store's methods are proved to compute exactly these
    functions. */
module Ledger {
  import opened Schema

  datatype Option<T> = None | Some(value: T)

  /** How `process_metric_value` ends: normally, or by raising because the metric
      does not exist. */
  datatype Outcome = Done | MetricNotFound(metricId: Id)

  datatype Step = Step(outcome: Outcome, after: Tables)

  /** A row an operation inserted and returns, with the tables after the call. */
  datatype Inserted<T> = Inserted(row: T, after: Tables)

  // ---------------------------------------------------------------------------
  // Queries

  /** Lookup of a metric by primary key. */
  function MetricById(metrics: seq<Metric>, id: Id): (r: Option<Metric>)
    ensures r.Some? ==> r.value in metrics && r.value.id == id
    ensures r.None? <==> forall i :: 0 <= i < |metrics| ==> metrics[i].id != id
  {
    if metrics == [] then None
    else if metrics[0].id == id then Some(metrics[0])
    else MetricById(metrics[1..], id)
  }

  /** The subscriptions whose topic is among `topicIds`, in table order. Each
      subscription appears at most once, however often its topic is listed. */
  function Selected(subscriptions: seq<Subscription>, topicIds: seq<Id>): (r: seq<Subscription>)
    ensures forall s :: s in r <==> s in subscriptions && s.topicId in topicIds
    ensures AscendingIds(subscriptions) ==> AscendingIds(r)
  {
    if subscriptions == [] then []
    else
      var rest := Selected(subscriptions[1..], topicIds);
      assert forall s :: s in subscriptions <==> s == subscriptions[0] || s in subscriptions[1..];
      if subscriptions[0].topicId in topicIds then
        assert AscendingIds(subscriptions) ==> forall k :: 0 <= k < |rest| ==> subscriptions[0].id < rest[k].id by {
          if AscendingIds(subscriptions) {
            forall k | 0 <= k < |rest| ensures subscriptions[0].id < rest[k].id {
              assert rest[k] in subscriptions[1..];
              var i :| 0 <= i < |subscriptions[1..]| && subscriptions[1..][i] == rest[k];
              assert subscriptions[i + 1] == rest[k];
            }
          }
        }
        [subscriptions[0]] + rest
      else rest
  }

  // ---------------------------------------------------------------------------
  // process_metric_value

  /** A subscription after one observation of a metric bound to `topicIds`. */
  function Charge(s: Subscription, topicIds: seq<Id>): Subscription {
    if s.topicId in topicIds then s.(totalAmount := s.totalAmount + s.singleMetricPricing) else s
  }

  function ChargeAll(subscriptions: seq<Subscription>, topicIds: seq<Id>): seq<Subscription> {
    seq(|subscriptions|, j requires 0 <= j < |subscriptions| => Charge(subscriptions[j], topicIds))
  }

  /** One transaction per selected subscription, keyed from `first` on. */
  function Entries(selected: seq<Subscription>, metricId: Id, at: Timestamp, first: Id): seq<Transaction> {
    seq(|selected|, k requires 0 <= k < |selected| =>
      Transaction(first + k, selected[k].id, metricId, selected[k].singleMetricPricing, at))
  }

  /** Ingestion of one observation: fails before any write when the metric is
      unknown; otherwise records the value once, then charges every subscription
      bound to one of the metric's topics. */
  function Process(t: Tables, metricId: Id, value: real, at: Timestamp): Step {
    match MetricById(t.metrics, metricId)
    case None => Step(MetricNotFound(metricId), t)
    case Some(m) => Step(Done, Record(t, metricId, value, at, m.topicIds))
  }

  /** The writes of a successful call for a metric bound to `topicIds`: the value
      under the next key, then one transaction per selected subscription under the
      keys after it, and every selected balance raised by its price. */
  function Record(t: Tables, metricId: Id, value: real, at: Timestamp, topicIds: seq<Id>): Tables {
    var selected := Selected(t.subscriptions, topicIds);
    t.(
      metricValues := t.metricValues + [MetricValue(t.nextId, metricId, value, at)],
      transactions := t.transactions + Entries(selected, metricId, at, t.nextId + 1),
      subscriptions := ChargeAll(t.subscriptions, topicIds),
      nextId := t.nextId + 1 + |selected|)
  }

  // ---------------------------------------------------------------------------
  // create_client_with_subscription and add_content_with_metric_values

  function NewSubscriptions(first: Id, clientId: Id, topics: seq<(Id, real)>, initialAmount: real, pricing: real)
    : seq<Subscription>
  {
    seq(|topics|, k requires 0 <= k < |topics| =>
      Subscription(first + k, clientId, topics[k].0, initialAmount, pricing))
  }

  /** A new client and one subscription per (topic, amount) pair, every one
      starting at `initialAmount`. The pair's amount plays no part. `pricing` is
      the column default that a subscription created without a price receives. */
  function CreateClient(t: Tables, pricing: real, name: string, topics: seq<(Id, real)>, initialAmount: real)
    : Inserted<Client>
  {
    var client := Client(t.nextId, name);
    Inserted(client, t.(
      clients := t.clients + [client],
      subscriptions := t.subscriptions + NewSubscriptions(t.nextId + 1, client.id, topics, initialAmount, pricing),
      nextId := t.nextId + 1 + |topics|))
  }

  function NewMetricValues(first: Id, entries: seq<(Id, real)>, stamps: seq<Timestamp>): seq<MetricValue>
    requires |stamps| == |entries|
  {
    seq(|entries|, k requires 0 <= k < |entries| => MetricValue(first + k, entries[k].0, entries[k].1, stamps[k]))
  }

  /** A new content row and one metric value per (metric id, value) entry. The
      clock is read once per entry, so entry `k` is stamped `stamps[k]`. */
  function AddContent(
    t: Tables, sourceId: Id, title: string, url: string, text: string,
    entries: seq<(Id, real)>, stamps: seq<Timestamp>): Inserted<Content>
    requires |stamps| == |entries|
  {
    var content := Content(t.nextId, sourceId, title, url, text);
    Inserted(content, t.(
      contents := t.contents + [content],
      metricValues := t.metricValues + NewMetricValues(t.nextId + 1, entries, stamps),
      nextId := t.nextId + 1 + |entries|))
  }

  // ---------------------------------------------------------------------------
  // The ledger

  /** The ledger history of one subscription, in order. */
  function ChargesOf(transactions: seq<Transaction>, subscriptionId: Id): (r: seq<Transaction>)
    ensures forall x :: x in r <==> x in transactions && x.subscriptionId == subscriptionId
    ensures |r| <= |transactions|
  {
    if transactions == [] then []
    else
      assert forall x :: x in transactions <==> x == transactions[0] || x in transactions[1..];
      (if transactions[0].subscriptionId == subscriptionId then [transactions[0]] else [])
        + ChargesOf(transactions[1..], subscriptionId)
  }

  function Total(transactions: seq<Transaction>): real {
    if transactions == [] then 0.0 else transactions[0].amount + Total(transactions[1..])
  }

  /** Every subscription's balance is its opening balance plus the sum of the
      transactions charged to it. */
  predicate LedgerBalanced(t: Tables, opening: map<Id, real>) {
    forall j :: 0 <= j < |t.subscriptions| ==> RowBalanced(t, opening, j)
  }

  /** Opening balances of the subscriptions keyed `first` to `first + count - 1`. */
  function Openings(first: Id, count: nat, amount: real): (r: map<Id, real>)
    ensures forall id :: id in r <==> first <= id < first + count
    ensures forall id :: id in r ==> r[id] == amount
    decreases count
  {
    if count == 0 then map[] else Openings(first, count - 1, amount)[first + count - 1 := amount]
  }

  // ---------------------------------------------------------------------------
  // Lemmas about the ledger history

  lemma {:induction false} ChargesOfAppend(a: seq<Transaction>, b: seq<Transaction>, subscriptionId: Id)
    ensures ChargesOf(a + b, subscriptionId) == ChargesOf(a, subscriptionId) + ChargesOf(b, subscriptionId)
  {
    if a == [] {
      assert a + b == b;
    } else {
      assert (a + b)[1..] == a[1..] + b;
      ChargesOfAppend(a[1..], b, subscriptionId);
    }
  }

  lemma {:induction false} TotalAppend(a: seq<Transaction>, b: seq<Transaction>)
    ensures Total(a + b) == Total(a) + Total(b)
  {
    if a == [] {
      assert a + b == b;
    } else {
      assert (a + b)[1..] == a[1..] + b;
      TotalAppend(a[1..], b);
    }
  }

  /** A subscription that no transaction names has an empty history. */
  lemma {:induction false} ChargesOfNone(transactions: seq<Transaction>, subscriptionId: Id)
    requires forall k :: 0 <= k < |transactions| ==> transactions[k].subscriptionId != subscriptionId
    ensures ChargesOf(transactions, subscriptionId) == []
  {
    if transactions != [] {
      ChargesOfNone(transactions[1..], subscriptionId);
    }
  }

  /** A subscription that exactly one transaction names has that one transaction
      as its history. */
  lemma {:induction false} ChargesOfUnique(transactions: seq<Transaction>, subscriptionId: Id, k: nat)
    requires k < |transactions| && transactions[k].subscriptionId == subscriptionId
    requires forall i :: 0 <= i < |transactions| && i != k ==> transactions[i].subscriptionId != subscriptionId
    ensures ChargesOf(transactions, subscriptionId) == [transactions[k]]
  {
    if k == 0 {
      ChargesOfNone(transactions[1..], subscriptionId);
    } else {
      ChargesOfUnique(transactions[1..], subscriptionId, k - 1);
    }
  }

  /** In a table sorted by key, a row with the key of a row that is in the table
      is that row. */
  lemma SameIdSameRow(subscriptions: seq<Subscription>, j: nat, s: Subscription)
    requires AscendingIds(subscriptions)
    requires j < |subscriptions| && s in subscriptions && subscriptions[j].id == s.id
    ensures subscriptions[j] == s
  {
    var i :| 0 <= i < |subscriptions| && subscriptions[i] == s;
    assert !(i < j) && !(j < i);
  }

  // ---------------------------------------------------------------------------
  // Lemmas about process_metric_value

  /** An unknown metric makes the call fail, and the tables stay as they were. */
  lemma ProcessUnknownMetric(t: Tables, metricId: Id, value: real, at: Timestamp)
    ensures Process(t, metricId, value, at).outcome.MetricNotFound? <==>
            forall i :: 0 <= i < |t.metrics| ==> t.metrics[i].id != metricId
    ensures Process(t, metricId, value, at).outcome.MetricNotFound? ==> Process(t, metricId, value, at).after == t
  {
  }

  /** A successful call records exactly one metric value, with the given metric,
      value and time and a fresh key, however many subscriptions it charges; it
      adds one transaction per selected subscription and leaves clients, metrics
      and contents alone. */
  lemma ProcessRecordsOneValue(t: Tables, metricId: Id, value: real, at: Timestamp)
    requires WellFormed(t)
    requires MetricById(t.metrics, metricId).Some?
    ensures var r := Process(t, metricId, value, at);
      r.outcome == Done &&
      |r.after.metricValues| == |t.metricValues| + 1 &&
      r.after.metricValues[..|t.metricValues|] == t.metricValues &&
      r.after.metricValues[|t.metricValues|].metricId == metricId &&
      r.after.metricValues[|t.metricValues|].value == value &&
      r.after.metricValues[|t.metricValues|].calculatedOn == at &&
      (forall i :: 0 <= i < |t.metricValues| ==> t.metricValues[i].id != r.after.metricValues[|t.metricValues|].id)
    ensures var r := Process(t, metricId, value, at);
      |r.after.transactions| ==
        |t.transactions| + |Selected(t.subscriptions, MetricById(t.metrics, metricId).value.topicIds)| &&
      r.after.transactions[..|t.transactions|] == t.transactions
    ensures var r := Process(t, metricId, value, at);
      r.after.clients == t.clients && r.after.metrics == t.metrics && r.after.contents == t.contents
  {
  }

  /** Each subscription's balance rises by exactly its price when its topic is
      bound to the metric and stays put otherwise; nothing else about it changes. */
  lemma ProcessCharges(t: Tables, metricId: Id, value: real, at: Timestamp, j: nat)
    requires MetricById(t.metrics, metricId).Some?
    requires j < |t.subscriptions|
    ensures var after := Process(t, metricId, value, at).after;
      var s := t.subscriptions[j];
      var bound := s.topicId in MetricById(t.metrics, metricId).value.topicIds;
      |after.subscriptions| == |t.subscriptions| &&
      after.subscriptions[j].id == s.id &&
      after.subscriptions[j].clientId == s.clientId &&
      after.subscriptions[j].topicId == s.topicId &&
      after.subscriptions[j].singleMetricPricing == s.singleMetricPricing &&
      after.subscriptions[j].totalAmount == s.totalAmount + (if bound then s.singleMetricPricing else 0.0)
    ensures Process(t, metricId, value, at).after.metrics == t.metrics
  {
  }

  /** The fan-out of one observation names each subscription bound to the
      metric's topics exactly once, with its price, and no other subscription. */
  lemma EntriesChargeOnce(
    subscriptions: seq<Subscription>, topicIds: seq<Id>, metricId: Id, at: Timestamp, first: Id, j: nat)
    requires AscendingIds(subscriptions) && j < |subscriptions|
    ensures var s := subscriptions[j];
      var added := ChargesOf(Entries(Selected(subscriptions, topicIds), metricId, at, first), s.id);
      if s.topicId in topicIds then
        |added| == 1 && added[0].amount == s.singleMetricPricing &&
        added[0].createdAt == at && added[0].metricId == metricId
      else
        added == []
    ensures var s := subscriptions[j];
      Total(ChargesOf(Entries(Selected(subscriptions, topicIds), metricId, at, first), s.id)) ==
        if s.topicId in topicIds then s.singleMetricPricing else 0.0
  {
    var s := subscriptions[j];
    var selected := Selected(subscriptions, topicIds);
    var entries := Entries(selected, metricId, at, first);
    if s.topicId in topicIds {
      assert s in selected;
      var k :| 0 <= k < |selected| && selected[k] == s;
      forall i | 0 <= i < |entries| && i != k ensures entries[i].subscriptionId != s.id {
        assert selected[i] != selected[k];
      }
      ChargesOfUnique(entries, s.id, k);
      assert Total([entries[k]]) == entries[k].amount + Total([]);
    } else {
      forall i | 0 <= i < |entries| ensures entries[i].subscriptionId != s.id {
        if selected[i].id == s.id {
          SameIdSameRow(subscriptions, j, selected[i]);
        }
      }
      ChargesOfNone(entries, s.id);
    }
  }

  /** The transactions one call adds for a subscription: exactly one, charging its
      price at the observation time, when its topic is bound to the metric, and
      none otherwise, even when the metric lists that topic several times. */
  lemma ProcessChargesEachMatchOnce(t: Tables, metricId: Id, value: real, at: Timestamp, j: nat)
    requires AscendingIds(t.subscriptions)
    requires MetricById(t.metrics, metricId).Some?
    requires j < |t.subscriptions|
    ensures |Process(t, metricId, value, at).after.transactions| >= |t.transactions|
    ensures var s := t.subscriptions[j];
      var added := ChargesOf(Process(t, metricId, value, at).after.transactions[|t.transactions|..], s.id);
      if s.topicId in MetricById(t.metrics, metricId).value.topicIds then
        |added| == 1 && added[0].amount == s.singleMetricPricing &&
        added[0].createdAt == at && added[0].metricId == metricId
      else
        added == []
  {
    var m := MetricById(t.metrics, metricId).value;
    var entries := Entries(Selected(t.subscriptions, m.topicIds), metricId, at, t.nextId + 1);
    assert Process(t, metricId, value, at).after.transactions[|t.transactions|..] == entries;
    EntriesChargeOnce(t.subscriptions, m.topicIds, metricId, at, t.nextId + 1, j);
  }

  lemma AppendEntriesKeyed(
    transactions: seq<Transaction>, selected: seq<Subscription>, metricId: Id, at: Timestamp, first: Id)
    requires Keyed(transactions, TransactionKey, first)
    ensures Keyed(transactions + Entries(selected, metricId, at, first), TransactionKey, first + |selected|)
  {
    var entries := Entries(selected, metricId, at, first);
    var all := transactions + entries;
    forall i, j | 0 <= i < j < |all| ensures all[i].id < all[j].id {
      if j >= |transactions| {
        assert all[j] == entries[j - |transactions|];
      }
    }
  }

  lemma ChargeAllKeepsReference(
    transactions: seq<Transaction>, subscriptions: seq<Subscription>, metricId: Id, at: Timestamp,
    first: Id, topicIds: seq<Id>, k: nat)
    requires forall k :: 0 <= k < |transactions| ==> HasSubscription(subscriptions, transactions[k].subscriptionId)
    requires k < |transactions| + |Selected(subscriptions, topicIds)|
    ensures HasSubscription(
      ChargeAll(subscriptions, topicIds),
      (transactions + Entries(Selected(subscriptions, topicIds), metricId, at, first))[k].subscriptionId)
  {
    var selected := Selected(subscriptions, topicIds);
    var all := transactions + Entries(selected, metricId, at, first);
    var charged := ChargeAll(subscriptions, topicIds);
    var id := all[k].subscriptionId;
    if k < |transactions| {
      assert HasSubscription(subscriptions, id);
      var i :| 0 <= i < |subscriptions| && subscriptions[i].id == id;
      assert charged[i].id == id;
    } else {
      var x := selected[k - |transactions|];
      assert x in subscriptions;
      var i :| 0 <= i < |subscriptions| && subscriptions[i] == x;
      assert charged[i].id == id;
    }
  }

  /** Proof helper: unfolds `Process` and `Record` for a known metric. */
  lemma ProcessFound(t: Tables, metricId: Id, value: real, at: Timestamp, m: Metric)
    requires MetricById(t.metrics, metricId) == Some(m)
    ensures var selected := Selected(t.subscriptions, m.topicIds);
      Process(t, metricId, value, at) == Step(Done, t.(
        metricValues := t.metricValues + [MetricValue(t.nextId, metricId, value, at)],
        transactions := t.transactions + Entries(selected, metricId, at, t.nextId + 1),
        subscriptions := ChargeAll(t.subscriptions, m.topicIds),
        nextId := t.nextId + 1 + |selected|))
  {
  }

  /** Every transaction, old or new, still names an existing subscription. */
  lemma ChargeAllKeepsReferences(
    transactions: seq<Transaction>, subscriptions: seq<Subscription>, metricId: Id, at: Timestamp,
    first: Id, topicIds: seq<Id>)
    requires forall k :: 0 <= k < |transactions| ==> HasSubscription(subscriptions, transactions[k].subscriptionId)
    ensures forall k :: 0 <= k < |transactions| + |Selected(subscriptions, topicIds)| ==>
      HasSubscription(
        ChargeAll(subscriptions, topicIds),
        (transactions + Entries(Selected(subscriptions, topicIds), metricId, at, first))[k].subscriptionId)
  {
    forall k | 0 <= k < |transactions| + |Selected(subscriptions, topicIds)|
      ensures HasSubscription(
        ChargeAll(subscriptions, topicIds),
        (transactions + Entries(Selected(subscriptions, topicIds), metricId, at, first))[k].subscriptionId)
    {
      ChargeAllKeepsReference(transactions, subscriptions, metricId, at, first, topicIds, k);
    }
  }

  /** The new rows take the keys from the counter on, so every table stays keyed. */
  lemma RecordKeepsKeys(t: Tables, metricId: Id, value: real, at: Timestamp, topicIds: seq<Id>)
    requires WellFormed(t)
    ensures var after := Record(t, metricId, value, at, topicIds);
      Keyed(after.clients, ClientKey, after.nextId) &&
      Keyed(after.subscriptions, SubscriptionKey, after.nextId) &&
      Keyed(after.metrics, MetricKey, after.nextId) &&
      Keyed(after.metricValues, MetricValueKey, after.nextId) &&
      Keyed(after.transactions, TransactionKey, after.nextId) &&
      Keyed(after.contents, ContentKey, after.nextId)
  {
    var selected := Selected(t.subscriptions, topicIds);
    var after := Record(t, metricId, value, at, topicIds);
    AppendEntriesKeyed(t.transactions, selected, metricId, at, t.nextId + 1);
    KeyedRaise(t.clients, ClientKey, t.nextId, after.nextId);
    KeyedRaise(t.metrics, MetricKey, t.nextId, after.nextId);
    KeyedRaise(t.contents, ContentKey, t.nextId, after.nextId);
    KeyedAppend(t.metricValues, MetricValueKey, t.nextId, MetricValue(t.nextId, metricId, value, at));
    KeyedRaise(after.metricValues, MetricValueKey, t.nextId + 1, after.nextId);
    assert Keyed(after.subscriptions, SubscriptionKey, after.nextId) by {
      assert forall j :: 0 <= j < |t.subscriptions| ==> after.subscriptions[j].id == t.subscriptions[j].id;
    }
  }

  lemma RecordKeepsWellFormed(t: Tables, metricId: Id, value: real, at: Timestamp, topicIds: seq<Id>)
    requires WellFormed(t)
    ensures WellFormed(Record(t, metricId, value, at, topicIds))
  {
    RecordKeepsKeys(t, metricId, value, at, topicIds);
    ChargeAllKeepsReferences(t.transactions, t.subscriptions, metricId, at, t.nextId + 1, topicIds);
  }

  lemma ProcessKeepsWellFormed(t: Tables, metricId: Id, value: real, at: Timestamp)
    requires WellFormed(t)
    ensures WellFormed(Process(t, metricId, value, at).after)
  {
    if MetricById(t.metrics, metricId).Some? {
      RecordKeepsWellFormed(t, metricId, value, at, MetricById(t.metrics, metricId).value.topicIds);
    }
  }

  /** One subscription's row of the ledger invariant, carried across a charge. */
  lemma ChargeRowBalanced(
    s: Subscription, topicIds: seq<Id>, history: seq<Transaction>, entries: seq<Transaction>, opening: map<Id, real>)
    requires s.id in opening && s.totalAmount == opening[s.id] + Total(ChargesOf(history, s.id))
    requires Total(ChargesOf(entries, s.id)) == if s.topicId in topicIds then s.singleMetricPricing else 0.0
    ensures Charge(s, topicIds).totalAmount == opening[s.id] + Total(ChargesOf(history + entries, s.id))
  {
    ChargesOfAppend(history, entries, s.id);
    TotalAppend(ChargesOf(history, s.id), ChargesOf(entries, s.id));
  }

  /** The ledger invariant, one subscription at a time. */
  predicate RowBalanced(t: Tables, opening: map<Id, real>, j: nat)
    requires j < |t.subscriptions|
  {
    t.subscriptions[j].id in opening &&
    t.subscriptions[j].totalAmount ==
      opening[t.subscriptions[j].id] + Total(ChargesOf(t.transactions, t.subscriptions[j].id))
  }

  lemma ProcessKeepsRowBalanced(
    t: Tables, opening: map<Id, real>, metricId: Id, value: real, at: Timestamp, m: Metric, j: nat)
    requires MetricById(t.metrics, metricId) == Some(m)
    requires AscendingIds(t.subscriptions) && j < |t.subscriptions| && RowBalanced(t, opening, j)
    ensures j < |Process(t, metricId, value, at).after.subscriptions|
    ensures RowBalanced(Process(t, metricId, value, at).after, opening, j)
  {
    var entries := Entries(Selected(t.subscriptions, m.topicIds), metricId, at, t.nextId + 1);
    ProcessFound(t, metricId, value, at, m);
    EntriesChargeOnce(t.subscriptions, m.topicIds, metricId, at, t.nextId + 1, j);
    ChargeRowBalanced(t.subscriptions[j], m.topicIds, t.transactions, entries, opening);
  }

  /** The ledger invariant survives a call: if every balance equals its opening
      balance plus its charges before, it does after. */
  lemma ProcessKeepsLedger(t: Tables, opening: map<Id, real>, metricId: Id, value: real, at: Timestamp)
    requires WellFormed(t) && LedgerBalanced(t, opening)
    ensures LedgerBalanced(Process(t, metricId, value, at).after, opening)
  {
    if MetricById(t.metrics, metricId).Some? {
      var m := MetricById(t.metrics, metricId).value;
      var after := Process(t, metricId, value, at).after;
      ProcessFound(t, metricId, value, at, m);
      forall j | 0 <= j < |after.subscriptions| ensures RowBalanced(after, opening, j) {
        assert RowBalanced(t, opening, j);
        ProcessKeepsRowBalanced(t, opening, metricId, value, at, m, j);
      }
    }
  }

  /** The sequential consequence of the two-worker test: one subscription, one
      metric bound to its topic, two observations in a row. The balance rises by
      twice the price and the ledger holds exactly two charges of that price. */
  lemma TwoObservations(
    t: Tables, s: Subscription, m: Metric, v1: real, at1: Timestamp, v2: real, at2: Timestamp)
    requires t.subscriptions == [s] && t.metrics == [m] && t.transactions == []
    requires s.topicId in m.topicIds
    ensures var after := Process(Process(t, m.id, v1, at1).after, m.id, v2, at2).after;
      after.subscriptions == [s.(totalAmount := s.totalAmount + 2.0 * s.singleMetricPricing)] &&
      |after.transactions| == 2 &&
      after.transactions[0].amount == s.singleMetricPricing && after.transactions[0].createdAt == at1 &&
      after.transactions[1].amount == s.singleMetricPricing && after.transactions[1].createdAt == at2 &&
      after.transactions[0].subscriptionId == s.id && after.transactions[1].subscriptionId == s.id
  {
    assert MetricById([m], m.id) == Some(m);
    var s1 := s.(totalAmount := s.totalAmount + s.singleMetricPricing);
    assert Selected([s], m.topicIds) == [s] by { assert [s][1..] == []; }
    assert ChargeAll([s], m.topicIds) == [s1];
    ProcessFound(t, m.id, v1, at1, m);
    var t1 := Process(t, m.id, v1, at1).after;
    assert t1.metrics == [m] && t1.subscriptions == [s1];
    assert Selected([s1], m.topicIds) == [s1] by { assert [s1][1..] == []; }
    assert ChargeAll([s1], m.topicIds) == [s1.(totalAmount := s1.totalAmount + s1.singleMetricPricing)];
    ProcessFound(t1, m.id, v2, at2, m);
  }

  // ---------------------------------------------------------------------------
  // Lemmas about create_client_with_subscription

  /** One new client with a fresh key, then exactly one subscription per topic
      entry, each owned by that client, on that entry's topic, starting at
      `initialAmount`; no other table changes. */
  lemma CreateClientEffect(t: Tables, pricing: real, name: string, topics: seq<(Id, real)>, initialAmount: real)
    requires WellFormed(t)
    ensures var r := CreateClient(t, pricing, name, topics, initialAmount);
      r.after.clients == t.clients + [r.row] && r.row.name == name &&
      forall i :: 0 <= i < |t.clients| ==> t.clients[i].id != r.row.id
    ensures var r := CreateClient(t, pricing, name, topics, initialAmount);
      |r.after.subscriptions| == |t.subscriptions| + |topics| &&
      r.after.subscriptions[..|t.subscriptions|] == t.subscriptions &&
      forall k :: 0 <= k < |topics| ==>
        var s := r.after.subscriptions[|t.subscriptions| + k];
        s.clientId == r.row.id && s.topicId == topics[k].0 && s.totalAmount == initialAmount
    ensures var r := CreateClient(t, pricing, name, topics, initialAmount);
      r.after.metrics == t.metrics && r.after.metricValues == t.metricValues &&
      r.after.transactions == t.transactions && r.after.contents == t.contents
  {
  }

  /** The amount paired with each topic plays no part in the result. */
  lemma CreateClientIgnoresAmounts(
    t: Tables, pricing: real, name: string, topics: seq<(Id, real)>, others: seq<(Id, real)>, initialAmount: real)
    requires |topics| == |others|
    requires forall k :: 0 <= k < |topics| ==> topics[k].0 == others[k].0
    ensures CreateClient(t, pricing, name, topics, initialAmount) == CreateClient(t, pricing, name, others, initialAmount)
  {
    assert NewSubscriptions(t.nextId + 1, t.nextId, topics, initialAmount, pricing)
        == NewSubscriptions(t.nextId + 1, t.nextId, others, initialAmount, pricing);
  }

  lemma CreateClientKeepsWellFormed(
    t: Tables, pricing: real, name: string, topics: seq<(Id, real)>, initialAmount: real)
    requires WellFormed(t)
    ensures WellFormed(CreateClient(t, pricing, name, topics, initialAmount).after)
  {
    var after := CreateClient(t, pricing, name, topics, initialAmount).after;
    forall k | 0 <= k < |after.transactions|
      ensures HasSubscription(after.subscriptions, after.transactions[k].subscriptionId)
    {
      var id := after.transactions[k].subscriptionId;
      assert HasSubscription(t.subscriptions, id);
      var i :| 0 <= i < |t.subscriptions| && t.subscriptions[i].id == id;
      assert after.subscriptions[i].id == id;
    }
  }

  /** New subscriptions start at `initialAmount` with an empty history, so the
      ledger invariant holds with their opening balances added. */
  lemma CreateClientKeepsLedger(
    t: Tables, opening: map<Id, real>, pricing: real, name: string, topics: seq<(Id, real)>, initialAmount: real)
    requires WellFormed(t) && LedgerBalanced(t, opening)
    ensures LedgerBalanced(
      CreateClient(t, pricing, name, topics, initialAmount).after,
      opening + Openings(t.nextId + 1, |topics|, initialAmount))
  {
    var after := CreateClient(t, pricing, name, topics, initialAmount).after;
    var started := Openings(t.nextId + 1, |topics|, initialAmount);
    forall j | 0 <= j < |after.subscriptions| ensures RowBalanced(after, opening + started, j) {
      var s := after.subscriptions[j];
      if j < |t.subscriptions| {
        assert RowBalanced(t, opening, j);
        assert s == t.subscriptions[j];
        assert s.id !in started;
      } else {
        forall k | 0 <= k < |t.transactions| ensures t.transactions[k].subscriptionId != s.id {
          assert HasSubscription(t.subscriptions, t.transactions[k].subscriptionId);
        }
        ChargesOfNone(t.transactions, s.id);
        assert s.id in started;
      }
    }
  }

  // ---------------------------------------------------------------------------
  // Lemmas about add_content_with_metric_values

  /** One new content row carrying the given fields, then one metric value per
      entry with that entry's metric id and value, stamped with that entry's own
      clock reading; nothing else. */
  lemma AddContentEffect(
    t: Tables, sourceId: Id, title: string, url: string, text: string,
    entries: seq<(Id, real)>, stamps: seq<Timestamp>)
    requires |stamps| == |entries|
    ensures var r := AddContent(t, sourceId, title, url, text, entries, stamps);
      r.after.contents == t.contents + [r.row] &&
      r.row.sourceId == sourceId && r.row.title == title && r.row.url == url && r.row.content == text
    ensures var r := AddContent(t, sourceId, title, url, text, entries, stamps);
      |r.after.metricValues| == |t.metricValues| + |entries| &&
      r.after.metricValues[..|t.metricValues|] == t.metricValues &&
      forall k :: 0 <= k < |entries| ==>
        var v := r.after.metricValues[|t.metricValues| + k];
        v.metricId == entries[k].0 && v.value == entries[k].1 && v.calculatedOn == stamps[k]
    ensures var r := AddContent(t, sourceId, title, url, text, entries, stamps);
      r.after.clients == t.clients && r.after.subscriptions == t.subscriptions &&
      r.after.metrics == t.metrics && r.after.transactions == t.transactions
  {
  }

  lemma AddContentKeepsWellFormed(
    t: Tables, sourceId: Id, title: string, url: string, text: string,
    entries: seq<(Id, real)>, stamps: seq<Timestamp>)
    requires WellFormed(t) && |stamps| == |entries|
    ensures WellFormed(AddContent(t, sourceId, title, url, text, entries, stamps).after)
  {
  }

  /** Adding content touches neither subscriptions nor transactions, so the
      ledger invariant carries over with the same opening balances. */
  lemma AddContentKeepsLedger(
    t: Tables, opening: map<Id, real>, sourceId: Id, title: string, url: string, text: string,
    entries: seq<(Id, real)>, stamps: seq<Timestamp>)
    requires LedgerBalanced(t, opening) && |stamps| == |entries|
    ensures LedgerBalanced(AddContent(t, sourceId, title, url, text, entries, stamps).after, opening)
  {
    var after := AddContent(t, sourceId, title, url, text, entries, stamps).after;
    forall j | 0 <= j < |after.subscriptions| ensures RowBalanced(after, opening, j) {
      assert RowBalanced(t, opening, j);
    }
  }
}
