/** The rows of the billing data layer and the integrity rules the store keeps:
    clients subscribe to topics, metrics are bound to topics, every observation
    of a metric is a metric value, and every charge to a subscription is a
    transaction. */
module Schema {

  /** A primary key. The store draws every key from one counter. */
  type Id = nat

  /** A point in time. Its value always comes from the caller. */
  type Timestamp = int

  datatype Client = Client(id: Id, name: string)

  /** `totalAmount` is the running balance; `singleMetricPricing` is what one
      qualifying observation charges. Amounts are exact decimals. */
  datatype Subscription = Subscription(
    id: Id,
    clientId: Id,
    topicId: Id,
    totalAmount: real,
    singleMetricPricing: real)

  /** `topicIds` is a list: it may name a topic more than once. */
  datatype Metric = Metric(id: Id, name: string, topicIds: seq<Id>)

  datatype MetricValue = MetricValue(id: Id, metricId: Id, value: real, calculatedOn: Timestamp)

  /** An append-only ledger entry charging `amount` to a subscription. */
  datatype Transaction = Transaction(
    id: Id,
    subscriptionId: Id,
    metricId: Id,
    amount: real,
    createdAt: Timestamp)

  datatype Content = Content(id: Id, sourceId: Id, title: string, url: string, content: string)

  /** Every table of the store, in insertion order, and the next key to hand out. */
  datatype Tables = Tables(
    clients: seq<Client>,
    subscriptions: seq<Subscription>,
    metrics: seq<Metric>,
    metricValues: seq<MetricValue>,
    transactions: seq<Transaction>,
    contents: seq<Content>,
    nextId: Id)

  const EMPTY: Tables := Tables([], [], [], [], [], [], 0)

  // Keys are handed out in increasing order, so every table is sorted by key,
  // its keys are distinct, and all of them lie below the counter.

  /** Rows keyed by `key`: the keys ascend, so they are distinct, and all lie
      below `bound`. */
  predicate Keyed<T>(rows: seq<T>, key: T -> Id, bound: Id) {
    (forall i, j :: 0 <= i < j < |rows| ==> key(rows[i]) < key(rows[j])) &&
    forall i :: 0 <= i < |rows| ==> key(rows[i]) < bound
  }

  /** Raising the bound keeps rows keyed. */
  lemma KeyedRaise<T>(rows: seq<T>, key: T -> Id, bound: Id, higher: Id)
    requires Keyed(rows, key, bound) && bound <= higher
    ensures Keyed(rows, key, higher)
  {
  }

  /** A row keyed at the bound may be appended; the bound moves past it. */
  lemma KeyedAppend<T>(rows: seq<T>, key: T -> Id, bound: Id, row: T)
    requires Keyed(rows, key, bound) && bound <= key(row)
    ensures Keyed(rows + [row], key, key(row) + 1)
  {
  }

  function ClientKey(c: Client): Id { c.id }
  function SubscriptionKey(s: Subscription): Id { s.id }
  function MetricKey(m: Metric): Id { m.id }
  function MetricValueKey(v: MetricValue): Id { v.id }
  function TransactionKey(x: Transaction): Id { x.id }
  function ContentKey(c: Content): Id { c.id }

  predicate AscendingIds(rows: seq<Subscription>) {
    forall i, j :: 0 <= i < j < |rows| ==> rows[i].id < rows[j].id
  }

  predicate HasSubscription(subscriptions: seq<Subscription>, id: Id) {
    exists j :: 0 <= j < |subscriptions| && subscriptions[j].id == id
  }

  /** The store's integrity rules: primary keys, and the foreign key from a
      transaction to the subscription it charges. */
  predicate WellFormed(t: Tables) {
    Keyed(t.clients, ClientKey, t.nextId) &&
    Keyed(t.subscriptions, SubscriptionKey, t.nextId) &&
    Keyed(t.metrics, MetricKey, t.nextId) &&
    Keyed(t.metricValues, MetricValueKey, t.nextId) &&
    Keyed(t.transactions, TransactionKey, t.nextId) &&
    Keyed(t.contents, ContentKey, t.nextId) &&
    forall k :: 0 <= k < |t.transactions| ==> HasSubscription(t.subscriptions, t.transactions[k].subscriptionId)
  }
}
