# Subscription ledger fan-out

This project models the billing core of a small content-and-metrics service. Clients subscribe to topics. Metrics are bound to topics. Observing a metric has two effects:

- it records a metric value;
- it charges every subscription on one of the metric's topics.

Each charge appends one transaction of the subscription's `single_metric_pricing` and raises that subscription's `total_amount` by the same price.

The model covers the three business operations of `business.py`, run one after another on an in-memory store:

- `process_metric_value`
- `create_client_with_subscription`
- `add_content_with_metric_values`

It has three modules:

- `Schema` (schema.dfy) holds the rows and the `Tables` value. It also holds the store's integrity rules (`WellFormed`):
  - every table is sorted by key;
  - every key lies below the key counter;
  - every transaction names an existing subscription.
- `Ledger` (ledger.dfy) gives each operation a reference definition as a function from the tables before the call to the tables after it:
  - `Process` for `process_metric_value`;
  - `CreateClient` for `create_client_with_subscription`;
  - `AddContent` for `add_content_with_metric_values`.

  It also proves the promised properties about those functions. These include the ledger invariant: every balance equals its opening balance plus the sum of its transactions.
- `Business` (business.dfy) holds the class `Store`. Its fields are the tables and the key counter that the session's `flush` draws from. The methods change those fields with loops, as the source does, and each method is proved to leave the store exactly as the matching `Ledger` function says. `ChargeSubscriptions` is the fan-out loop of `process_metric_value`. It works over the selected rows and reports the new subscription table, transaction table and counter, which the store then writes back in one step. The test fixture of the two-worker test, run sequentially, is also here.

Amounts are exact decimals (`real`). Timestamps are integers supplied by the caller.

`process_metric_value` runs plain `INSERT`/`UPDATE` statements in one session and commits once at the end. It has no version check, no retry and no per-subscription outcome, so the model has none either. A call either fails on a missing metric before any write, or applies every write.

## Model

| member | source | states |
|---|---|---|
| Ledger.MetricById | business.py:66-71 | A lookup that finds something returns a metric of the table with the requested key. It finds nothing exactly when no metric has that key. |
| Ledger.Selected | business.py:81-87 | A subscription is selected exactly when it is in the table and its topic is one of the metric's topics, so a topic listed twice selects nobody twice. The selection keeps the table's key order. |
| Ledger.ProcessUnknownMetric | business.py:66-73 | The call fails with "metric not found" exactly when no metric has the key. When it fails, every table and the counter are unchanged. |
| Ledger.ProcessRecordsOneValue | business.py:73-79 | A successful call appends exactly one metric value, whatever the fan-out size. The value carries the given metric id, value and time under a key no older value has. The earlier values are kept. One transaction is appended per selected subscription after the old ones. Clients, metrics and contents are unchanged. |
| Ledger.ProcessCharges | business.py:99-103 | Every subscription keeps its key, client, topic and price. Its balance rises by exactly its price when its topic is bound to the metric, and stays the same otherwise. Metrics are unchanged. |
| Ledger.EntriesChargeOnce | business.py:81-97 | The transactions of one fan-out name a bound subscription exactly once, with its price, the observation time and the metric, and name an unbound subscription never. They add up to the price, or to zero for an unbound subscription. |
| Ledger.ProcessChargesEachMatchOnce | business.py:81-97 | Among the transactions one call appends, a bound subscription has exactly one, of its price, stamped `calculated_on`, for that metric. An unbound subscription has none, even when the metric lists the topic more than once. |
| Ledger.RecordKeepsKeys | business.py:73-97 | The writes of a successful call keep every table sorted by key, with every key below the counter. |
| Ledger.RecordKeepsWellFormed | business.py:73-103 | The writes of a successful call keep all integrity rules, including that every transaction names an existing subscription. |
| Ledger.ProcessKeepsWellFormed | business.py:62-106 | Both outcomes of the call keep all integrity rules. |
| Ledger.ChargeAllKeepsReferences | business.py:89-103 | After the fan-out, every old and new transaction names a subscription of the charged table. |
| Ledger.ChargeRowBalanced | business.py:89-103 | If a balance equals its opening plus its history, then after one charge it equals its opening plus its history with the new transactions appended. |
| Ledger.ProcessKeepsRowBalanced | business.py:89-103 | One subscription's ledger row stays balanced across a successful call. |
| Ledger.ProcessKeepsLedger | business.py:89-103 | If every balance equals its opening balance plus the sum of its transactions before a call, the same holds after it, whether the call succeeds or fails. |
| Ledger.TwoObservations | main.py:244-289 | Start with one subscription, one metric bound to its topic and an empty ledger. Two observations in a row raise the balance by twice the price and leave exactly two transactions of that price, at the two times, for that subscription. |
| Ledger.CreateClientEffect | business.py:17-30 | The call appends one client with the given name under a fresh key. It appends exactly one subscription per topic entry, in order. Each is owned by the new client, on the entry's topic, starting at `initial_amount`. The old subscriptions are kept, and metrics, values, transactions and contents are unchanged. |
| Ledger.CreateClientIgnoresAmounts | business.py:21-26 | Changing the amount paired with each topic does not change the result. |
| Ledger.CreateClientKeepsWellFormed | business.py:17-29 | The call keeps all integrity rules. |
| Ledger.CreateClientKeepsLedger | business.py:21-27 | The ledger invariant still holds, with each new subscription's opening balance set to `initial_amount`. |
| Ledger.AddContentEffect | business.py:41-58 | The call appends one content row with the given source, title, url and text. It appends one metric value per entry, in order, each with that entry's metric id and value. Entry k is stamped with the k-th clock reading, taken inside the loop. Clients, subscriptions, metrics and transactions are unchanged. |
| Ledger.AddContentKeepsWellFormed | business.py:41-58 | The call keeps all integrity rules. |
| Ledger.AddContentKeepsLedger | business.py:41-58 | The ledger invariant still holds with the same opening balances, since no subscription or transaction changes. |
| Business.ChargeSubscriptions | business.py:81-103 | The loop over the selected subscriptions appends one transaction per selected row to the ledger, under consecutive keys. It raises exactly the bound rows' balances by their prices. It advances the counter by the number of rows charged. |
| Business.FanOutStep | business.py:89-103 | One pass of the loop credits the next selected subscription, by key. It charges that row and no other, and appends its transaction. |
| Business.CreditStep | business.py:99-103 | The key-matched `UPDATE` of one selected subscription charges that row once and leaves every other row as it was. |
| Business.Store.ProcessMetricValue | business.py:62-106 | The method returns the outcome and leaves the store exactly as `Ledger.Process` says. It keeps the integrity rules. |
| Business.Store.CreateClientWithSubscription | business.py:11-30 | The method returns the new client and leaves the store exactly as `Ledger.CreateClient` says. It keeps the integrity rules. |
| Business.Store.AddContentWithMetricValues | business.py:33-59 | The method returns the new content row and leaves the store exactly as `Ledger.AddContent` says, with entry k stamped by the k-th clock reading. It keeps the integrity rules. |
| Business.Store.AddSubscription | main.py:247-252 | The test fixture appends one subscription with the given client, topic, balance and price under the next key. Nothing else changes. |
| Business.Store.AddMetric | main.py:254-260 | The test fixture appends one metric bound to the given topics under the next key. Nothing else changes. |
| Business.NewStoreWithClient | main.py:236-244 | A store whose only client is the returned one, with no subscriptions, metrics or transactions. |
| Business.SetUpScenario | main.py:244-260 | The two-worker fixture: one client, one subscription of that client on the topic at 0.00 priced 1.00, and one metric bound to that topic. |
| Business.SequentialChargeScenario | main.py:244-289 | The two workers run one after the other against that fixture. The balance ends at 2.00, and the ledger holds exactly two transactions of 1.00, at the two times, for the same subscription. |

## Left out

- Threads, the isolation levels, `AUTOCOMMIT` against `SERIALIZABLE`, and the lost-update demonstration. The model is sequential. The two-worker test keeps only its sequential consequence: a final balance of 2.00.
- Version checks, conditional writes and retries: `business.py` has none, so there is nothing to model.
- `_artificial_delay` and `time.sleep`: these only widen a race window.
- Defaulting `calculated_on` to the current time in `process_metric_value`: the time is a parameter.
- The clock itself in `add_content_with_metric_values`. It is read once per entry, and the model takes those readings as the parameter `stamps`, one per entry. Nothing is assumed about them, not even that they are non-decreasing.
- Session commit, rollback and close, and the database engine. A failed lookup raises before any write, so a failure leaves the tables unchanged anyway.
- The join from subscriptions to the topic table. Selection is a filter on the subscription's topic key, so every subscribed topic is taken to exist. Topic rows and keys from subscriptions to topics and clients are not modelled.
- Business.Store.AddContentWithMetricValues: does not check that each entry's metric exists, because `add_content_with_metric_values` relies on the database's foreign key for that and the model has no metric foreign key.
- Business.Store.CreateClientWithSubscription: the price of a new subscription is the store's `pricingDefault`, because `create_client_with_subscription` does not set `single_metric_pricing` and the column default is not part of this model. The model assumes that default is a number. If the column had no default, the price would be NULL, the `UPDATE` at business.py:102 would set `total_amount` to NULL, and the ledger equation would no longer hold.
- The default `initial_amount = 0` of `create_client_with_subscription` (business.py:15). Dafny has no default arguments, so every caller passes `initialAmount`. Passing `0.0` gives the default case.
- The order of the fan-out. The subscription query at business.py:81-87 has no `ORDER BY`, so the rows come back in whatever order the database chooses. That order decides which transaction key each subscription receives. The model fixes it as ascending key order in `Ledger.Selected` and `Business.ChargeSubscriptions`. Every result is proved for this order only. The claims about which subscription gets which transaction key hold only under it.
- The entries of `metric_values`, a dictionary in the source, are modelled as a sequence of pairs, so a key may repeat. Every result holds for dictionaries as a special case.
- One key counter serves every table. The database gives each table its own sequence, and only the freshness and ordering of keys matter here.
- `Decimal` context precision and rounding: amounts are exact reals.
- Server-side `created_at` defaults on rows other than transactions.
- Random data seeding, performance timing, the document-store benchmark, the Snowflake export, migrations, configuration and the ORM declarations: none of these is business logic.
