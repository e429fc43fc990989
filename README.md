# LocalBoost intent engine, modelled in Dafny

This project models the event aggregation and scoring engine of LocalBoost
(`backend/analytics/intent_engine.py`). The engine reads a batch of customer
events, groups them by customer, and computes two scores per customer. The
intent score is a weighted engagement count, boosted, scaled and clamped to
[0,100]. The churn score comes from a small decision table. A first-match rule
chain then picks one of five fixed next-best-action texts. The results are
listed in the order customers were first seen.

Modules, in dependency order:

- `Events` (`events.dfy`): event records with optional `customer_id` and
  `event_type`, the `"unknown"` fallback, and the reader's skip policy
  (`load_events`) over abstract line outcomes.
- `Counts` (`counts.dfy`): the per-customer `Counter` as `map<string, nat>`.
  It also holds order-independent weighted sums over the counter: `Sum` visits
  keys in an arbitrary order, and `SumPick` proves the order does not matter.
- `Aggregation` (`aggregation.dfy`): `build_customer_stats`. The insertion-ordered
  `defaultdict` is a map plus the list of its keys in insertion order. It has a
  loop method, the pure left fold that specifies it (`CustomerStats`), and the
  lemmas about that fold.
- `Scoring` (`scoring.dfy`): `compute_intent_score` (a loop method specified by
  the intent formula), `compute_churn_score` and `suggest_next_action`. The
  action rules are also given as a precedence table (`Rule`, `Precedence`,
  `FirstToFire`) that the if-chain is proved against.
- `Engine` (`engine.dfy`): the result-building loop of `run_intent_engine`.

One consequence is proved in `Engine.EngineAction`. For every customer the
engine aggregates, the action depends only on purchases and cart adds. A
purchaser always scores intent of 75 or more and churn of 20 or less, so they
always get the limited-time offer. A non-purchaser's churn is 75 (no cart adds,
retention message) or 55 (cart adds, cart reminder). So the review-thanks rule
and the default rule never fire inside the engine. They can only fire when
`suggest_next_action` is called directly with other scores.

A single purchase by a purchaser scores (5 + 10) * 5 = 75
(`Scoring.IntentOfOnePurchase`). The churn score is always one of
{15, 20, 50, 55, 75}, and each value occurs (`Scoring.ChurnExamples`). The
`max(0, base)` guard on the purchase branch never changes the result.

## Model

| member | source | states |
|---|---|---|
| `Events.CustomerOf` | backend/analytics/intent_engine.py:39 | a record without a customer id is attributed to `"unknown"`, otherwise to its id |
| `Events.TypeOf` | backend/analytics/intent_engine.py:40 | a record without an event type counts as type `"unknown"`, otherwise as its type |
| `Events.ParsedEvents` | backend/analytics/intent_engine.py:17-27 | the loaded records are never more than the lines, and a record is loaded exactly when some line parsed to it; blank and malformed lines are dropped |
| `Events.ParsedEventsAppend` | backend/analytics/intent_engine.py:18-26 | lines are handled independently and in file order: loading a concatenation of line blocks concatenates their records |
| `Events.LoadedEvents` | backend/analytics/intent_engine.py:13-27 | definition: no events when the event file is missing (:13-15), otherwise the parsed records of its lines (:17-27) |
| `Events.LoadEvents` | backend/analytics/intent_engine.py:10-27 | a missing file yields no events; otherwise the loop yields exactly the parsed records of the file's lines, in order |
| `Counts.Get` | backend/analytics/intent_engine.py:93-94 | `counts.get(key, 0)`: the stored count, or 0 for an unobserved type |
| `Counts.Sum` | backend/analytics/intent_engine.py:73-74 | definition: the sum of weight times count over all entries of a counter, entries taken in an arbitrary order |
| `Counts.Total` | backend/analytics/intent_engine.py:92 | definition: `sum(counts.values())`, the sum with every weight 1 |
| `Counts.SumPick` | backend/analytics/intent_engine.py:73-74 | the weighted sum over a counter does not depend on the order its entries are visited in |
| `Counts.SumIncrement` | backend/analytics/intent_engine.py:43 | `counter[t] += 1` raises the weighted sum by exactly the weight of `t` |
| `Counts.TotalZeroIff` | backend/analytics/intent_engine.py:92-97 | `sum(counts.values()) == 0` holds exactly when every stored count is zero |
| `Aggregation.NewAggregate` | backend/analytics/intent_engine.py:32-36 | the default factory gives a first-seen customer no events and a coherent aggregate: an empty counter and no purchase |
| `Aggregation.AddEvent` | backend/analytics/intent_engine.py:42-45 | the event is appended to the customer's events; for every type, the count rises by one for the event's type and is unchanged for every other; the event's type becomes a key; the flag is set exactly when it was set before or the event is a purchase |
| `Aggregation.Record` | backend/analytics/intent_engine.py:39-45 | definition: one turn of the loop, lookup-or-insert of the event's customer followed by `AddEvent` |
| `Aggregation.RecordEffect` | backend/analytics/intent_engine.py:39-45 | one turn touches only the event's customer: it becomes a key and is listed on first sight, its aggregate is its old one (or the default) with the event added, and every other customer is unchanged |
| `Aggregation.CustomerStats` | backend/analytics/intent_engine.py:38-47 | definition: the stats after running the loop over the events from left to right, starting from the empty dictionary |
| `Aggregation.CustomerStatsSize` | backend/analytics/intent_engine.py:38-47 | there are never more customers than events |
| `Aggregation.BuildCustomerStats` | backend/analytics/intent_engine.py:30-47 | the loop computes the left fold `CustomerStats` of the events; the key list and the map hold the same customers, every aggregate is coherent, and the counts of all customers add up to the number of events |
| `Aggregation.FirstIndex` | backend/analytics/intent_engine.py:38-41 | the index of a customer's first event: within bounds, carries that id, and no earlier event carries it |
| `Aggregation.AddEventCoherent` | backend/analytics/intent_engine.py:42-45 | appending an event, incrementing its type's count and setting the flag on a purchase keeps the aggregate coherent: per-type counts match the events, every key has a positive count, the counts sum to the number of events, and the flag equals "purchase count > 0" |
| `Aggregation.OrderMatchesKeys` | backend/analytics/intent_engine.py:32-47 | each aggregated customer appears exactly once in the iteration order, and only aggregated customers appear |
| `Aggregation.KeysAreSeenCustomers` | backend/analytics/intent_engine.py:38-42 | a customer is aggregated exactly when some input event carries that id (missing ids count as `"unknown"`) |
| `Aggregation.EventsAreFiltered` | backend/analytics/intent_engine.py:38-42 | each customer's event list is the subsequence of the input with that customer id, in input order |
| `Aggregation.AllCoherent` | backend/analytics/intent_engine.py:38-45 | every aggregate is coherent; in particular `has_purchase` holds exactly when `counts["purchase"] > 0`, and its counts sum to the length of its event list |
| `Aggregation.AggregateOfCustomer` | backend/analytics/intent_engine.py:38-45 | for a customer seen in the input: its events are the filtered input, each per-type count is the number of those events of that type, the counts total their number, and the flag says whether a purchase is among them |
| `Aggregation.EventsConserved` | backend/analytics/intent_engine.py:38-43 | no event is dropped: summed over all customers, the counts equal the number of input events |
| `Aggregation.FirstSeenOrder` | backend/analytics/intent_engine.py:32-47 | every listed customer occurs in the input, and customers are listed in strictly increasing order of their first event |
| `Scoring.WeightOf` | backend/analytics/intent_engine.py:62-74 | the weight of an event type is its entry in the fixed table, and 0 for a type outside the table |
| `Scoring.Clamp` | backend/analytics/intent_engine.py:81 | the clamped value lies in the range and equals the input when the input already lies in it |
| `Scoring.Max` | backend/analytics/intent_engine.py:81 | `max` of two integers: at least both arguments and equal to one of them |
| `Scoring.Min` | backend/analytics/intent_engine.py:81 | `min` of two integers: at most both arguments and equal to one of them |
| `Scoring.IntentScore` | backend/analytics/intent_engine.py:72-82 | the intent formula `clamp(5 * (sum of weight * count + (10 if purchased)), 0, 100)` always lies in [0,100] |
| `Scoring.ComputeIntentScore` | backend/analytics/intent_engine.py:50-82 | the accumulation loop over the counter's entries, followed by the bonus, the scaling and the cap, yields exactly the intent formula, for any counts |
| `Scoring.IntentOfOnePurchase` | backend/analytics/intent_engine.py:62-82 | `{"purchase": 1}` with the purchase flag scores 75 |
| `Scoring.IntentOfPurchaser` | backend/analytics/intent_engine.py:69-81 | a customer with at least one purchase and the purchase flag scores at least 75 |
| `Scoring.ComputeChurnScore` | backend/analytics/intent_engine.py:85-112 | 50 when no events are counted; with a purchase, 15 if there are cart adds and 20 if not; without a purchase, 75 if there are no cart adds and 55 if there are; always one of {15, 20, 50, 55, 75}; the purchase flag is never consulted |
| `Scoring.ChurnExamples` | backend/analytics/intent_engine.py:92-112 | one example per branch of the churn table: no counts give 50, a purchase without cart adds gives 20, a purchase with cart adds gives 15, browsing only gives 75, a cart add without a purchase gives 55 |
| `Scoring.SuggestNextAction` | backend/analytics/intent_engine.py:115-131 | the result is one of the five texts, and it is the text of the first rule in precedence order (offer, retention, cart reminder, review thanks, default) whose guard holds |
| `Scoring.FirstToFireUnique` | backend/analytics/intent_engine.py:119-131 | whichever rule is the first to fire determines the result: precedence leaves no choice |
| `Scoring.OfferBeatsCartReminder` | backend/analytics/intent_engine.py:119-126 | when both the offer rule and the cart-reminder rule match, the offer wins |
| `Engine.ScoreOf` | backend/analytics/intent_engine.py:150-159 | a customer's result row carries its id, an intent score in [0,100], a churn score from the finite set and one of the five action texts |
| `Engine.RunIntentEngine` | backend/analytics/intent_engine.py:134-160 | no loaded events means nothing to analyse; otherwise there is one row per aggregated customer, in first-seen order, each the customer's scores and action, and each row obeys the output bounds |
| `Engine.ScoreCustomers` | backend/analytics/intent_engine.py:144-160 | the result loop yields one row per customer of the dictionary, in its iteration order, each that customer's intent score, churn score and action |
| `Engine.EngineAction` | backend/analytics/intent_engine.py:92-131 | for an aggregated customer the action is the offer when they purchased, the retention message when they neither purchased nor added to the cart, and the cart reminder otherwise |

## Left out

- File access in `load_events` (intent_engine.py:13-19) is left out: the existence check, line reading and `strip()`. Each line is given as a `Line` outcome (blank, malformed or parsed), and a missing file is `None`.
- `json.loads` is a library parser and is not modelled. A line that parses to JSON that is not an object, which would make `e.get` raise, is not modelled either.
- Field values are modelled as absent or a string. A JSON `null` or a non-string value for `customer_id` or `event_type` is not modelled.
- The `timestamp` field is not modelled. It is carried in the records but no logic reads it.
- All console printing in `run_intent_engine` is left out (intent_engine.py:135, 139, 162-167, 174).
- Writing `intent_results.json` is left out (intent_engine.py:169-172). The model stops at the result list that would be written.
- `Scoring.ComputeIntentScore`: visits the counter's entries in an arbitrary order, not Python's insertion order. `Counts.SumPick` proves this gives the same sum.
- `Scoring.ComputeChurnScore`: computes the total-is-zero test as "every stored count is zero". Counts are natural numbers here, so `Counts.TotalZeroIff` proves this is the same as `sum(counts.values()) == 0`.
- Counts are natural numbers. A Python `Counter` can hold negative or zero values, but `build_customer_stats` never produces them.
- Python integers are unbounded like Dafny's `int`, so there is no overflow to model.
- `backend/api_gateway/main.go` is not part of this model. It is an HTTP server that re-serves the result file.
- `simulator/event_simulator.py` is not part of this model. It is a random event generator with clock and file I/O.
- `backend/common/db_init.py` is not part of this model. It is a database bootstrap and is not wired to the scoring path.
