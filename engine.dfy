/**
 The orchestration of the intent engine (`run_intent_engine`): load the events,
 aggregate them per customer, and score every customer in first-seen order.
 */
module Engine {
  import opened Events
  import opened Counts
  import opened Aggregation
  import Scoring

  /** One customer's entry of the engine's output. */
  datatype ScoreResult = ScoreResult(customerId: string, intentScore: int, churnScore: int, nextBestAction: string)

  /**
   A run either stops because there is nothing to analyse (no output is
   written) or yields the full result list.
   */
  datatype Outcome = NothingToAnalyse | Results(rows: seq<ScoreResult>)

  /** The result the engine computes for customer `c` with aggregate `a`. */
  ghost function ScoreOf(c: string, a: Aggregate): (r: ScoreResult)
    ensures r.customerId == c && WellFormedRow(r)
  {
    var intent := Scoring.IntentScore(a.counts, a.hasPurchase);
    var churn := Scoring.ComputeChurnScore(a.counts, a.hasPurchase);
    ScoreResult(c, intent, churn, Scoring.SuggestNextAction(intent, churn, a.counts))
  }

  /** A result row obeys the output contract: both scores in range, the action one of the five texts. */
  ghost predicate WellFormedRow(row: ScoreResult)
  {
    && 0 <= row.intentScore <= 100
    && row.churnScore in Scoring.ChurnValues
    && row.nextBestAction in Scoring.Actions
  }

  /** `run_intent_engine`, without its console output and its writing of the result file. */
  method RunIntentEngine(source: Option<seq<Line>>) returns (outcome: Outcome)
    ensures LoadedEvents(source) == [] <==> outcome == NothingToAnalyse
    ensures outcome.Results? ==>
      var stats := CustomerStats(LoadedEvents(source));
      && |outcome.rows| == |stats.order|
      && forall i :: 0 <= i < |outcome.rows| ==>
           && stats.order[i] in stats.byCustomer
           && outcome.rows[i] == ScoreOf(stats.order[i], stats.byCustomer[stats.order[i]])
    ensures outcome.Results? ==>
      forall i :: 0 <= i < |outcome.rows| ==> WellFormedRow(outcome.rows[i])
    ensures outcome.Results? ==>
      forall i, j :: 0 <= i < j < |outcome.rows| ==>
        FirstIndex(LoadedEvents(source), outcome.rows[i].customerId)
          < FirstIndex(LoadedEvents(source), outcome.rows[j].customerId)
  {
    var events := LoadEvents(source);
    if events == [] {
      return NothingToAnalyse;
    }
    var stats := BuildCustomerStats(events);
    var results := ScoreCustomers(stats);
    FirstSeenOrder(events);
    return Results(results);
  }

  /**
   The result loop of `run_intent_engine`: one row per customer of the
   dictionary, in its iteration order, each holding that customer's scores and
   recommendation.
   */
  method ScoreCustomers(stats: Stats) returns (results: seq<ScoreResult>)
    requires forall c :: c in stats.order <==> c in stats.byCustomer
    ensures |results| == |stats.order|
    ensures forall i :: 0 <= i < |results| ==>
      && stats.order[i] in stats.byCustomer
      && results[i] == ScoreOf(stats.order[i], stats.byCustomer[stats.order[i]])
  {
    results := [];
    assert forall k :: 0 <= k < |stats.order| ==> stats.order[k] in stats.byCustomer;
    for i := 0 to |stats.order|
      invariant |results| == i
      invariant forall k :: 0 <= k < i ==> results[k] == ScoreOf(stats.order[k], stats.byCustomer[stats.order[k]])
    {
      var customerId := stats.order[i];
      var s := stats.byCustomer[customerId];
      var intentScore := Scoring.ComputeIntentScore(s.counts, s.hasPurchase);
      var churnScore := Scoring.ComputeChurnScore(s.counts, s.hasPurchase);
      var action := Scoring.SuggestNextAction(intentScore, churnScore, s.counts);
      var result := ScoreResult(customerId, intentScore, churnScore, action);
      assert result == ScoreOf(customerId, s);
      ghost var before := results;
      results := results + [result];
      forall k | 0 <= k < i + 1
        ensures results[k] == ScoreOf(stats.order[k], stats.byCustomer[stats.order[k]])
      {
        if k < i {
          assert results[k] == before[k];
        }
      }
    }
  }

  /**
   Within the engine the recommendation depends only on purchase and cart
   behaviour: every customer who purchased gets the limited-time offer, a
   customer who neither purchased nor added to the cart gets the retention
   message, and one who added to the cart without purchasing gets the cart
   reminder. The review and default rules are never reached for an
   aggregated customer.
   */
  lemma EngineAction(events: seq<Event>, c: string)
    requires c in CustomerStats(events).byCustomer
    ensures var a := CustomerStats(events).byCustomer[c];
      ScoreOf(c, a).nextBestAction ==
        if Get(a.counts, Purchase) > 0 then Scoring.OfferAction
        else if Get(a.counts, AddToCart) == 0 then Scoring.RetentionAction
        else Scoring.CartReminderAction
  {
    var a := CustomerStats(events).byCustomer[c];
    KeysAreSeenCustomers(events);
    AggregateOfCustomer(events, c);
    AllCoherent(events);
    var first := FirstIndex(events, c);
    EventsOfContains(events, c, first);
    if Get(a.counts, Purchase) > 0 {
      Scoring.IntentOfPurchaser(a.counts);
    }
  }

  /** The event at the first index of `c` belongs to `c`'s events, so they are not empty. */
  lemma {:induction false} EventsOfContains(events: seq<Event>, c: string, i: int)
    requires 0 <= i < |events| && CustomerOf(events[i]) == c
    ensures |EventsOf(events, c)| > 0
  {
    if i < |events| - 1 {
      EventsOfContains(events[..|events| - 1], c, i);
    }
  }
}
