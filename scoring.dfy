/**
 The scorer and recommender of the intent engine: the intent score, the churn
 score and the next-best-action rule chain over one customer's counts.
 */
module Scoring {
  import opened Events
  import opened Counts

  /** The fixed weight table of the intent score. */
  const Weights: map<string, nat> := map[
    PageView := 1, ProductView := 2, AddToCart := 3, EmailOpened := 1,
    EmailClicked := 2, ReviewPosted := 1, Purchase := 5]

  /** `weights.get(etype, 0)`: an event type outside the table weighs nothing. */
  function WeightOf(t: string): (w: nat)
    ensures t !in Weights ==> w == 0
    ensures t in Weights ==> w == Weights[t]
  {
    if t in Weights then Weights[t] else 0
  }

  /** The bonus for a customer who has already purchased. */
  const PurchaseBonus: nat := 10

  /** The factor the raw score is scaled by before clamping. */
  const Scale: nat := 5

  function Clamp(x: int, lo: int, hi: int): (r: int)
    requires lo <= hi
    ensures lo <= r <= hi
    ensures lo <= x <= hi ==> r == x
    ensures x < lo ==> r == lo
    ensures x > hi ==> r == hi
  {
    if x < lo then lo else if x > hi then hi else x
  }

  /** The intent formula: `clamp(5 * (sum of weight * count + bonus), 0, 100)`. */
  ghost function IntentScore(counts: Counter, hasPurchase: bool): (r: int)
    ensures 0 <= r <= 100
  {
    Clamp(Scale * (Sum(counts, WeightOf) + (if hasPurchase then PurchaseBonus else 0)), 0, 100)
  }

  /**
   `compute_intent_score`: the weighted sum is accumulated over the counter's
   entries one at a time, then boosted, scaled and capped.
   */
  method ComputeIntentScore(counts: Counter, hasPurchase: bool) returns (score: int)
    ensures score == IntentScore(counts, hasPurchase)
    ensures 0 <= score <= 100
  {
    score := 0;
    var rest := counts;
    while rest != map[]
      invariant score + Sum(rest, WeightOf) == Sum(counts, WeightOf)
      decreases |rest|
    {
      var etype :| etype in rest;
      SumPick(rest, WeightOf, etype);
      score := score + WeightOf(etype) * rest[etype];
      rest := rest - {etype};
    }
    if hasPurchase {
      score := score + PurchaseBonus;
    }
    score := Max(0, Min(score * Scale, 100));
  }

  /** Python's `max` of two integers. */
  function Max(a: int, b: int): (r: int)
    ensures r >= a && r >= b && (r == a || r == b)
  {
    if a < b then b else a
  }

  /** Python's `min` of two integers. */
  function Min(a: int, b: int): (r: int)
    ensures r <= a && r <= b && (r == a || r == b)
  {
    if a < b then a else b
  }

  /** The finite set of churn scores. */
  const ChurnValues: set<int> := {15, 20, 50, 55, 75}

  /**
   `compute_churn_score`: a decision table over the total event count, the
   purchase count and the cart count. The total is zero exactly when every
   stored count is zero (TotalZeroIff); the purchase flag is not consulted.
   */
  function ComputeChurnScore(counts: Counter, hasPurchase: bool): (r: int)
    ensures Total(counts) == 0 ==> r == 50
    ensures Total(counts) > 0 && Get(counts, Purchase) > 0 ==> r == (if Get(counts, AddToCart) > 0 then 15 else 20)
    ensures Total(counts) > 0 && Get(counts, Purchase) == 0 ==> r == (if Get(counts, AddToCart) == 0 then 75 else 55)
    ensures r in ChurnValues
  {
    TotalZeroIff(counts);
    var addToCart := Get(counts, AddToCart);
    var purchases := Get(counts, Purchase);
    if forall t | t in counts :: counts[t] == 0 then 50
    else if purchases > 0 then
      var base := if addToCart > 0 then 20 - 5 else 20;
      Max(0, base)
    else if addToCart == 0 then 75
    else 55
  }

  // ---------------------------------------------------------------------------
  // The next-best-action rule chain

  const OfferAction: string := "Send a limited-time offer to close the sale."
  const RetentionAction: string := "Reach out with a personal message or retention discount."
  const CartReminderAction: string := "Send a cart reminder email with a small incentive."
  const ReviewThanksAction: string := "Thank them for their review and suggest a loyalty program."
  const RecommendationAction: string := "Send a helpful product recommendation email."

  /** The five recommendation strings. */
  const Actions: set<string> := {OfferAction, RetentionAction, CartReminderAction, ReviewThanksAction, RecommendationAction}

  /** The recommendation rules, each with its guard and its text. */
  datatype Rule = LimitedOffer | Retention | CartReminder | ReviewThanks | Recommendation {
    predicate Fires(intent: int, churn: int, counts: Counter)
    {
      match this
      case LimitedOffer => intent > 70 && churn < 40
      case Retention => churn >= 70
      case CartReminder => Get(counts, AddToCart) > 0 && Get(counts, Purchase) == 0
      case ReviewThanks => Get(counts, ReviewPosted) > 0
      case Recommendation => true
    }

    function Text(): string
    {
      match this
      case LimitedOffer => OfferAction
      case Retention => RetentionAction
      case CartReminder => CartReminderAction
      case ReviewThanks => ReviewThanksAction
      case Recommendation => RecommendationAction
    }
  }

  /** The rules in order of precedence. */
  const Precedence: seq<Rule> := [LimitedOffer, Retention, CartReminder, ReviewThanks, Recommendation]

  /** Rule `k` of the precedence list fires and no earlier one does. */
  ghost predicate FirstToFire(k: int, intent: int, churn: int, counts: Counter)
  {
    && 0 <= k < |Precedence|
    && Precedence[k].Fires(intent, churn, counts)
    && forall j :: 0 <= j < k ==> !Precedence[j].Fires(intent, churn, counts)
  }

  /** `suggest_next_action`: the text of the first rule in precedence order whose guard holds. */
  function SuggestNextAction(intent: int, churn: int, counts: Counter): (r: string)
    ensures r in Actions
    ensures exists k :: FirstToFire(k, intent, churn, counts) && r == Precedence[k].Text()
  {
    if intent > 70 && churn < 40 then
      assert FirstToFire(0, intent, churn, counts);
      OfferAction
    else if churn >= 70 then
      assert FirstToFire(1, intent, churn, counts);
      RetentionAction
    else if Get(counts, AddToCart) > 0 && Get(counts, Purchase) == 0 then
      assert FirstToFire(2, intent, churn, counts);
      CartReminderAction
    else if Get(counts, ReviewPosted) > 0 then
      assert FirstToFire(3, intent, churn, counts);
      ReviewThanksAction
    else
      assert FirstToFire(4, intent, churn, counts);
      RecommendationAction
  }

  /** Exactly one rule is the first to fire, and the recommendation is determined by it. */
  lemma FirstToFireUnique(k: int, intent: int, churn: int, counts: Counter)
    requires FirstToFire(k, intent, churn, counts)
    ensures SuggestNextAction(intent, churn, counts) == Precedence[k].Text()
  {
  }

  /** The limited-time offer wins even when the cart-reminder rule would also fire. */
  lemma OfferBeatsCartReminder(intent: int, churn: int, counts: Counter)
    requires intent > 70 && churn < 40
    requires Get(counts, AddToCart) > 0 && Get(counts, Purchase) == 0
    ensures SuggestNextAction(intent, churn, counts) == OfferAction
  {
  }

  /**
   One example per branch of the churn table: no events (50), a purchase
   without cart adds (20), a purchase with cart adds (15), browsing only (75),
   and a cart add without a purchase (55).
   */
  lemma ChurnExamples()
    ensures ComputeChurnScore(map[], false) == 50
    ensures ComputeChurnScore(map[Purchase := 1], true) == 20
    ensures ComputeChurnScore(map[Purchase := 1, AddToCart := 2], true) == 15
    ensures ComputeChurnScore(map[PageView := 3], false) == 75
    ensures ComputeChurnScore(map[AddToCart := 1], false) == 55
  {
    SumSingleton(Purchase, 1, _ => 1);
    SumSingleton(PageView, 3, _ => 1);
    SumSingleton(AddToCart, 1, _ => 1);
    var m := map[Purchase := 1, AddToCart := 2];
    SumPick(m, _ => 1, Purchase);
  }

  /** The intent score of a single purchase by a purchasing customer: (5 + 10) * 5 = 75. */
  lemma IntentOfOnePurchase()
    ensures IntentScore(map[Purchase := 1], true) == 75
  {
    SumSingleton(Purchase, 1, WeightOf);
  }

  /** A purchasing customer scores at least 75: five points per purchase plus the bonus, times five. */
  lemma IntentOfPurchaser(counts: Counter)
    requires Get(counts, Purchase) > 0
    ensures IntentScore(counts, true) >= 75
  {
    SumPick(counts, WeightOf, Purchase);
  }
}
