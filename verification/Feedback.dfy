/** Learned category weights: what one signal adds, and what any history of signals amounts to. */
module Feedback {
  import opened Schema

  const MAX_QUARTERS := 20

  datatype Delta = Delta(quarters: int, clicks: nat, dismissals: nat, redemptions: nat)

  /** Weights move in quarters: +0.5 for a click, -0.75 for a dismissal, +1.5 for a redemption. */
  function FeedbackDelta(topic: Topic): Delta {
    match topic
    case RecommendationClicked => Delta(2, 1, 0, 0)
    case RecommendationDismissed => Delta(-3, 0, 1, 0)
    case RedemptionSucceeded => Delta(6, 0, 0, 1)
    case _ => Delta(0, 0, 0, 0)
  }

  predicate Signals(topic: Topic) {
    topic in {RecommendationClicked, RecommendationDismissed, RedemptionSucceeded}
  }

  function Clamp(q: int): int {
    if q < -MAX_QUARTERS then -MAX_QUARTERS else if q > MAX_QUARTERS then MAX_QUARTERS else q
  }

  function Row(weights: map<(Hash, string), Weight>, u: Hash, category: string): Option<Weight> {
    if (u, category) in weights then Some(weights[(u, category)]) else None
  }

  /** The upsert: a first signal is inserted as it is, a later one is added and clamped. */
  function Accumulate(prior: Option<Weight>, topic: Topic): Weight {
    var d := FeedbackDelta(topic);
    match prior
    case None => Weight(d.quarters, d.clicks, d.dismissals, d.redemptions)
    case Some(w) => Weight(Clamp(w.quarters + d.quarters), w.clicks + d.clicks, w.dismissals + d.dismissals,
        w.redemptions + d.redemptions)
  }

  /** The weights after one feedback event; None when the user or the offer row is missing. */
  function Learned(t: Tables, u: Hash, offer: Id, topic: Topic): Option<map<(Hash, string), Weight>> {
    if u == "" || offer == "" then None
    else if !Signals(topic) then Some(t.weights)
    else if u !in t.users || offer !in t.offers then None
    else
      var category := t.offers[offer].category;
      Some(t.weights[(u, category) := Accumulate(Row(t.weights, u, category), topic)])
  }

  /** 5 in either direction is the most a weight can be. */
  lemma ClampedToFive(q: int)
    ensures -20 <= Clamp(q) <= 20
    ensures -20 <= q <= 20 ==> Clamp(q) == q
    ensures q > 20 ==> Clamp(q) == 20
    ensures q < -20 ==> Clamp(q) == -20
  {
  }

  /** What one signal does to a weight: 0.5 up for a click, 0.75 down for a dismissal, 1.5 up for a
      redemption, each counted, and nothing for anything else. */
  lemma OneSignal(w: Weight)
    ensures Accumulate(None, RecommendationClicked) == Weight(2, 1, 0, 0)
    ensures Accumulate(None, RecommendationDismissed) == Weight(-3, 0, 1, 0)
    ensures Accumulate(None, RedemptionSucceeded) == Weight(6, 0, 0, 1)
    ensures Accumulate(Some(w), RecommendationClicked) ==
      Weight(Clamp(w.quarters + 2), w.clicks + 1, w.dismissals, w.redemptions)
    ensures Accumulate(Some(w), RecommendationDismissed) ==
      Weight(Clamp(w.quarters - 3), w.clicks, w.dismissals + 1, w.redemptions)
    ensures Accumulate(Some(w), RedemptionSucceeded) ==
      Weight(Clamp(w.quarters + 6), w.clicks, w.dismissals, w.redemptions + 1)
    ensures forall topic | topic != RecommendationClicked && topic != RecommendationDismissed
        && topic != RedemptionSucceeded :: FeedbackDelta(topic) == Delta(0, 0, 0, 0)
  {
  }

  /** A signal moves the row of that user in the category of that offer, and no other. */
  lemma SignalMoves(t: Tables, u: Hash, offer: Id, topic: Topic)
    requires u != "" && offer != ""
    ensures topic == RecommendationClicked || topic == RecommendationDismissed || topic == RedemptionSucceeded ==>
      && (Learned(t, u, offer, topic).Some? <==> u in t.users && offer in t.offers)
      && (Learned(t, u, offer, topic).Some? ==>
        var k := (u, t.offers[offer].category); var weights := Learned(t, u, offer, topic).value;
        weights == t.weights[k := Accumulate(if k in t.weights then Some(t.weights[k]) else None, topic)])
    ensures topic != RecommendationClicked && topic != RecommendationDismissed && topic != RedemptionSucceeded ==>
      Learned(t, u, offer, topic) == Some(t.weights)
  {
  }

  // ---------------------------------------------------------------- histories of one (user, category)

  function After(history: seq<Topic>): (w: Option<Weight>)
    ensures w == None <==> history == []
  {
    if history == [] then None
    else Some(Accumulate(After(history[..|history| - 1]), history[|history| - 1]))
  }

  function PlainSum(history: seq<Topic>): int {
    if history == [] then 0
    else PlainSum(history[..|history| - 1]) + FeedbackDelta(history[|history| - 1]).quarters
  }

  function Count(history: seq<Topic>, topic: Topic): nat {
    if history == [] then 0
    else Count(history[..|history| - 1], topic) + (if history[|history| - 1] == topic then 1 else 0)
  }

  predicate InRange(q: int) {
    -MAX_QUARTERS <= q <= MAX_QUARTERS
  }

  function Quarters(history: seq<Topic>): int {
    match After(history) case None => 0 case Some(w) => w.quarters
  }

  /** Whatever happened, in whatever order: the weight is in [-5, 5], it lies between what the
      dismissals alone and what the clicks and redemptions alone would make it, and the counters
      are exact. */
  lemma {:induction false} WeightBounds(history: seq<Topic>)
    requires history != []
    ensures var w := After(history).value;
      && InRange(w.quarters)
      && -3 * w.dismissals <= w.quarters <= 2 * w.clicks + 6 * w.redemptions
      && w.clicks == Count(history, RecommendationClicked)
      && w.dismissals == Count(history, RecommendationDismissed)
      && w.redemptions == Count(history, RedemptionSucceeded)
  {
    var before := history[..|history| - 1];
    if before != [] {
      WeightBounds(before);
    }
  }

  /** The weight is the plain sum at every point of a history exactly when no prefix saturates. */
  lemma {:induction false} PlainWhileUnsaturated(history: seq<Topic>)
    ensures (forall n | 0 <= n <= |history| :: Quarters(history[..n]) == PlainSum(history[..n]))
      <==> (forall n | 0 <= n <= |history| :: InRange(PlainSum(history[..n])))
  {
    if forall n | 0 <= n <= |history| :: InRange(PlainSum(history[..n])) {
      forall n | 0 <= n <= |history| ensures Quarters(history[..n]) == PlainSum(history[..n]) {
        Unsaturated(history[..n], history);
      }
    }
    if forall n | 0 <= n <= |history| :: Quarters(history[..n]) == PlainSum(history[..n]) {
      forall n | 0 <= n <= |history| ensures InRange(PlainSum(history[..n])) {
        if n > 0 {
          WeightBounds(history[..n]);
        }
      }
    }
  }

  lemma {:induction false} Unsaturated(prefix: seq<Topic>, history: seq<Topic>)
    requires prefix <= history
    requires forall n | 0 <= n <= |history| :: InRange(PlainSum(history[..n]))
    ensures Quarters(prefix) == PlainSum(prefix)
  {
    if prefix != [] {
      var shorter := prefix[..|prefix| - 1];
      assert shorter == history[..|shorter|];
      Unsaturated(shorter, history);
      assert prefix == history[..|prefix|];
      assert InRange(PlainSum(history[..|prefix|]));
    }
  }
}
