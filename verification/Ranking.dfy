/** Scoring and ordering of recalled offers. Scores are exact; `norm` is the program's trimming and
    lower-casing of category names. */
module Ranking {
  import opened Schema

  type Norm = string -> string

  datatype Preference = Preference(destination: Id, categories: seq<string>, weights: map<string, real>,
      budgetMin: int, budgetMax: int)

  /** A point of the vector search: the offer id of its payload, its own id, and its score. */
  datatype Point = Point(payload: Id, id: Id, score: real)

  datatype Hit = Hit(offer: Id, score: real)

  /** The named points, in recall order. */
  function Hits(points: seq<Point>): (hits: seq<Hit>)
    ensures forall h | h in hits :: h.offer != ""
  {
    if points == [] then []
    else
      var id := if points[0].payload == "" then points[0].id else points[0].payload;
      (if id == "" then [] else [Hit(id, points[0].score)]) + Hits(points[1..])
  }

  /** A point stands for the offer its payload names, or else for its own id; without either it is skipped. */
  lemma HitOfPoint(p: Point)
    ensures Hits([p]) ==
      if p.payload != "" then [Hit(p.payload, p.score)] else if p.id != "" then [Hit(p.id, p.score)] else []
  {
    assert [p][1..] == [];
  }

  lemma {:induction false} HitsJoin(a: seq<Point>, b: seq<Point>)
    ensures Hits(a + b) == Hits(a) + Hits(b)
  {
    if a == [] {
      assert a + b == b;
    } else {
      assert (a + b)[1..] == a[1..] + b;
      HitsJoin(a[1..], b);
    }
  }

  /** What one call ranks against. */
  datatype View = View(tables: Tables, user: Hash, balance: int, station: Id, preference: Preference, now: int,
      norm: Norm)

  // ---------------------------------------------------------------- rejections and signals

  predicate Rejection(reason: string) {
    (|reason| >= 14 && reason[..14] == "offer_inactive") || reason == "out_of_stock" || reason == "insufficient_points"
  }

  /** A prefix and two words. */
  lemma RejectingReasons(reason: string)
    ensures Rejection(reason)
      <==> "offer_inactive" <= reason || reason == "out_of_stock" || reason == "insufficient_points"
  {
    var prefix := "offer_inactive";
    assert |prefix| == 14;
    assert prefix <= reason ==> reason[..14] == prefix;
  }

  predicate ContainsRejection(reasons: seq<string>) {
    exists i | 0 <= i < |reasons| :: Rejection(reasons[i])
  }

  predicate MatchesPreferred(norm: Norm, category: string, preferred: seq<string>) {
    norm(category) != "" && exists i | 0 <= i < |preferred| :: norm(preferred[i]) == norm(category)
  }

  /** What the query finds: offers at the station with an inventory row, not yet redeemed by the user. */
  predicate Visible(v: View, offer: Id) {
    && offer in v.tables.offers && v.tables.offers[offer].station == v.station && offer in v.tables.inventory
    && !Holds(v.tables.redemptions, v.user, offer)
  }

  function LearnedWeight(v: View, category: string): real {
    if v.norm(category) in v.preference.weights then v.preference.weights[v.norm(category)] else 0.0
  }

  predicate Near(v: View, o: Offer) {
    o.station == v.preference.destination && v.preference.destination != ""
  }

  predicate InBudget(v: View, o: Offer) {
    v.preference.budgetMin <= o.cost <= v.preference.budgetMax
  }

  predicate Urgent(stock: Stock) {
    0 < stock.available <= 5
  }

  function Rejections(v: View, o: Offer, stock: Stock): seq<string> {
    (if !o.active || v.now < o.startsAt || v.now >= o.endsAt then ["offer_inactive_or_expired"] else [])
    + (if stock.available == 0 then ["out_of_stock"] else [])
    + (if o.cost > v.balance then ["insufficient_points"] else [])
  }

  function PlainSignals(v: View, o: Offer, stock: Stock): seq<string> {
    (if Near(v, o) then ["near_predicted_destination"] else [])
    + (if InBudget(v, o) then ["within_budget"] else [])
    + (if Urgent(stock) then ["inventory_urgency"] else [])
  }

  function PersonalSignals(v: View, o: Offer): seq<string> {
    (if MatchesPreferred(v.norm, o.category, v.preference.categories) then ["preferred_category"] else [])
    + (var w := LearnedWeight(v, o.category);
      if w == 0.0 then [] else if w > 0.0 then ["learned_category_preference"] else ["learned_category_avoidance"])
  }

  function Signals(v: View, o: Offer, stock: Stock): seq<string> {
    PlainSignals(v, o, stock) + PersonalSignals(v, o)
  }

  function PlainBonus(v: View, o: Offer, stock: Stock): real {
    (if Near(v, o) then 0.20 else 0.0) + (if InBudget(v, o) then 0.10 else 0.0) + (if Urgent(stock) then 0.05 else 0.0)
  }

  function PersonalBonus(v: View, o: Offer): real {
    (if MatchesPreferred(v.norm, o.category, v.preference.categories) then 0.10 else 0.0)
        + LearnedWeight(v, o.category) * 0.05
  }

  function Bonus(v: View, o: Offer, stock: Stock): real {
    PlainBonus(v, o, stock) + PersonalBonus(v, o)
  }

  /** Whether the offer can be taken: open, in stock and affordable. */
  predicate Takeable(v: View, o: Offer, stock: Stock) {
    o.active && o.startsAt <= v.now < o.endsAt && stock.available != 0 && o.cost <= v.balance
  }

  function Assess(v: View, h: Hit, o: Offer, stock: Stock): Candidate {
    var reasons := Rejections(v, o, stock) + Signals(v, o, stock);
    Candidate(h.offer, o.title, o.description, o.station, o.cost, h.score, h.score + Bonus(v, o, stock),
        Takeable(v, o, stock),
        if Takeable(v, o, stock) then reasons + ["within_points"] else reasons)
  }

  function Evaluate(v: View, h: Hit): Candidate {
    if Visible(v, h.offer) then Assess(v, h, v.tables.offers[h.offer], v.tables.inventory[h.offer])
    else Candidate(h.offer, "", "", "", 0, h.score, h.score, false, ["stale_candidate"])
  }

  function EvaluateAll(v: View, hits: seq<Hit>): (r: seq<Candidate>)
    ensures |r| == |hits| && forall i | 0 <= i < |hits| :: r[i] == Evaluate(v, hits[i])
  {
    seq(|hits|, i requires 0 <= i < |hits| => Evaluate(v, hits[i]))
  }

  lemma RejectionIn(a: seq<string>, b: seq<string>)
    ensures ContainsRejection(a + b) <==> ContainsRejection(a) || ContainsRejection(b)
  {
    if ContainsRejection(a + b) {
      var i :| 0 <= i < |a + b| && Rejection((a + b)[i]);
      assert if i < |a| then Rejection(a[i]) else Rejection(b[i - |a|]);
    }
    if ContainsRejection(a) {
      var i :| 0 <= i < |a| && Rejection(a[i]);
      assert (a + b)[i] == a[i];
    }
    if ContainsRejection(b) {
      var i :| 0 <= i < |b| && Rejection(b[i]);
      assert (a + b)[|a| + i] == b[i];
    }
  }

  predicate Signal(reason: string) {
    reason in {"near_predicted_destination", "within_budget", "inventory_urgency", "preferred_category",
      "learned_category_preference", "learned_category_avoidance"}
  }

  lemma SignalsDoNotReject(v: View, o: Offer, stock: Stock)
    ensures !ContainsRejection(Signals(v, o, stock))
  {
    var all := Signals(v, o, stock);
    forall i | 0 <= i < |all| ensures !Rejection(all[i]) {
      assert Signal(all[i]);
      assert all[i][0] != 'o';
      assert all[i] != "insufficient_points" by {
        assert |"insufficient_points"| == 19 && "insufficient_points"[2] == 's';
      }
    }
  }

  /** The scan over the reason strings finds a rejection exactly when the offer cannot be taken: no
      signal is ever mistaken for one. */
  lemma RejectedIffNotTakeable(v: View, o: Offer, stock: Stock)
    ensures ContainsRejection(Rejections(v, o, stock) + Signals(v, o, stock)) <==> !Takeable(v, o, stock)
  {
    var rs := Rejections(v, o, stock);
    RejectionIn(rs, Signals(v, o, stock));
    SignalsDoNotReject(v, o, stock);
    if !Takeable(v, o, stock) {
      assert Rejection(rs[0]);
    } else {
      assert rs == [];
    }
  }

  // ---------------------------------------------------------------- the order

  /** Byte order of Go strings, which on UTF-8 is the order of the runes. */
  predicate StringLe(a: string, b: string)
    decreases |a|
  {
    a == "" || (b != "" && (a[0] < b[0] || (a[0] == b[0] && StringLe(a[1..], b[1..]))))
  }

  lemma {:induction false} StringTotal(a: string, b: string)
    ensures StringLe(a, b) || StringLe(b, a)
    decreases |a|
  {
    if a != "" && b != "" && a[0] == b[0] {
      StringTotal(a[1..], b[1..]);
    }
  }

  lemma {:induction false} StringAntisymmetric(a: string, b: string)
    requires StringLe(a, b) && StringLe(b, a)
    ensures a == b
    decreases |a|
  {
    if a != "" {
      StringAntisymmetric(a[1..], b[1..]);
      assert a == [a[0]] + a[1..] && b == [b[0]] + b[1..];
    }
  }

  lemma {:induction false} StringTransitive(a: string, b: string, c: string)
    requires StringLe(a, b) && StringLe(b, c)
    ensures StringLe(a, c)
    decreases |a|
  {
    if a != "" && a[0] == b[0] && b[0] == c[0] {
      StringTransitive(a[1..], b[1..], c[1..]);
    }
  }

  /** Score descending, then offer id ascending. */
  predicate Before(a: Candidate, b: Candidate) {
    a.score > b.score || (a.score == b.score && StringLe(a.offer, b.offer))
  }

  predicate Ordered(s: seq<Candidate>) {
    forall i, j | 0 <= i < j < |s| :: Before(s[i], s[j])
  }

  function Insert(c: Candidate, s: seq<Candidate>): (r: seq<Candidate>)
    ensures multiset(r) == multiset(s) + multiset{c}
  {
    if s == [] || Before(c, s[0]) then
      [c] + s
    else
      assert s == [s[0]] + s[1..];
      [s[0]] + Insert(c, s[1..])
  }

  /** The stable sort. */
  function Rank(s: seq<Candidate>): (r: seq<Candidate>)
    ensures multiset(r) == multiset(s)
  {
    if s == [] then []
    else
      assert s == [s[0]] + s[1..];
      Insert(s[0], Rank(s[1..]))
  }

  lemma {:induction false} InsertKeepsOrder(c: Candidate, s: seq<Candidate>)
    requires Ordered(s)
    ensures Ordered(Insert(c, s))
  {
    if s == [] {
    } else if Before(c, s[0]) {
      forall j | 0 <= j < |s| ensures Before(c, s[j]) {
        BeforeTransitive(c, s[0], s[j]);
      }
    } else {
      var rest := Insert(c, s[1..]);
      InsertKeepsOrder(c, s[1..]);
      forall x | x in rest ensures Before(s[0], x) {
        assert x in multiset(rest);
        StringTotal(c.offer, s[0].offer);
        assert x == c || x in s[1..];
      }
    }
  }

  lemma BeforeTransitive(a: Candidate, b: Candidate, c: Candidate)
    requires Before(a, b) && (b == c || Before(b, c))
    ensures Before(a, c)
  {
    if a.score == b.score == c.score && b != c {
      StringTransitive(a.offer, b.offer, c.offer);
    }
  }

  lemma {:induction false} RankIsOrdered(s: seq<Candidate>)
    ensures Ordered(Rank(s))
  {
    if s != [] {
      RankIsOrdered(s[1..]);
      InsertKeepsOrder(s[0], Rank(s[1..]));
    }
  }

  /** Ranked alike only if identical. */
  predicate TiesIdentical(s: seq<Candidate>) {
    forall a, b | a in s && b in s && a.score == b.score && a.offer == b.offer :: a == b
  }

  /** Two orderings of the same candidates are the same list. */
  lemma {:induction false} OrderedIsUnique(a: seq<Candidate>, b: seq<Candidate>)
    requires Ordered(a) && Ordered(b) && multiset(a) == multiset(b) && TiesIdentical(a)
    ensures a == b
    decreases |a|
  {
    assert |a| == |multiset(a)| == |b|;
    if a != [] {
      HeadsAgree(a, b);
      assert a == [a[0]] + a[1..] && b == [b[0]] + b[1..];
      assert multiset(a[1..]) == multiset(a) - multiset{a[0]} == multiset(b[1..]);
      OrderedIsUnique(a[1..], b[1..]);
    }
  }

  lemma HeadsAgree(a: seq<Candidate>, b: seq<Candidate>)
    requires Ordered(a) && Ordered(b) && multiset(a) == multiset(b) && TiesIdentical(a) && a != [] && b != []
    ensures a[0] == b[0]
  {
    assert a[0] in multiset(b) && b[0] in multiset(a);
    assert a[0] == b[0] || (Before(a[0], b[0]) && Before(b[0], a[0]));
    if a[0] != b[0] {
      StringAntisymmetric(a[0].offer, b[0].offer);
    }
  }

  /** Evaluations of equal rank are identical: the score is the vector score plus what the offer alone
      decides. */
  lemma EvaluationsTie(v: View, hits: seq<Hit>)
    ensures TiesIdentical(EvaluateAll(v, hits))
  {
    var cs := EvaluateAll(v, hits);
    forall a, b | a in cs && b in cs && a.score == b.score && a.offer == b.offer ensures a == b {
      var i :| 0 <= i < |cs| && cs[i] == a;
      var j :| 0 <= j < |cs| && cs[j] == b;
      assert a == Evaluate(v, hits[i]) && b == Evaluate(v, hits[j]) && hits[i].offer == hits[j].offer;
      if Visible(v, hits[i].offer) {
        var o, stock := v.tables.offers[hits[i].offer], v.tables.inventory[hits[i].offer];
        assert a == Assess(v, hits[i], o, stock) && b == Assess(v, hits[j], o, stock);
        assert hits[i].score == a.score - Bonus(v, o, stock) == hits[j].score;
      }
    }
  }

  /** Any ordered permutation of the evaluations is the ranking. */
  lemma RankingIsTheOnlyOrder(v: View, hits: seq<Hit>, sorted: seq<Candidate>)
    requires Ordered(sorted) && multiset(sorted) == multiset(EvaluateAll(v, hits))
    ensures sorted == Rank(EvaluateAll(v, hits))
  {
    var cs := EvaluateAll(v, hits);
    RankIsOrdered(cs);
    EvaluationsTie(v, hits);
    forall c | c in sorted ensures c in cs {
      assert c in multiset(sorted);
    }
    OrderedIsUnique(sorted, Rank(cs));
  }

  lemma Without(s: seq<Hit>, k: nat)
    requires k < |s|
    ensures multiset(s[..k] + s[k + 1..]) == multiset(s) - multiset{s[k]}
  {
    assert s == s[..k] + [s[k]] + s[k + 1..];
  }

  lemma EvaluateWithout(v: View, s: seq<Hit>, k: nat)
    requires k < |s|
    ensures multiset(EvaluateAll(v, s)) == multiset(EvaluateAll(v, s[..k] + s[k + 1..])) + multiset{Evaluate(v, s[k])}
  {
    var all := EvaluateAll(v, s);
    assert EvaluateAll(v, s[..k] + s[k + 1..]) == all[..k] + all[k + 1..];
    assert all == all[..k] + [all[k]] + all[k + 1..];
  }

  lemma {:induction false} EvaluationsPermute(v: View, a: seq<Hit>, b: seq<Hit>)
    requires multiset(a) == multiset(b)
    ensures multiset(EvaluateAll(v, a)) == multiset(EvaluateAll(v, b))
    decreases |a|
  {
    assert |a| == |multiset(a)| == |multiset(b)| == |b|;
    if a != [] {
      assert a[0] in multiset(b);
      var k :| 0 <= k < |b| && b[k] == a[0];
      Without(a, 0);
      Without(b, k);
      EvaluateWithout(v, a, 0);
      EvaluateWithout(v, b, k);
      EvaluationsPermute(v, a[..0] + a[1..], b[..k] + b[k + 1..]);
    }
  }

  /** The ranking does not depend on recall order, even with repeated offers. */
  lemma RankingIsCanonical(v: View, a: seq<Hit>, b: seq<Hit>)
    requires multiset(a) == multiset(b)
    ensures Rank(EvaluateAll(v, a)) == Rank(EvaluateAll(v, b))
  {
    EvaluationsPermute(v, a, b);
    RankIsOrdered(EvaluateAll(v, a));
    RankingIsTheOnlyOrder(v, b, Rank(EvaluateAll(v, a)));
  }

  // ---------------------------------------------------------------- the choice

  /** Position of the first eligible candidate; the length if there is none. */
  function Chosen(cs: seq<Candidate>): (i: nat)
    ensures i <= |cs| && (i < |cs| ==> cs[i].eligible) && forall j | 0 <= j < i :: !cs[j].eligible
  {
    if cs == [] || cs[0].eligible then 0
    else
      var i := Chosen(cs[1..]);
      assert forall j | 1 <= j < i + 1 :: cs[j] == cs[1..][j - 1];
      i + 1
  }

  lemma FirstIsBest(cs: seq<Candidate>, c: Candidate)
    requires Ordered(cs) && c in cs && c.eligible
    ensures Chosen(cs) < |cs| && (c == cs[Chosen(cs)] || Before(cs[Chosen(cs)], c))
  {
    var j :| 0 <= j < |cs| && cs[j] == c;
    assert Chosen(cs) <= j;
  }

  lemma Ranked(v: View, hits: seq<Hit>, c: Candidate)
    ensures c in Rank(EvaluateAll(v, hits)) <==> exists h | h in hits :: c == Evaluate(v, h)
  {
    var all := EvaluateAll(v, hits);
    assert c in Rank(all) <==> c in multiset(all);
    assert c in multiset(all) <==> c in all;
    if c in all {
      var k :| 0 <= k < |all| && all[k] == c;
      assert hits[k] in hits && c == Evaluate(v, hits[k]);
    }
    if h :| h in hits && c == Evaluate(v, h) {
      var k :| 0 <= k < |hits| && hits[k] == h;
      assert all[k] == c;
    }
  }

  /** The query finds the offer: at the station, with an inventory row, not redeemed by the user. */
  predicate Found(v: View, offer: Id) {
    && offer in v.tables.offers && offer in v.tables.inventory && v.tables.offers[offer].station == v.station
    && (forall id | id in v.tables.redemptions :: var row := v.tables.redemptions[id];
      row.user != v.user || row.offer != offer || (row.status != Succeeded && row.status != Verified))
  }

  lemma FoundIffVisible(v: View, offer: Id)
    ensures Found(v, offer) <==> Visible(v, offer)
  {
    if Holds(v.tables.redemptions, v.user, offer) {
      var id :| id in v.tables.redemptions && Redeems(v.tables.redemptions[id], v.user, offer);
      assert !Found(v, offer);
    } else {
      forall id | id in v.tables.redemptions
        ensures var row := v.tables.redemptions[id];
          row.user != v.user || row.offer != offer || (row.status != Succeeded && row.status != Verified)
      {
        assert !Redeems(v.tables.redemptions[id], v.user, offer);
      }
    }
  }

  /** The user could take the offer at this station now. */
  predicate CanTake(v: View, offer: Id) {
    && Found(v, offer)
    && var o := v.tables.offers[offer];
      o.active && o.startsAt <= v.now && v.now < o.endsAt && v.tables.inventory[offer].available != 0
        && o.cost <= v.balance
  }

  lemma TakenIffCanTake(v: View, offer: Id)
    ensures CanTake(v, offer)
      <==> Visible(v, offer) && Takeable(v, v.tables.offers[offer], v.tables.inventory[offer])
  {
    FoundIffVisible(v, offer);
  }

  /** The chosen offer is a recalled one that this user can take now. */
  lemma ChosenIsTakeable(v: View, hits: seq<Hit>)
    requires var cs := Rank(EvaluateAll(v, hits)); Chosen(cs) < |cs|
    ensures var cs := Rank(EvaluateAll(v, hits)); var c := cs[Chosen(cs)];
      exists h | h in hits :: c == Evaluate(v, h) && CanTake(v, h.offer)
  {
    var cs := Rank(EvaluateAll(v, hits));
    var c := cs[Chosen(cs)];
    Ranked(v, hits, c);
    var h :| h in hits && c == Evaluate(v, h);
    TakenIffCanTake(v, h.offer);
  }

  /** A recalled offer that the user can take is chosen, or ranks behind the chosen one. */
  lemma ChosenIsBest(v: View, hits: seq<Hit>, h: Hit)
    requires h in hits && CanTake(v, h.offer)
    ensures var cs := Rank(EvaluateAll(v, hits)); var c := Evaluate(v, h);
      && Chosen(cs) < |cs|
      && (c == cs[Chosen(cs)] || cs[Chosen(cs)].score > c.score
          || (cs[Chosen(cs)].score == c.score && StringLe(cs[Chosen(cs)].offer, c.offer)))
  {
    TakenIffCanTake(v, h.offer);
    Ranked(v, hits, Evaluate(v, h));
    RankIsOrdered(EvaluateAll(v, hits));
    FirstIsBest(Rank(EvaluateAll(v, hits)), Evaluate(v, h));
  }

  // ---------------------------------------------------------------- what raises an offer

  /** What the ranking looks at in an offer besides its vector score. */
  datatype Traits = Traits(near: bool, inBudget: bool, urgent: bool, preferred: bool, learned: real)

  function TraitsOf(v: View, offer: Id): Traits
    requires offer in v.tables.offers && offer in v.tables.inventory
  {
    var o, left, p := v.tables.offers[offer], v.tables.inventory[offer].available, v.preference;
    var category := v.norm(o.category);
    Traits(p.destination != "" && p.destination == o.station, p.budgetMin <= o.cost && o.cost <= p.budgetMax,
      left > 0 && left <= 5, category != "" && exists x :: x in p.categories && v.norm(x) == category,
      if category in p.weights then p.weights[category] else 0.0)
  }

  lemma TraitsMatch(v: View, offer: Id)
    requires offer in v.tables.offers && offer in v.tables.inventory
    ensures var o, stock, a := v.tables.offers[offer], v.tables.inventory[offer], TraitsOf(v, offer);
      && (Near(v, o) <==> a.near) && (InBudget(v, o) <==> a.inBudget) && (Urgent(stock) <==> a.urgent)
      && (MatchesPreferred(v.norm, o.category, v.preference.categories) <==> a.preferred)
      && LearnedWeight(v, o.category) == a.learned
  {
    var o, p := v.tables.offers[offer], v.preference.categories;
    if x :| x in p && v.norm(x) == v.norm(o.category) {
      var i :| 0 <= i < |p| && p[i] == x;
      assert v.norm(p[i]) == v.norm(o.category);
    }
  }

  /** The score of a found offer is its vector score and five adjustments. */
  lemma ScoreAdjusted(v: View, h: Hit)
    requires Found(v, h.offer)
    ensures var c, a := Evaluate(v, h), TraitsOf(v, h.offer);
      && c.vector == h.score
      && c.score - h.score == (if a.near then 0.20 else 0.0) + (if a.inBudget then 0.10 else 0.0)
        + (if a.urgent then 0.05 else 0.0) + (if a.preferred then 0.10 else 0.0) + a.learned * 0.05
  {
    FoundIffVisible(v, h.offer);
    TraitsMatch(v, h.offer);
  }

  /** What a candidate says of its offer, and when it is eligible. */
  lemma CandidateOf(v: View, h: Hit)
    ensures var c := Evaluate(v, h);
      && c.offer == h.offer && (c.eligible <==> CanTake(v, h.offer))
      && (Found(v, h.offer) ==>
        var o := v.tables.offers[h.offer];
        && c.title == o.title && c.description == o.description && c.station == o.station && c.cost == o.cost)
      && (!Found(v, h.offer) ==> c == Candidate(h.offer, "", "", "", 0, h.score, h.score, false, ["stale_candidate"]))
  {
    FoundIffVisible(v, h.offer);
    TakenIffCanTake(v, h.offer);
  }

  /** The reasons of a found offer, in the order of the code. */
  lemma ReasonsGiven(v: View, h: Hit)
    requires Found(v, h.offer)
    ensures var o, stock, a := v.tables.offers[h.offer], v.tables.inventory[h.offer], TraitsOf(v, h.offer);
      var against :=
        (if !o.active || v.now < o.startsAt || v.now >= o.endsAt then ["offer_inactive_or_expired"] else [])
        + (if stock.available == 0 then ["out_of_stock"] else [])
        + (if o.cost > v.balance then ["insufficient_points"] else []);
      var plain := (if a.near then ["near_predicted_destination"] else [])
        + (if a.inBudget then ["within_budget"] else []) + (if a.urgent then ["inventory_urgency"] else []);
      var personal := (if a.preferred then ["preferred_category"] else [])
        + (if a.learned == 0.0 then []
          else if a.learned > 0.0 then ["learned_category_preference"] else ["learned_category_avoidance"]);
      Evaluate(v, h).reasons ==
        against + (plain + personal) + (if CanTake(v, h.offer) then ["within_points"] else [])
  {
    FoundIffVisible(v, h.offer);
    TakenIffCanTake(v, h.offer);
    TraitsMatch(v, h.offer);
    if !CanTake(v, h.offer) {
      var rs := Rejections(v, v.tables.offers[h.offer], v.tables.inventory[h.offer])
        + Signals(v, v.tables.offers[h.offer], v.tables.inventory[h.offer]);
      assert rs + [] == rs;
    }
  }

  /** Better in one respect, and the same in the others. */
  predicate BetterInOne(a: Traits, b: Traits) {
    || (a.near && !b.near && a.(near := false) == b)
    || (a.inBudget && !b.inBudget && a.(inBudget := false) == b)
    || (a.urgent && !b.urgent && a.(urgent := false) == b)
    || (a.preferred && !b.preferred && a.(preferred := false) == b)
    || (a.learned > b.learned && a.(learned := b.learned) == b)
  }

  lemma HigherStandsFirst(cs: seq<Candidate>, a: Candidate, b: Candidate)
    requires Ordered(cs) && a in cs && a.eligible && a.score > b.score
    ensures forall i, j | 0 <= i < |cs| && 0 <= j < |cs| && cs[i] == a && cs[j] == b :: i < j
    ensures Chosen(cs) < |cs| && cs[Chosen(cs)] != b
  {
    FirstIsBest(cs, a);
    forall i, j | 0 <= i < |cs| && 0 <= j < |cs| && cs[i] == a && cs[j] == b ensures i < j {
      assert !Before(b, a) && a != b;
    }
  }

  /** Of two offers with equal vector scores that the user could take, the one that is better in one
      respect, be it the destination, the budget, the urgency, the preference or the learned weight,
      stands first, and the other is not chosen. */
  lemma BetterStandsFirst(v: View, hits: seq<Hit>, g: Hit, h: Hit)
    requires g in hits && h in hits && g.score == h.score && CanTake(v, g.offer) && CanTake(v, h.offer)
    requires BetterInOne(TraitsOf(v, g.offer), TraitsOf(v, h.offer))
    ensures var cs := Rank(EvaluateAll(v, hits));
      && Evaluate(v, g) in cs && Evaluate(v, h) in cs
      && (forall i, j | 0 <= i < |cs| && 0 <= j < |cs| && cs[i] == Evaluate(v, g) && cs[j] == Evaluate(v, h) :: i < j)
      && Chosen(cs) < |cs| && cs[Chosen(cs)] != Evaluate(v, h)
  {
    ScoreAdjusted(v, g);
    ScoreAdjusted(v, h);
    CandidateOf(v, g);
    Ranked(v, hits, Evaluate(v, g));
    Ranked(v, hits, Evaluate(v, h));
    RankIsOrdered(EvaluateAll(v, hits));
    HigherStandsFirst(Rank(EvaluateAll(v, hits)), Evaluate(v, g), Evaluate(v, h));
  }

  /** The list is ordered by score, highest first, and by offer id where scores are equal. */
  lemma RankingIsByScore(v: View, hits: seq<Hit>)
    ensures var cs := Rank(EvaluateAll(v, hits));
      forall i, j | 0 <= i < j < |cs| ::
        cs[i].score >= cs[j].score && (cs[i].score == cs[j].score ==> StringLe(cs[i].offer, cs[j].offer))
  {
    RankIsOrdered(EvaluateAll(v, hits));
  }

  /** The first rune in which two strings differ decides, and a prefix comes first. */
  lemma {:induction false} StringsByRunes(p: string, a: string, b: string)
    requires a == "" || (b != "" && a[0] < b[0])
    ensures StringLe(p + a, p + b) && (a != b ==> !StringLe(p + b, p + a))
    decreases |p|
  {
    if p == "" {
      assert p + a == a && p + b == b;
    } else {
      assert (p + a)[1..] == p[1..] + a && (p + b)[1..] == p[1..] + b;
      StringsByRunes(p[1..], a, b);
    }
  }

  // ---------------------------------------------------------------- the scans

  method MatchesPreferredCategory(norm: Norm, category: string, preferred: seq<string>) returns (found: bool)
    ensures found <==> MatchesPreferred(norm, category, preferred)
  {
    var wanted := norm(category);
    if wanted == "" {
      return false;
    }
    for i := 0 to |preferred|
      invariant forall j | 0 <= j < i :: norm(preferred[j]) != wanted
    {
      if wanted == norm(preferred[i]) {
        return true;
      }
    }
    found := false;
  }

  method ScanRejection(reasons: seq<string>) returns (found: bool)
    ensures found <==> ContainsRejection(reasons)
  {
    for i := 0 to |reasons|
      invariant forall j | 0 <= j < i :: !Rejection(reasons[j])
    {
      if (|reasons[i]| >= 14 && reasons[i][..14] == "offer_inactive") || reasons[i] == "out_of_stock"
          || reasons[i] == "insufficient_points" {
        return true;
      }
    }
    found := false;
  }

  /** The adjustments to one found candidate, reason by reason. */
  method Adjust(v: View, h: Hit, o: Offer, stock: Stock) returns (c: Candidate)
    ensures c == Assess(v, h, o, stock)
  {
    var reasons: seq<string>, score := [], h.score;
    if !o.active || v.now < o.startsAt || v.now >= o.endsAt {
      reasons := reasons + ["offer_inactive_or_expired"];
    }
    if stock.available == 0 {
      reasons := reasons + ["out_of_stock"];
    }
    if o.cost > v.balance {
      reasons := reasons + ["insufficient_points"];
    }
    assert reasons == Rejections(v, o, stock);
    ghost var signals: seq<string>;
    score, reasons, signals := Boost(v, o, stock, score, reasons);
    var rejected := ScanRejection(reasons);
    RejectedIffNotTakeable(v, o, stock);
    if !rejected {
      reasons := reasons + ["within_points"];
    }
    c := Candidate(h.offer, o.title, o.description, o.station, o.cost, h.score, score, !rejected, reasons);
  }

  method Boost(v: View, o: Offer, stock: Stock, score0: real, reasons0: seq<string>)
    returns (score: real, reasons: seq<string>, ghost signals: seq<string>)
    ensures score == score0 + Bonus(v, o, stock) && signals == Signals(v, o, stock) && reasons == reasons0 + signals
  {
    var added: seq<string> := [];
    score := score0;
    if o.station == v.preference.destination && v.preference.destination != "" {
      score, added := score + 0.20, added + ["near_predicted_destination"];
    }
    if o.cost >= v.preference.budgetMin && o.cost <= v.preference.budgetMax {
      score, added := score + 0.10, added + ["within_budget"];
    }
    if stock.available > 0 && stock.available <= 5 {
      score, added := score + 0.05, added + ["inventory_urgency"];
    }
    assert added == PlainSignals(v, o, stock) && score == score0 + PlainBonus(v, o, stock);
    score, added := Personalize(v, o, score, added);
    reasons, signals := reasons0 + added, added;
  }

  method Personalize(v: View, o: Offer, score0: real, reasons0: seq<string>) returns (score: real, reasons: seq<string>)
    ensures score == score0 + PersonalBonus(v, o) && reasons == reasons0 + PersonalSignals(v, o)
  {
    score, reasons := score0, reasons0;
    var preferred := MatchesPreferredCategory(v.norm, o.category, v.preference.categories);
    if preferred {
      score, reasons := score + 0.10, reasons + ["preferred_category"];
    }
    var weight := LearnedWeight(v, o.category);
    if weight != 0.0 {
      score := score + weight * 0.05;
      if weight > 0.0 {
        reasons := reasons + ["learned_category_preference"];
      } else {
        reasons := reasons + ["learned_category_avoidance"];
      }
    }
  }

  method EvaluateHits(v: View, hits: seq<Hit>) returns (evaluations: seq<Candidate>)
    ensures evaluations == EvaluateAll(v, hits)
  {
    evaluations := [];
    for i := 0 to |hits|
      invariant |evaluations| == i
      invariant forall j | 0 <= j < i :: evaluations[j] == Evaluate(v, hits[j])
    {
      var h := hits[i];
      if !Visible(v, h.offer) {
        evaluations := evaluations + [Candidate(h.offer, "", "", "", 0, h.score, h.score, false, ["stale_candidate"])];
      } else {
        var c := Adjust(v, h, v.tables.offers[h.offer], v.tables.inventory[h.offer]);
        evaluations := evaluations + [c];
      }
    }
  }
}
