/** The gateway's writes: entering a journey, and recording feedback on a recommendation once. */
module Journeys {
  import opened Schema
  import opened Feedback
  import opened Users

  datatype Reply = Ok(event: Id) | InvalidRequest | NotFound | Database

  // ---------------------------------------------------------------- CreateEntryEvent

  /** `station`, `line` and `position` as requested or resolved from a beacon; `trace` as given or minted. */
  datatype EnterRequest = EnterRequest(user: Hash, station: Id, line: string, position: string, trace: TraceId)

  function EnteredRow(r: EnterRequest, journey: Uuid, event: Uuid, at: int): OutboxRow {
    OutboxRow(JourneyEntered, r.user,
      Envelope(event, JourneyEntered, 1, At(at), GatewayService, r.trace, journey, "", r.user,
        Object("", "", "", "", "", "", NoAttribution)),
      false, 0)
  }

  /** What the journey and outbox inserts still need once the station is known. */
  predicate Enterable(t: Tables, r: EnterRequest, journey: Uuid, event: Uuid) {
    && journey !in t.journeys && event !in t.outbox
    && Storable(r.line) && Storable(r.position) && Storable(r.trace)
  }

  function Entered(t: Tables, r: EnterRequest, journey: Uuid, event: Uuid, at: int): Tables {
    t.(journeys := t.journeys[journey := Journey(r.user, r.station)],
      outbox := t.outbox[event := EnteredRow(r, journey, event, at)])
  }

  function EnterTx(t: Tables, r: EnterRequest, journey: Uuid, event: Uuid, at: int): (Tables, Reply) {
    match EnsureDemoUserTx(t, r.user)
    case None => (t, InvalidRequest)
    case Some(t1) =>
      if r.station == "" then (t, InvalidRequest)
      else if !Storable(r.station) then (t, Database)
      else if r.station !in t1.stations then (t, InvalidRequest)
      else if !Enterable(t1, r, journey, event) then (t, Database)
      else (Entered(t1, r, journey, event, at), Ok(event))
  }

  /** A request the gateway has nothing to say against. */
  predicate Acceptable(t: Tables, r: EnterRequest) {
    && ValidUserHash(r.user) && r.station != "" && Storable(r.station) && r.station in t.stations
    && Storable(r.line) && Storable(r.position) && Storable(r.trace)
  }

  lemma ProvisioningLeavesTheRest(t: Tables, u: Hash)
    requires ValidUserHash(u)
    ensures EnsureDemoUserTx(t, u).Some?
    ensures var t1 := EnsureDemoUserTx(t, u).value;
    t1.outbox == t.outbox && t1.stations == t.stations && t1.journeys == t.journeys
  {
  }

  lemma EnterAdds(t: Tables, r: EnterRequest, journey: Uuid, event: Uuid, at: int)
    requires Acceptable(t, r) && journey !in t.journeys && event !in t.outbox
    ensures var t' := EnterTx(t, r, journey, event, at).0;
    && t'.outbox == t.outbox[event := EnteredRow(r, journey, event, at)]
    && t'.stations == t.stations && t'.journeys.Keys == t.journeys.Keys + {journey}
  {
    ProvisioningLeavesTheRest(t, r.user);
    var t1 := EnsureDemoUserTx(t, r.user).value;
    assert Enterable(t1, r, journey, event);
    assert EnterTx(t, r, journey, event, at).0 == Entered(t1, r, journey, event, at);
  }

  // ---------------------------------------------------------------- the feedback identity

  const NUL := ['\0']

  function Join(parts: seq<string>): string {
    if |parts| == 0 then "" else if |parts| == 1 then parts[0] else parts[0] + NUL + Join(parts[1..])
  }

  function Identity(u: Hash, journey: Id, recommendation: Id, offer: Id, topic: Topic): seq<string> {
    ["recommendation-feedback-v1", u, journey, recommendation, offer, TopicName(topic)]
  }

  /** The version-5 UUID of the identity (section 5.5 of RFC 9562), taken as collision-free and so
      represented by the string it hashes. */
  function FeedbackEventId(u: Hash, journey: Id, recommendation: Id, offer: Id, topic: Topic): Id {
    Join(Identity(u, journey, recommendation, offer, topic))
  }

  lemma FirstPart(a: string, x: string, b: string, y: string)
    requires Storable(a) && Storable(b) && a + NUL + x == b + NUL + y
    ensures a == b && x == y
  {
    var l, r := a + NUL + x, b + NUL + y;
    assert l[|a|] == '\0' && r[|b|] == '\0';
    assert forall i | 0 <= i < |a| :: l[i] == a[i];
    assert forall i | 0 <= i < |b| :: r[i] == b[i];
    assert |a| == |b|;
    assert a == l[..|a|] == r[..|b|] == b;
    assert x == l[|a| + 1..] == r[|b| + 1..] == y;
  }

  /** Joining with U+0000 loses nothing when no part contains it. */
  lemma {:induction false} JoinInjective(a: seq<string>, b: seq<string>)
    requires |a| == |b| && (forall p | p in a :: Storable(p)) && (forall p | p in b :: Storable(p))
    requires Join(a) == Join(b)
    ensures a == b
  {
    if |a| > 1 {
      FirstPart(a[0], Join(a[1..]), b[0], Join(b[1..]));
      JoinInjective(a[1..], b[1..]);
      assert a == [a[0]] + a[1..] && b == [b[0]] + b[1..];
    } else if |a| == 1 {
      assert a == [a[0]] && b == [b[0]];
    }
  }

  /** With U+0000 allowed inside parts it would: the condition is needed. */
  lemma JoinCollides()
    ensures Join(["\0", ""]) == Join(["", "\0"])
  {
    assert Join(["\0", ""]) == "\0" + NUL + Join([""]);
    assert Join(["", "\0"]) == "" + NUL + Join(["\0"]);
  }

  lemma TopicNamesDiffer(a: Topic, b: Topic)
    requires Recordable(a) && Recordable(b) && TopicName(a) == TopicName(b)
    ensures a == b
  {
    assert TopicName(a)[15] == TopicName(b)[15];
  }

  lemma TopicNameStorable(k: Topic)
    requires Recordable(k)
    ensures Storable(TopicName(k))
  {
  }

  lemma IdentityStorable(u: Hash, j: Id, r: Id, o: Id, k: Topic)
    requires Storable(u) && Storable(j) && Storable(r) && Storable(o) && Recordable(k)
    ensures forall p | p in Identity(u, j, r, o, k) :: Storable(p)
  {
    TopicNameStorable(k);
    assert Storable("recommendation-feedback-v1");
  }

  /** One feedback identity, one (user, journey, recommendation, offer, type). */
  lemma IdentityInjective(u: Hash, j: Id, r: Id, o: Id, k: Topic, u': Hash, j': Id, r': Id, o': Id, k': Topic)
    requires Storable(u) && Storable(j) && Storable(r) && Storable(o) && Recordable(k)
    requires Storable(u') && Storable(j') && Storable(r') && Storable(o') && Recordable(k')
    requires FeedbackEventId(u, j, r, o, k) == FeedbackEventId(u', j', r', o', k')
    ensures (u, j, r, o, k) == (u', j', r', o', k')
  {
    var a, b := Identity(u, j, r, o, k), Identity(u', j', r', o', k');
    IdentityStorable(u, j, r, o, k);
    IdentityStorable(u', j', r', o', k');
    JoinInjective(a, b);
    assert a[1] == b[1] && a[2] == b[2] && a[3] == b[3] && a[4] == b[4] && a[5] == b[5];
    TopicNamesDiffer(k, k');
  }

  // ---------------------------------------------------------------- RecordRecommendationEvent

  datatype RecordRequest = RecordRequest(user: Hash, recommendation: Id, topic: Topic, journey: Id, offer: Id,
      surface: string)

  predicate Recordable(topic: Topic) {
    topic == RecommendationImpressed || topic == RecommendationClicked || topic == RecommendationDismissed
  }

  predicate ValidRecord(r: RecordRequest) {
    && r.recommendation != "" && ValidUserHash(r.user) && Recordable(r.topic) && r.journey != ""
    && r.surface in {"", "web", "demo"}
  }

  /** The recommendation belongs to the journey and the journey to the user. */
  predicate Associated(t: Tables, r: RecordRequest) {
    && r.recommendation in t.recommendations && t.recommendations[r.recommendation].journey == r.journey
    && r.journey in t.journeys && t.journeys[r.journey].user == r.user
  }

  /** The offer the feedback is about: the primary one, or a requested eligible candidate. */
  function FeedbackOffer(row: Recommendation, requested: Id): Option<Id> {
    if requested == "" || requested == row.offer then Some(row.offer)
    else if exists c | c in row.candidates :: c.offer == requested && c.eligible then Some(requested)
    else None
  }

  function FeedbackRow(r: RecordRequest, event: Id, offer: Id, trace: TraceId, at: int): OutboxRow {
    OutboxRow(r.topic, r.user,
      Envelope(event, r.topic, 1, At(at), GatewayService, trace, r.journey, r.recommendation, r.user,
        Object("", offer, "", "", "", "", NoAttribution)),
      false, 0)
  }

  function Recorded(t: Tables, r: RecordRequest, offer: Id, weights: map<(Hash, string), Weight>, trace: TraceId,
      at: int): Tables
  {
    var event := FeedbackEventId(r.user, r.journey, r.recommendation, offer, r.topic);
    t.(claims := t.claims + {Claim(GatewayFeedback, event)},
      weights := weights,
      dismissals := if r.topic == RecommendationDismissed
          then t.dismissals + {Dismissal(r.user, r.journey, r.recommendation, offer)}
          else t.dismissals,
      outbox := t.outbox[event := FeedbackRow(r, event, offer, trace, at)])
  }

  /** The offer a call is about, when the call gets as far as its claim. */
  function Target(t: Tables, r: RecordRequest): Option<Id> {
    if ValidRecord(r) && Storable(r.recommendation) && Storable(r.journey) && Associated(t, r)
    then FeedbackOffer(t.recommendations[r.recommendation], r.offer)
    else None
  }

  function EventOf(r: RecordRequest, offer: Id): Id {
    FeedbackEventId(r.user, r.journey, r.recommendation, offer, r.topic)
  }

  /** The outbox insert: a new event id and a storable message. */
  predicate Announceable(t: Tables, r: RecordRequest, offer: Id, trace: TraceId) {
    EventOf(r, offer) !in t.outbox && StorableMessage(FeedbackRow(r, EventOf(r, offer), offer, trace, 0).message)
  }

  /** From the claim on: acknowledge a repeat, or write everything or nothing. */
  function SettleTx(t: Tables, r: RecordRequest, offer: Id, trace: TraceId, at: int): (Tables, Reply) {
    var event := EventOf(r, offer);
    if Claim(GatewayFeedback, event) in t.claims then (t, Ok(event))
    else
      match Learned(t, r.user, offer, r.topic)
      case None => (t, Database)
      case Some(weights) =>
        if !Announceable(t, r, offer, trace) then (t, Database)
        else (Recorded(t, r, offer, weights, trace, at), Ok(event))
  }

  function RecordTx(t: Tables, r: RecordRequest, trace: TraceId, at: int): (Tables, Reply) {
    if !ValidRecord(r) then (t, InvalidRequest)
    else if !Storable(r.recommendation) || !Storable(r.journey) then (t, Database)
    else if !Associated(t, r) then (t, NotFound)
    else
      match FeedbackOffer(t.recommendations[r.recommendation], r.offer)
      case None => (t, InvalidRequest)
      case Some(offer) => SettleTx(t, r, offer, trace, at)
  }

  /** Whether the call changes anything. */
  predicate Records(t: Tables, r: RecordRequest, trace: TraceId) {
    match Target(t, r)
    case None => false
    case Some(offer) =>
      && Claim(GatewayFeedback, EventOf(r, offer)) !in t.claims
      && Learned(t, r.user, offer, r.topic).Some?
      && Announceable(t, r, offer, trace)
  }

  lemma RecordOutcome(t: Tables, r: RecordRequest, trace: TraceId, at: int)
    ensures var offer := Target(t, r);
      RecordTx(t, r, trace, at).0 ==
      if Records(t, r, trace) then Recorded(t, r, offer.value, Learned(t, r.user, offer.value, r.topic).value, trace,
          at) else t
  {
  }

  lemma EnterOutcome(t: Tables, r: EnterRequest, journey: Uuid, event: Uuid, at: int)
    ensures var (t', reply) := EnterTx(t, r, journey, event, at); var t1 := EnsureDemoUserTx(t, r.user);
      if reply.Ok? then t1.Some? && Enterable(t1.value, r, journey, event)
          && t' == Entered(t1.value, r, journey, event, at) else t' == t
  {
  }

  // ---------------------------------------------------------------- what callers see, on the rows

  /** The feedback request names a user, a recommendation, a journey, one of the three types, and a
      known surface. */
  predicate WellFormed(r: RecordRequest) {
    && r.recommendation != "" && r.journey != "" && ValidUserHash(r.user)
    && (r.topic == RecommendationImpressed || r.topic == RecommendationClicked || r.topic == RecommendationDismissed)
    && (r.surface == "" || r.surface == "web" || r.surface == "demo")
  }

  /** The recommendation is one of the named journey, and that journey is the user's. */
  predicate OnOwnJourney(t: Tables, r: RecordRequest) {
    && r.recommendation in t.recommendations && t.recommendations[r.recommendation].journey == r.journey
    && r.journey in t.journeys && t.journeys[r.journey].user == r.user
  }

  /** The offer the user means: the one named, or the primary one if none is. */
  function Meant(row: Recommendation, offer: Id): Id {
    if offer != "" then offer else row.offer
  }

  /** It is one the recommendation offered. */
  predicate WasOffered(row: Recommendation, offer: Id) {
    offer == "" || offer == row.offer || exists c :: c in row.candidates && c.offer == offer && c.eligible
  }

  /** The answers of a feedback call, each exactly when the rows call for it. */
  lemma RecordAnswers(t: Tables, r: RecordRequest, trace: TraceId, at: int)
    ensures var reply := RecordTx(t, r, trace, at).1;
      && (!WellFormed(r) ==> reply == InvalidRequest)
      && (WellFormed(r) && ('\0' in r.recommendation || '\0' in r.journey) ==> reply == Database)
      && (WellFormed(r) && '\0' !in r.recommendation && '\0' !in r.journey ==>
        && (reply == NotFound <==> !OnOwnJourney(t, r))
        && (OnOwnJourney(t, r) ==>
          var row := t.recommendations[r.recommendation];
          && (reply == InvalidRequest <==> !WasOffered(row, r.offer))
          && (WasOffered(row, r.offer) ==>
            || reply == Database
            || reply == Ok(FeedbackEventId(r.user, r.journey, r.recommendation, Meant(row, r.offer), r.topic)))))
  {
  }

  /** An offered feedback is acknowledged if it is claimed already, or else if everything can be written:
      the event, and for a signal the weight of a known user and offer. */
  lemma OfferedIsAcknowledged(t: Tables, r: RecordRequest, trace: TraceId, at: int)
    requires WellFormed(r) && '\0' !in r.recommendation && '\0' !in r.journey && OnOwnJourney(t, r)
    requires WasOffered(t.recommendations[r.recommendation], r.offer)
    ensures var x := Meant(t.recommendations[r.recommendation], r.offer);
      var e := FeedbackEventId(r.user, r.journey, r.recommendation, x, r.topic);
      RecordTx(t, r, trace, at).1.Ok? <==>
        || Claim(GatewayFeedback, e) in t.claims
        || (&& e !in t.outbox && x != "" && '\0' !in x && '\0' !in trace
            && (r.topic != RecommendationImpressed ==> r.user in t.users && x in t.offers))
  {
    HashStorable(r.user);
  }

  /** A call that changes anything was about an offer of a recommendation on the user's own journey, and
      claims exactly the event of the offer meant. */
  lemma OnlyOfferedIsRecorded(t: Tables, r: RecordRequest, trace: TraceId, at: int)
    requires RecordTx(t, r, trace, at).0 != t
    ensures WellFormed(r) && OnOwnJourney(t, r) && WasOffered(t.recommendations[r.recommendation], r.offer)
    ensures var (t', reply) := RecordTx(t, r, trace, at);
      var x := Meant(t.recommendations[r.recommendation], r.offer);
      var e := FeedbackEventId(r.user, r.journey, r.recommendation, x, r.topic);
      && reply == Ok(e) && e !in t.outbox && Claim(GatewayFeedback, e) !in t.claims
      && t'.claims == t.claims + {Claim(GatewayFeedback, e)}
  {
    RecordOutcome(t, r, trace, at);
  }

  /** Its event names the offer meant, and only a dismissal hides it. */
  lemma FeedbackIsAnnounced(t: Tables, r: RecordRequest, trace: TraceId, at: int)
    requires RecordTx(t, r, trace, at).0 != t
    ensures r.recommendation in t.recommendations
    ensures var t' := RecordTx(t, r, trace, at).0;
      var x := Meant(t.recommendations[r.recommendation], r.offer);
      var e := FeedbackEventId(r.user, r.journey, r.recommendation, x, r.topic);
      && t'.outbox.Keys == t.outbox.Keys + {e} && (forall k | k in t.outbox :: t'.outbox[k] == t.outbox[k])
      && (var row := t'.outbox[e];
        && row.topic == r.topic && row.key == r.user && !row.published && row.attempts == 0
        && row.message == Envelope(e, r.topic, 1, At(at), GatewayService, trace, r.journey, r.recommendation, r.user,
          Object("", x, "", "", "", "", NoAttribution)))
      && t'.dismissals == t.dismissals
        + (if r.topic == RecommendationDismissed then {Dismissal(r.user, r.journey, r.recommendation, x)} else {})
  {
    RecordOutcome(t, r, trace, at);
  }

  /** It moves the user's weight in the category of the offer meant, as its type says, and nothing else. */
  lemma FeedbackMovesOneWeight(t: Tables, r: RecordRequest, trace: TraceId, at: int)
    requires RecordTx(t, r, trace, at).0 != t
    ensures r.recommendation in t.recommendations
    ensures var t' := RecordTx(t, r, trace, at).0;
      var x := Meant(t.recommendations[r.recommendation], r.offer);
      && (r.topic == RecommendationImpressed ==> t'.weights == t.weights)
      && (r.topic != RecommendationImpressed ==>
        && x in t.offers
        && var k := (r.user, t.offers[x].category);
          t'.weights == t.weights[k := Accumulate(if k in t.weights then Some(t.weights[k]) else None, r.topic)])
      && t' == t.(claims := t'.claims, weights := t'.weights, dismissals := t'.dismissals, outbox := t'.outbox)
  {
    RecordOutcome(t, r, trace, at);
    var x := Target(t, r).value;
    if r.user != "" && x != "" {
      SignalMoves(t, r.user, x, r.topic);
    }
  }

  /** What is hashed into the event id of each of the three types. */
  lemma IdentityText(u: Hash, journey: Id, recommendation: Id, offer: Id)
    ensures FeedbackEventId(u, journey, recommendation, offer, RecommendationImpressed) ==
      Join(["recommendation-feedback-v1", u, journey, recommendation, offer, "recommendation.impressed.v1"])
    ensures FeedbackEventId(u, journey, recommendation, offer, RecommendationClicked) ==
      Join(["recommendation-feedback-v1", u, journey, recommendation, offer, "recommendation.clicked.v1"])
    ensures FeedbackEventId(u, journey, recommendation, offer, RecommendationDismissed) ==
      Join(["recommendation-feedback-v1", u, journey, recommendation, offer, "recommendation.dismissed.v1"])
  {
  }

  /** The answers of an entry, each exactly when the rows call for it. */
  lemma EnterAnswers(t: Tables, r: EnterRequest, journey: Uuid, event: Uuid, at: int)
    ensures var reply := EnterTx(t, r, journey, event, at).1;
      && (reply == InvalidRequest <==>
        || !ValidUserHash(r.user) || r.station == ""
        || ('\0' !in r.station && r.station !in t.stations))
      && reply != NotFound
      && (reply.Ok? <==>
        && ValidUserHash(r.user) && r.station != "" && '\0' !in r.station && r.station in t.stations
        && journey !in t.journeys && event !in t.outbox
        && '\0' !in r.line && '\0' !in r.position && '\0' !in r.trace)
      && (reply.Ok? ==> reply == Ok(event))
  {
    if ValidUserHash(r.user) {
      ProvisioningLeavesTheRest(t, r.user);
    }
  }

  /** An accepted entry has the user provisioned, and adds one journey of theirs with its event. */
  lemma EnterChanges(t: Tables, r: EnterRequest, journey: Uuid, event: Uuid, at: int)
    ensures var (t', reply) := EnterTx(t, r, journey, event, at);
      && (!reply.Ok? ==> t' == t)
      && (reply.Ok? ==>
        && t'.journeys == t.journeys[journey := Journey(r.user, r.station)]
        && t'.outbox == t.outbox[event := OutboxRow(JourneyEntered, r.user,
          Envelope(event, JourneyEntered, 1, At(at), GatewayService, r.trace, journey, "", r.user,
            Object("", "", "", "", "", "", NoAttribution)), false, 0)]
        && EnsureDemoUserTx(t, r.user).Some?
        && t'.users == EnsureDemoUserTx(t, r.user).value.users && t'.ledger == EnsureDemoUserTx(t, r.user).value.ledger
        && t' == t.(users := t'.users, ledger := t'.ledger, journeys := t'.journeys, outbox := t'.outbox))
  {
    EnterOutcome(t, r, journey, event, at);
    if ValidUserHash(r.user) {
      ProvisioningLeavesTheRest(t, r.user);
    }
  }
}
