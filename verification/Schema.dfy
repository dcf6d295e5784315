/** The PostgreSQL tables the services share, as one value, with the schema's own constraints.
    A user row is addressed by its unique `user_id_hash`; the surrogate `user_id`, in
    one-to-one correspondence with it, is not represented. */
module Schema {
  type Id = string
  type Hash = string

  /** BIGINT. */
  type Int64 = x: int | -0x8000_0000_0000_0000 <= x < 0x8000_0000_0000_0000

  /** A minted UUID string. */
  type Uuid = s: string | s != "" && '\0' !in s witness "00000000-0000-0000-0000-000000000000"

  /** A trace id once the empty one has been replaced by a minted one. */
  type TraceId = s: string | s != "" witness "trace"

  datatype Option<+T> = None | Some(value: T)

  /** The event types of the analytics topic list, and any other string. */
  datatype Topic =
    | JourneyEntered
    | RecommendationCreated
    | NotificationSent
    | NotificationDelivered
    | NotificationFailed
    | RecommendationImpressed
    | RecommendationClicked
    | RecommendationDismissed
    | RedemptionSucceeded
    | MerchantVerified
    | VisitAttributed
    | Unlisted(name: string)

  /** A timestamp string as the analytics decoder sees it. */
  datatype Stamp = Unset | Unparseable | At(time: int)

  /** The `producer` strings the services write; anything else is `Unknown`. */
  datatype Producer =
    | NoProducer
    | GatewayService
    | RecommendationService
    | RedemptionService
    | NotificationWorker
    | UnknownProducer(name: string)

  datatype Attribution = NoAttribution | ObservedPosVerified | InferredVisit | OtherAttribution(name: string)

  /** An event payload: the string fields read downstream, "" when absent. */
  datatype Payload =
    | Malformed
    | NotAnObject
    | NullPayload
    | Object(recommendation: Id, offer: Id, redemption: Id, merchant: Id, notification: Id, copySource: string,
        attribution: Attribution)

  datatype Envelope = Envelope(
    event: Id, topic: Topic, version: int, occurredAt: Stamp, producer: Producer, trace: string,
    journey: Id, recommendation: Id, user: Hash, payload: Payload)

  datatype OutboxRow = OutboxRow(topic: Topic, key: string, message: Envelope, published: bool, attempts: nat)

  datatype User = User(balance: int, notify: bool, timezone: string, startLocal: string, endLocal: string)

  datatype Offer = Offer(merchant: Id, category: string, station: Id, title: string, description: string,
    cost: Int64, active: bool, startsAt: int, endsAt: int)

  datatype Station = Station(name: string, line: string)

  datatype Stock = Stock(available: int, version: int)

  datatype Journey = Journey(user: Hash, station: Id)

  datatype Status = Pending | Succeeded | Rejected | Verified

  datatype Redemption = Redemption(user: Hash, journey: Id, offer: Id, key: string, status: Status, cost: int,
      code: string)

  datatype Reason = DemoInitialBalance | RedemptionReason

  datatype Entry = Entry(redemption: Option<Id>, delta: int, balanceAfter: int, reason: Reason)

  /** A learned category weight, in quarters, with its event counters. */
  datatype Weight = Weight(quarters: int, clicks: nat, dismissals: nat, redemptions: nat)

  datatype Candidate = Candidate(offer: Id, title: string, description: string, station: Id, cost: Int64,
    vector: real, score: real, eligible: bool, reasons: seq<string>)

  datatype Recommendation = Recommendation(journey: Id, offer: Id, score: real, reasons: seq<string>, title: string,
      body: string,
      tone: string, copySource: string, candidates: seq<Candidate>, createdAt: int)

  datatype Dismissal = Dismissal(user: Hash, journey: Id, recommendation: Id, offer: Id)

  /** The consumer names under which events are claimed. */
  datatype Consumer = GatewayFeedback | NotificationWorkerV1 | OtherConsumer(name: string)

  datatype Claim = Claim(consumer: Consumer, event: Id)

  datatype Subscription = Subscription(user: Hash, endpoint: string, active: bool)

  datatype DeliveryStatus = Sent | Delivered | Failed

  datatype Delivery = Delivery(notification: Id, user: Hash, journey: Id, status: DeliveryStatus)

  datatype Tables = Tables(
    users: map<Hash, User>,
    ledger: map<Hash, seq<Entry>>,
    stations: map<Id, Station>,
    journeys: map<Id, Journey>,
    offers: map<Id, Offer>,
    inventory: map<Id, Stock>,
    redemptions: map<Id, Redemption>,
    weights: map<(Hash, string), Weight>,
    recommendations: map<Id, Recommendation>,
    dismissals: set<Dismissal>,
    claims: set<Claim>,
    subscriptions: map<Id, Subscription>,
    deliveries: map<(Id, Id), Delivery>,
    outbox: map<Id, OutboxRow>)

  function TopicName(topic: Topic): string {
    match topic
    case JourneyEntered => "journey.entered.v1"
    case RecommendationCreated => "recommendation.created.v1"
    case NotificationSent => "notification.sent.v1"
    case NotificationDelivered => "notification.delivered.v1"
    case NotificationFailed => "notification.failed.v1"
    case RecommendationImpressed => "recommendation.impressed.v1"
    case RecommendationClicked => "recommendation.clicked.v1"
    case RecommendationDismissed => "recommendation.dismissed.v1"
    case RedemptionSucceeded => "redemption.succeeded.v1"
    case MerchantVerified => "merchant.verified.v1"
    case VisitAttributed => "visit.attributed.v1"
    case Unlisted(name) => name
  }

  predicate Live(s: Status) {
    s == Succeeded || s == Verified
  }

  function Entries(ledger: map<Hash, seq<Entry>>, u: Hash): seq<Entry> {
    if u in ledger then ledger[u] else []
  }

  /** Whether PostgreSQL text (and jsonb) can hold the string: it rejects U+0000. */
  predicate Storable(s: string) {
    '\0' !in s
  }

  /** Whether the outbox's JSONB payload column can hold the message. Event ids are UUIDs. */
  predicate StorableMessage(m: Envelope) {
    && Storable(m.trace) && Storable(m.journey) && Storable(m.recommendation) && Storable(m.user)
    && (m.payload.Object? ==>
      && Storable(m.payload.recommendation) && Storable(m.payload.offer) && Storable(m.payload.redemption)
      && Storable(m.payload.merchant) && Storable(m.payload.notification) && Storable(m.payload.copySource))
  }

  predicate HexDigit(c: char) {
    '0' <= c <= '9' || 'a' <= c <= 'f'
  }

  /** `sha256:` followed by 64 lower-case hexadecimal digits. */
  predicate ValidUserHash(h: Hash) {
    |h| == 71 && h[..7] == "sha256:" && forall i | 7 <= i < 71 :: HexDigit(h[i])
  }

  lemma HashStorable(h: Hash)
    requires ValidUserHash(h)
    ensures Storable(h)
  {
    forall i | 0 <= i < |h| ensures h[i] != '\0' {
      if i < 7 {
        assert h[i] == h[..7][i] == "sha256:"[i];
      } else {
        assert HexDigit(h[i]);
      }
    }
  }

  function Utf8Width(c: char): nat {
    if c as int < 0x80 then 1 else if c as int < 0x800 then 2 else if c as int < 0x10000 then 3 else 4
  }

  function Utf8Length(s: string): nat {
    if s == [] then 0 else Utf8Length(s[..|s| - 1]) + Utf8Width(s[|s| - 1])
  }

  /** The bytes a B-tree entry of UNIQUE (user_id, idempotency_key) has for the key: 2704 in all, less
      8 for the header, 16 for the user id and 4 for the key's length. */
  const KEY_SPACE := 2704 - 8 - 16 - 4

  /** Whether the unique index takes the key, as it is or compressed to `packed` bytes. */
  predicate Indexable(key: string, packed: nat) {
    Utf8Length(key) <= KEY_SPACE || packed <= KEY_SPACE
  }

  lemma {:induction false} Utf8Bounds(s: string)
    ensures |s| <= Utf8Length(s) <= 4 * |s|
  {
    if s != [] {
      Utf8Bounds(s[..|s| - 1]);
    }
  }

  predicate Matches(row: Redemption, u: Hash, key: string) {
    row.user == u && row.key == key
  }

  /** The redemption row of a user under an idempotency key. */
  ghost function RowUnder(rows: map<Id, Redemption>, u: Hash, key: string): (id: Option<Id>)
    ensures id == None ==> forall i | i in rows :: !Matches(rows[i], u, key)
    ensures id.Some? ==> id.value in rows && Matches(rows[id.value], u, key)
  {
    if id :| id in rows && Matches(rows[id], u, key) then Some(id) else None
  }

  predicate Redeems(row: Redemption, u: Hash, offer: Id) {
    row.user == u && row.offer == offer && Live(row.status)
  }

  /** The user already has a live redemption of the offer. */
  predicate Holds(rows: map<Id, Redemption>, u: Hash, offer: Id) {
    exists id | id in rows :: Redeems(rows[id], u, offer)
  }

  /** UNIQUE (user_id, idempotency_key), UNIQUE (merchant_verification_code), and the partial
      unique index on live (user_id, offer_id). */
  ghost predicate UniqueRedemptions(rows: map<Id, Redemption>) {
    forall i, j | i in rows && j in rows && i != j ::
      && !Matches(rows[i], rows[j].user, rows[j].key)
      && rows[i].code != rows[j].code
      && !(Live(rows[j].status) && Redeems(rows[i], rows[j].user, rows[j].offer))
  }

  // ---------------------------------------------------------------- foreign keys and checks, table by table

  ghost predicate UsersOk(users: map<Hash, User>) {
    forall u | u in users :: ValidUserHash(u) && users[u].balance >= 0
  }

  /** CHECK (length(trim(category)) > 0): something other than spaces. */
  predicate NotBlank(s: string) {
    exists i | 0 <= i < |s| :: s[i] != ' '
  }

  ghost predicate OffersOk(stations: map<Id, Station>, offers: map<Id, Offer>) {
    forall o | o in offers ::
      offers[o].station in stations && offers[o].startsAt < offers[o].endsAt && NotBlank(offers[o].category)
  }

  ghost predicate CatalogOk(offers: map<Id, Offer>, inventory: map<Id, Stock>) {
    && (forall o | o in offers :: offers[o].cost >= 0)
    && (forall o | o in inventory :: o in offers && inventory[o].available >= 0 && inventory[o].version > 0)
  }

  ghost predicate RedemptionsOk(users: map<Hash, User>, journeys: map<Id, Journey>, offers: map<Id, Offer>,
      rows: map<Id, Redemption>)
  {
    forall id | id in rows ::
      && rows[id].user in users && rows[id].journey in journeys && rows[id].offer in offers && rows[id].cost >= 0
      && rows[id].key != ""
      && Storable(rows[id].user) && Storable(rows[id].key)
  }

  ghost predicate EntriesOk(users: map<Hash, User>, ledger: map<Hash, seq<Entry>>) {
    forall u | u in ledger :: u in users && forall i | 0 <= i < |ledger[u]| ::
        ledger[u][i].delta != 0 && ledger[u][i].balanceAfter >= 0
  }

  ghost predicate JourneysOk(users: map<Hash, User>, stations: map<Id, Station>, journeys: map<Id, Journey>) {
    forall j | j in journeys :: Storable(j) && journeys[j].user in users && journeys[j].station in stations
  }

  /** Whether NUMERIC(8, 4) can hold the score, once rounded to four places. */
  predicate ScoreFits(score: real) {
    -9999.99995 < score < 9999.99995
  }

  predicate StorableRow(id: Id, row: Recommendation) {
    Storable(id) && Storable(row.offer) && forall c | c in row.candidates :: Storable(c.offer)
  }

  ghost predicate RecommendationsOk(journeys: map<Id, Journey>, offers: map<Id, Offer>,
      recommendations: map<Id, Recommendation>)
  {
    forall r | r in recommendations ::
      && recommendations[r].journey in journeys && recommendations[r].offer in offers
      && StorableRow(r, recommendations[r])
  }

  /** The constraints PostgreSQL enforces on every committed state of users, stations, offers, stock,
      journeys, redemptions, the ledger and recommendations. */
  ghost predicate Constraints(t: Tables) {
    && UsersOk(t.users)
    && OffersOk(t.stations, t.offers)
    && CatalogOk(t.offers, t.inventory)
    && RedemptionsOk(t.users, t.journeys, t.offers, t.redemptions)
    && UniqueRedemptions(t.redemptions)
    && EntriesOk(t.users, t.ledger)
    && JourneysOk(t.users, t.stations, t.journeys)
    && RecommendationsOk(t.journeys, t.offers, t.recommendations)
  }
}
