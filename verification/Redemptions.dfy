/** `Create` and `Verify` as atomic transactions on the tables: what each call decides, and what a
    granted call changes. Every refused, replayed or aborted call leaves the tables as they were. */
module Redemptions {
  import opened Schema
  import opened Feedback
  import opened Users

  datatype Error =
    | InvalidRequest
    | UserNotFound
    | JourneyNotFound
    | OfferUnavailable
    | OfferAlreadyRedeemed
    | InsufficientPoints
    | IdempotencyKeyConflict
    | RedemptionNotFound
    | VerificationFailed
    | RedemptionNotVerifiable
    | Database   // a statement or the commit failed; the transaction was rolled back

  datatype Reply = Ok(id: Id, row: Redemption) | Err(error: Error)

  datatype CreateRequest = CreateRequest(user: Hash, journey: Id, offer: Id, key: string, trace: string)

  datatype VerifyRequest = VerifyRequest(redemption: Id, merchant: Id, code: string, trace: string)

  /** What a `Create` call gets from elsewhere: the redemption id, merchant code and event id it mints,
      and the size to which PostgreSQL compresses its key. */
  datatype Minted = Minted(redemption: Uuid, code: Uuid, event: Uuid, packed: nat)

  predicate CompleteCreate(r: CreateRequest) {
    r.user != "" && r.journey != "" && r.offer != "" && r.key != "" && r.trace != ""
  }

  predicate CompleteVerify(r: VerifyRequest) {
    r.redemption != "" && r.merchant != "" && r.code != "" && r.trace != ""
  }

  /** The offer row joined with its inventory row, active and inside its validity window. */
  predicate Open(t: Tables, offer: Id, now: int) {
    && offer in t.offers && offer in t.inventory
    && t.offers[offer].active && t.offers[offer].startsAt <= now < t.offers[offer].endsAt
  }

  predicate OwnJourney(t: Tables, journey: Id, u: Hash) {
    journey in t.journeys && t.journeys[journey].user == u
  }

  datatype Decision = Refuse(error: Error) | Replay(id: Id) | Grant

  /** What `Create` does in the order it looks: the first failing check decides. A statement that binds
      a string PostgreSQL cannot store fails. */
  ghost function Decide(t: Tables, r: CreateRequest, now: int): (d: Decision)
    ensures d.Replay? ==> d.id in t.redemptions
  {
    if !CompleteCreate(r) then Refuse(InvalidRequest)
    else if !Storable(r.user) then Refuse(Database)
    else if r.user !in t.users then Refuse(UserNotFound)
    else if !Storable(r.key) then Refuse(Database)
    else if RowUnder(t.redemptions, r.user, r.key).Some? then
      var id := RowUnder(t.redemptions, r.user, r.key).value;
      if t.redemptions[id].journey == r.journey && t.redemptions[id].offer == r.offer then Replay(id)
      else Refuse(IdempotencyKeyConflict)
    else if !Storable(r.journey) then Refuse(Database)
    else if !OwnJourney(t, r.journey, r.user) then Refuse(JourneyNotFound)
    else if !Storable(r.offer) then Refuse(Database)
    else if Holds(t.redemptions, r.user, r.offer) then Refuse(OfferAlreadyRedeemed)
    else if !Open(t, r.offer, now) || t.inventory[r.offer].available == 0 then Refuse(OfferUnavailable)
    else if t.users[r.user].balance < t.offers[r.offer].cost then Refuse(InsufficientPoints)
    else Grant
  }

  /** What a granted decision has established: everything the writes rely on. */
  ghost predicate Cleared(t: Tables, r: CreateRequest) {
    && CompleteCreate(r)
    && Storable(r.user) && Storable(r.key) && Storable(r.journey) && Storable(r.offer)
    && r.user in t.users && OwnJourney(t, r.journey, r.user) && r.offer in t.offers && r.offer in t.inventory
    && t.offers[r.offer].cost <= t.users[r.user].balance && t.inventory[r.offer].available != 0
    && forall i | i in t.redemptions ::
      !Matches(t.redemptions[i], r.user, r.key) && !Redeems(t.redemptions[i], r.user, r.offer)
  }

  lemma GrantIsCleared(t: Tables, r: CreateRequest, now: int)
    requires Decide(t, r, now) == Grant
    ensures Cleared(t, r)
  {
  }

  /** What a granted call can still violate: a minted identifier already in use, the size limit of the
      unique index on the key, the ledger's `delta <> 0`, which a zero-cost offer breaks, or the
      event's JSONB payload, which cannot hold the U+0000 a trace id may bring. */
  predicate Insertable(t: Tables, r: CreateRequest, m: Minted)
    requires r.offer in t.offers
  {
    && m.redemption !in t.redemptions
    && (forall id | id in t.redemptions :: t.redemptions[id].code != m.code)
    && Indexable(r.key, m.packed)
    && t.offers[r.offer].cost != 0
    && m.event !in t.outbox && Storable(r.trace)
  }

  function NewRow(r: CreateRequest, m: Minted, cost: int): Redemption {
    Redemption(r.user, r.journey, r.offer, r.key, Succeeded, cost, m.code)
  }

  function SucceededRow(r: CreateRequest, m: Minted, at: int): OutboxRow {
    OutboxRow(RedemptionSucceeded, r.user,
      Envelope(m.event, RedemptionSucceeded, 1, At(at), RedemptionService, r.trace, r.journey, "", r.user,
        Object("", r.offer, m.redemption, "", "", "", NoAttribution)),
      false, 0)
  }

  function VerifiedRow(r: VerifyRequest, event: Uuid, journey: Id, u: Hash, at: int): OutboxRow {
    OutboxRow(MerchantVerified, journey,
      Envelope(event, MerchantVerified, 1, At(at), RedemptionService, r.trace, journey, "", u,
        Object("", "", r.redemption, r.merchant, "", "", NoAttribution)),
      false, 0)
  }

  function Spent(entries: seq<Entry>, redemption: Id, cost: int, left: int): seq<Entry> {
    entries + [Entry(Some(redemption), -cost, left, RedemptionReason)]
  }

  /** All six writes of a granted call. */
  function Granted(t: Tables, r: CreateRequest, m: Minted, at: int): Tables
    requires r.user in t.users && r.offer in t.offers && r.offer in t.inventory
  {
    var cost := t.offers[r.offer].cost;
    var user := t.users[r.user];
    var stock := t.inventory[r.offer];
    var category := t.offers[r.offer].category;
    t.(redemptions := t.redemptions[m.redemption := NewRow(r, m, cost)],
      users := t.users[r.user := user.(balance := user.balance - cost)],
      inventory := t.inventory[r.offer := Stock(stock.available - 1, stock.version + 1)],
      ledger := t.ledger[r.user := Spent(Entries(t.ledger, r.user), m.redemption, cost, user.balance - cost)],
      weights := t.weights[(r.user, category) := Accumulate(Row(t.weights, r.user, category), RedemptionSucceeded)],
      outbox := t.outbox[m.event := SucceededRow(r, m, at)])
  }

  ghost predicate Grants(t: Tables, r: CreateRequest, m: Minted, now: int) {
    Decide(t, r, now) == Grant && Insertable(t, r, m)
  }

  /** The whole call, as one atomic step. */
  ghost function CreateTx(t: Tables, r: CreateRequest, m: Minted, now: int): (Tables, Reply) {
    match Decide(t, r, now)
    case Refuse(e) => (t, Err(e))
    case Replay(id) => (t, Ok(id, t.redemptions[id]))
    case Grant =>
      if !Insertable(t, r, m) then (t, Err(Database))
      else (Granted(t, r, m, now), Ok(m.redemption, NewRow(r, m, t.offers[r.offer].cost)))
  }

  /** What decides over a granted call with fresh identifiers: the cost, the trace id and the size of
      the key. */
  predicate Commits(t: Tables, r: CreateRequest, m: Minted)
    requires r.offer in t.offers
  {
    t.offers[r.offer].cost != 0 && Storable(r.trace) && Indexable(r.key, m.packed)
  }

  /** With fresh identifiers, a call whose checks all pass commits exactly when the offer costs
      something, the trace id has no U+0000 and the unique index takes the key, which it always does
      up to 669 characters. */
  lemma GrantCommits(t: Tables, r: CreateRequest, m: Minted, now: int)
    requires Decide(t, r, now) == Grant
    requires m.redemption !in t.redemptions && m.event !in t.outbox
    requires forall id | id in t.redemptions :: t.redemptions[id].code != m.code
    ensures CreateTx(t, r, m, now).1.Ok? <==> Commits(t, r, m)
    ensures CreateTx(t, r, m, now).0 != t <==> Commits(t, r, m)
    ensures |r.key| <= 669 ==> Indexable(r.key, m.packed)
  {
    Utf8Bounds(r.key);
    if Insertable(t, r, m) {
      var t' := CreateTx(t, r, m, now).0;
      assert t' == Granted(t, r, m, now) && m.event in t'.outbox;
    }
  }

  /** A new user with a journey, and one offer of the given cost in stock. */
  function Shop(u: Hash, cost: Int64): Tables {
    Tables(map[u := NEW_USER], map[u := [OPENING]], map["s" := Station("Xinyi", "R")],
      map["j" := Journey(u, "s")],
      map["o" := Offer("m", "coffee", "s", "Coffee", "Free refill", cost, true, 0, 10)], map["o" := Stock(1, 1)],
      map[], map[], map[], {}, {}, map[], map[], map[])
  }

  lemma ShopIsLegal(u: Hash, cost: Int64)
    requires ValidUserHash(u) && cost >= 0
    ensures Constraints(Shop(u, cost))
  {
    assert "coffee"[0] != ' ';
  }

  /** A request for the one offer of the shop. */
  function Order(u: Hash, key: string, trace: string): CreateRequest {
    CreateRequest(u, "j", "o", key, trace)
  }

  lemma OrderIsGranted(u: Hash, cost: Int64, key: string, trace: string)
    requires ValidUserHash(u) && 0 <= cost <= 1200 && Storable(key) && key != "" && trace != ""
    ensures Decide(Shop(u, cost), Order(u, key, trace), 5) == Grant
  {
    HashStorable(u);
  }

  /** Two of the ways to fail, on legal tables: the free offer and the unstorable trace pass every check
      and are rolled back, while the same call with neither commits. */
  lemma GrantedYetRolledBack(u: Hash, m: Minted)
    requires ValidUserHash(u)
    ensures Constraints(Shop(u, 0)) && Constraints(Shop(u, 80))
    ensures Decide(Shop(u, 0), Order(u, "k", "t"), 5) == Grant
    ensures CreateTx(Shop(u, 0), Order(u, "k", "t"), m, 5) == (Shop(u, 0), Err(Database))
    ensures CreateTx(Shop(u, 80), Order(u, "k", "t"), m, 5).1.Ok?
    ensures Decide(Shop(u, 80), Order(u, "k", "\0"), 5) == Grant
    ensures CreateTx(Shop(u, 80), Order(u, "k", "\0"), m, 5) == (Shop(u, 80), Err(Database))
  {
    ShopIsLegal(u, 0);
    ShopIsLegal(u, 80);
    assert "\0"[0] == '\0';
    OrderIsGranted(u, 0, "k", "t");
    OrderIsGranted(u, 80, "k", "t");
    OrderIsGranted(u, 80, "k", "\0");
    GrantCommits(Shop(u, 0), Order(u, "k", "t"), m, 5);
    GrantCommits(Shop(u, 80), Order(u, "k", "t"), m, 5);
    GrantCommits(Shop(u, 80), Order(u, "k", "\0"), m, 5);
  }

  /** The third: every key that is too long and does not compress. */
  lemma LongKeyRolledBack(u: Hash, m: Minted, key: string)
    requires ValidUserHash(u) && Storable(key) && |key| > KEY_SPACE && m.packed > KEY_SPACE
    ensures Decide(Shop(u, 80), Order(u, key, "t"), 5) == Grant
    ensures CreateTx(Shop(u, 80), Order(u, key, "t"), m, 5) == (Shop(u, 80), Err(Database))
  {
    Utf8Bounds(key);
    OrderIsGranted(u, 80, key, "t");
    GrantCommits(Shop(u, 80), Order(u, key, "t"), m, 5);
  }

  /** A read of one committed row. */
  function Lookup(t: Tables, id: Id): Reply {
    if id == "" then Err(InvalidRequest)
    else if !Storable(id) then Err(Database)
    else if id in t.redemptions then Ok(id, t.redemptions[id])
    else Err(RedemptionNotFound)
  }

  lemma CreateOutcome(t: Tables, r: CreateRequest, m: Minted, now: int)
    ensures Grants(t, r, m, now) ==> Cleared(t, r) && Insertable(t, r, m)
    ensures CreateTx(t, r, m, now).0 == if Grants(t, r, m, now) then Granted(t, r, m, now) else t
  {
    if Decide(t, r, now) == Grant {
      GrantIsCleared(t, r, now);
    }
  }

  datatype Verdict = Reject(error: Error) | AlreadyVerified | Accept

  function Judge(t: Tables, r: VerifyRequest): Verdict {
    if !CompleteVerify(r) then Reject(InvalidRequest)
    else if !Storable(r.redemption) then Reject(Database)
    else if r.redemption !in t.redemptions || t.redemptions[r.redemption].offer !in t.offers
        then Reject(RedemptionNotFound)
    else
      var row := t.redemptions[r.redemption];
      if t.offers[row.offer].merchant != r.merchant || row.code != r.code then Reject(VerificationFailed)
      else if row.status == Verified then AlreadyVerified
      else if row.status != Succeeded then Reject(RedemptionNotVerifiable)
      else Accept
  }

  /** The outbox insert of a granted `Verify`: a fresh event id, a non-empty key, a storable message. */
  predicate Announceable(t: Tables, r: VerifyRequest, event: Uuid, row: Redemption) {
    event !in t.outbox && row.journey != "" && StorableMessage(VerifiedRow(r, event, row.journey, row.user, 0).message)
  }

  function Confirmed(t: Tables, r: VerifyRequest, event: Uuid, at: int): Tables
    requires r.redemption in t.redemptions
  {
    var row := t.redemptions[r.redemption];
    t.(redemptions := t.redemptions[r.redemption := row.(status := Verified)],
      outbox := t.outbox[event := VerifiedRow(r, event, row.journey, row.user, at)])
  }

  ghost predicate Confirms(t: Tables, r: VerifyRequest, event: Uuid) {
    Judge(t, r) == Accept && Announceable(t, r, event, t.redemptions[r.redemption])
  }

  function VerifyTx(t: Tables, r: VerifyRequest, event: Uuid, at: int): (Tables, Reply) {
    match Judge(t, r)
    case Reject(e) => (t, Err(e))
    case AlreadyVerified => (t, Ok(r.redemption, t.redemptions[r.redemption]))
    case Accept =>
      if !Announceable(t, r, event, t.redemptions[r.redemption]) then (t, Err(Database))
      else (Confirmed(t, r, event, at), Ok(r.redemption, t.redemptions[r.redemption].(status := Verified)))
  }

  lemma VerifyOutcome(t: Tables, r: VerifyRequest, event: Uuid, at: int)
    ensures VerifyTx(t, r, event, at).0 == if Confirms(t, r, event) then Confirmed(t, r, event, at) else t
  {
  }

  // ---------------------------------------------------------------- what callers see, on the rows

  /** The request is complete and every string of it can be bound. */
  predicate WellFormed(r: CreateRequest) {
    && r.user != "" && r.journey != "" && r.offer != "" && r.key != "" && r.trace != ""
    && '\0' !in r.user && '\0' !in r.key && '\0' !in r.journey && '\0' !in r.offer
  }

  /** A known user's request with a key never used before. */
  predicate FirstAsked(t: Tables, r: CreateRequest) {
    && WellFormed(r) && r.user in t.users
    && forall id | id in t.redemptions :: t.redemptions[id].user != r.user || t.redemptions[id].key != r.key
  }

  /** The user has redeemed the offer before. */
  predicate RedeemedBefore(t: Tables, r: CreateRequest) {
    exists id :: id in t.redemptions && t.redemptions[id].user == r.user && t.redemptions[id].offer == r.offer
      && (t.redemptions[id].status == Succeeded || t.redemptions[id].status == Verified)
  }

  /** The offer is on sale at the time, and there is one left. */
  predicate OnSale(t: Tables, offer: Id, now: int) {
    && offer in t.offers && offer in t.inventory
    && t.offers[offer].active && t.offers[offer].startsAt <= now && now < t.offers[offer].endsAt
    && t.inventory[offer].available != 0
  }

  lemma RedeemedBeforeIsHeld(t: Tables, r: CreateRequest)
    ensures Holds(t.redemptions, r.user, r.offer) <==> RedeemedBefore(t, r)
  {
    if Holds(t.redemptions, r.user, r.offer) {
      var id :| id in t.redemptions && Redeems(t.redemptions[id], r.user, r.offer);
      assert t.redemptions[id].offer == r.offer;
    }
    if RedeemedBefore(t, r) {
      var id :| id in t.redemptions && t.redemptions[id].user == r.user && t.redemptions[id].offer == r.offer
        && (t.redemptions[id].status == Succeeded || t.redemptions[id].status == Verified);
      assert Redeems(t.redemptions[id], r.user, r.offer);
    }
  }

  lemma NewKeyHasNoRow(t: Tables, r: CreateRequest)
    requires FirstAsked(t, r)
    ensures RowUnder(t.redemptions, r.user, r.key) == None
  {
  }

  /** The answers of a first request, each exactly when the rows call for it, in the order of the checks. */
  lemma FirstAnswers(t: Tables, r: CreateRequest, m: Minted, now: int)
    requires FirstAsked(t, r)
    ensures var reply := CreateTx(t, r, m, now).1;
      var own := r.journey in t.journeys && t.journeys[r.journey].user == r.user;
      && (reply == Err(JourneyNotFound) <==> !own)
      && (reply == Err(OfferAlreadyRedeemed) <==> own && RedeemedBefore(t, r))
      && (reply == Err(OfferUnavailable) <==> own && !RedeemedBefore(t, r) && !OnSale(t, r.offer, now))
      && (reply == Err(InsufficientPoints) <==>
        && own && !RedeemedBefore(t, r) && OnSale(t, r.offer, now)
        && t.offers[r.offer].cost > t.users[r.user].balance)
      && reply != Err(InvalidRequest) && reply != Err(UserNotFound) && reply != Err(IdempotencyKeyConflict)
      && (reply.Ok? ==> own && !RedeemedBefore(t, r) && OnSale(t, r.offer, now))
  {
    NewKeyHasNoRow(t, r);
    RedeemedBeforeIsHeld(t, r);
  }

  /** The answers of all other requests: malformed, of an unknown user, or with a key used before. */
  lemma OtherAnswers(t: Tables, r: CreateRequest, m: Minted, now: int, id: Id)
    requires UniqueRedemptions(t.redemptions)
    ensures var reply := CreateTx(t, r, m, now).1;
      && (reply == Err(InvalidRequest)
        <==> r.user == "" || r.journey == "" || r.offer == "" || r.key == "" || r.trace == "")
      && (WellFormed(r) ==> (reply == Err(UserNotFound) <==> r.user !in t.users))
      && (WellFormed(r) && r.user in t.users && id in t.redemptions && t.redemptions[id].user == r.user
          && t.redemptions[id].key == r.key ==>
        reply == if t.redemptions[id].journey == r.journey && t.redemptions[id].offer == r.offer
          then Ok(id, t.redemptions[id]) else Err(IdempotencyKeyConflict))
  {
    if id in t.redemptions && t.redemptions[id].user == r.user && t.redemptions[id].key == r.key {
      assert Matches(t.redemptions[id], r.user, r.key);
    }
  }

  /** A call that changes anything has sold an offer that was on sale, to a user who could pay for it
      and had not redeemed it, on a journey of theirs. */
  lemma OnlySalesChange(t: Tables, r: CreateRequest, m: Minted, now: int)
    requires CreateTx(t, r, m, now).0 != t
    ensures FirstAsked(t, r) && r.journey in t.journeys && t.journeys[r.journey].user == r.user
    ensures OnSale(t, r.offer, now) && !RedeemedBefore(t, r)
    ensures 0 != t.offers[r.offer].cost <= t.users[r.user].balance
    ensures CreateTx(t, r, m, now).1.Ok? && '\0' !in r.trace
    ensures m.redemption !in t.redemptions && m.event !in t.outbox
  {
    RedeemedBeforeIsHeld(t, r);
    assert Decide(t, r, now) == Grant && Insertable(t, r, m);
    forall id | id in t.redemptions ensures t.redemptions[id].user != r.user || t.redemptions[id].key != r.key {
      assert !Matches(t.redemptions[id], r.user, r.key);
    }
  }

  /** And what it has changed, row by row. */
  lemma SaleChanges(t: Tables, r: CreateRequest, m: Minted, now: int)
    requires CreateTx(t, r, m, now).0 != t
    ensures var t' := CreateTx(t, r, m, now).0;
      && r.user in t.users && r.offer in t.offers && r.offer in t.inventory
      && (var cost := t.offers[r.offer].cost as int; var left := t.users[r.user].balance - cost;
        && t'.users == t.users[r.user := t.users[r.user].(balance := left)]
        && t'.inventory == t.inventory[r.offer :=
            Stock(t.inventory[r.offer].available - 1, t.inventory[r.offer].version + 1)]
        && t'.redemptions == t.redemptions[m.redemption :=
            Redemption(r.user, r.journey, r.offer, r.key, Succeeded, cost, m.code)]
        && Entries(t'.ledger, r.user) ==
            Entries(t.ledger, r.user) + [Entry(Some(m.redemption), -cost, left, RedemptionReason)]
        && (forall u | u != r.user :: Entries(t'.ledger, u) == Entries(t.ledger, u)))
  {
    CreateOutcome(t, r, m, now);
  }

  /** Its event. */
  lemma SaleIsAnnounced(t: Tables, r: CreateRequest, m: Minted, now: int)
    requires CreateTx(t, r, m, now).0 != t
    ensures var outbox := CreateTx(t, r, m, now).0.outbox;
      && outbox.Keys == t.outbox.Keys + {m.event} && (forall e | e in t.outbox :: outbox[e] == t.outbox[e])
      && (var row := outbox[m.event];
        && row.topic == RedemptionSucceeded && row.key == r.user && !row.published && row.attempts == 0
        && row.message.event == m.event && row.message.topic == RedemptionSucceeded && row.message.version == 1
        && row.message.occurredAt == At(now) && row.message.producer == RedemptionService
        && row.message.trace == r.trace && row.message.journey == r.journey && row.message.recommendation == ""
        && row.message.user == r.user
        && row.message.payload == Object("", r.offer, m.redemption, "", "", "", NoAttribution))
  {
    CreateOutcome(t, r, m, now);
  }

  /** The weight it moves is that of the user in the category of the offer, and everything else stays. */
  lemma SaleLeaves(t: Tables, r: CreateRequest, m: Minted, now: int)
    requires CreateTx(t, r, m, now).0 != t
    ensures var t' := CreateTx(t, r, m, now).0;
      && r.offer in t.offers
      && (var k := (r.user, t.offers[r.offer].category);
        && t'.weights.Keys == t.weights.Keys + {k}
        && (forall j | j in t.weights && j != k :: t'.weights[j] == t.weights[j])
        && t'.weights[k] == if k !in t.weights then Weight(6, 0, 0, 1)
          else var w := t.weights[k];
            Weight(Clamp(w.quarters + 6), w.clicks, w.dismissals, w.redemptions + 1))
      && t'.stations == t.stations && t'.journeys == t.journeys && t'.offers == t.offers
      && t'.recommendations == t.recommendations && t'.dismissals == t.dismissals && t'.claims == t.claims
      && t'.subscriptions == t.subscriptions && t'.deliveries == t.deliveries
  {
    CreateOutcome(t, r, m, now);
  }

  /** A string that cannot be bound fails the call once its statement is reached. */
  lemma UnstorableAnswers(t: Tables, r: CreateRequest, m: Minted, now: int)
    requires r.user != "" && r.journey != "" && r.offer != "" && r.key != "" && r.trace != ""
    ensures var reply := CreateTx(t, r, m, now).1;
      && ('\0' in r.user ==> reply == Err(Database))
      && ('\0' !in r.user && r.user in t.users && '\0' in r.key ==> reply == Err(Database))
      && (r.user in t.users && '\0' !in r.user && '\0' !in r.key
          && RowUnder(t.redemptions, r.user, r.key) == None ==>
        && ('\0' in r.journey ==> reply == Err(Database))
        && ('\0' !in r.journey && r.journey in t.journeys && t.journeys[r.journey].user == r.user && '\0' in r.offer
            ==> reply == Err(Database)))
  {
  }

  // ---------------------------------------------------------------- what merchants see, on the rows

  /** Every answer of `Verify`, each exactly when the rows call for it. */
  lemma VerifyAnswers(t: Tables, r: VerifyRequest, event: Uuid, at: int)
    requires r.redemption != "" && r.merchant != "" && r.code != "" && r.trace != "" && '\0' !in r.redemption
    ensures var reply := VerifyTx(t, r, event, at).1;
      var found := r.redemption in t.redemptions && t.redemptions[r.redemption].offer in t.offers;
      && (reply == Err(RedemptionNotFound) <==> !found)
      && (found ==>
        var row := t.redemptions[r.redemption];
        var proven := row.code == r.code && t.offers[row.offer].merchant == r.merchant;
        && (reply == Err(VerificationFailed) <==> !proven)
        && (reply == Err(RedemptionNotVerifiable) <==> proven && (row.status == Pending || row.status == Rejected))
        && (reply.Ok? ==>
          && proven && (row.status == Succeeded || row.status == Verified)
          && reply == Ok(r.redemption, row.(status := Verified)))
        && (proven && row.status == Verified ==> VerifyTx(t, r, event, at) == (t, Ok(r.redemption, row)))
        && (proven && row.status == Succeeded ==>
          (reply.Ok? <==>
            && event !in t.outbox && row.journey != "" && '\0' !in row.journey && '\0' !in row.user
            && '\0' !in r.trace && '\0' !in r.merchant)))
  {
  }

  lemma IncompleteVerify(t: Tables, r: VerifyRequest, event: Uuid, at: int)
    ensures VerifyTx(t, r, event, at).1 == Err(InvalidRequest)
      <==> r.redemption == "" || r.merchant == "" || r.code == "" || r.trace == ""
  {
  }

  /** A call that changes anything has verified one succeeded row, for the right code and merchant, and
      announced it. */
  lemma VerifyChanges(t: Tables, r: VerifyRequest, event: Uuid, at: int)
    requires VerifyTx(t, r, event, at).0 != t
    ensures var t' := VerifyTx(t, r, event, at).0;
      && r.redemption in t.redemptions
      && (var row := t.redemptions[r.redemption];
        && row.status == Succeeded && row.code == r.code
        && row.offer in t.offers && t.offers[row.offer].merchant == r.merchant
        && event !in t.outbox
        && t' == t.(redemptions := t.redemptions[r.redemption := row.(status := Verified)],
          outbox := t.outbox[event := t'.outbox[event]])
        && (var e := t'.outbox[event];
          && e.topic == MerchantVerified && e.key == row.journey && !e.published && e.attempts == 0
          && e.message.event == event && e.message.topic == MerchantVerified && e.message.version == 1
          && e.message.occurredAt == At(at) && e.message.producer == RedemptionService
          && e.message.trace == r.trace && e.message.journey == row.journey && e.message.recommendation == ""
          && e.message.user == row.user
          && e.message.payload == Object("", "", r.redemption, r.merchant, "", "", NoAttribution)))
  {
    VerifyOutcome(t, r, event, at);
  }
}
