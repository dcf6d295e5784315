/** Every transaction the services run on the shared tables, and the invariant all of them keep. */
module System {
  import opened Schema
  import opened Feedback
  import opened OutboxTable
  import opened ReadPaths
  import Redemptions
  import Recommending
  import Users
  import Journeys
  import Notifications
  import opened Analytics
  import opened Invariants

  datatype Op =
    | EnsureUser(user: Hash)
    | Enter(entry: Journeys.EnterRequest, journey: Uuid, event: Uuid, at: int)
    | Recommend(request: Recommending.Request, sources: Recommending.Sources, id: Uuid, event: Uuid, at: int)
    | Create(create: Redemptions.CreateRequest, minted: Redemptions.Minted, at: int)
    | Verify(verify: Redemptions.VerifyRequest, event: Uuid, at: int)
    | Record(record: Journeys.RecordRequest, trace: TraceId, at: int)
    | Notify(source: Envelope, rows: seq<Id>, world: Notifications.World)
    | Subscribe(sub: Uuid, subscription: Subscription)
    | Configure(user: Hash, settings: User)
    | MarkPublished(pending: Id)
    | FailPublish(pending: Id)

  function EnsureTx(t: Tables, u: Hash): Tables {
    if ValidUserHash(u) then Users.EnsureDemoUserTx(t, u).value else t
  }

  function SubscribeTx(t: Tables, sub: Uuid, row: Subscription): Tables {
    if row.user in t.users then t.(subscriptions := t.subscriptions[sub := row]) else t
  }

  /** Preference updates change a user row, never its balance. */
  function ConfigureTx(t: Tables, u: Hash, settings: User): Tables {
    if u in t.users then t.(users := t.users[u := settings.(balance := t.users[u].balance)]) else t
  }

  ghost function Apply(t: Tables, op: Op): Tables {
    match op
    case EnsureUser(u) => EnsureTx(t, u)
    case Enter(r, journey, event, at) => Journeys.EnterTx(t, r, journey, event, at).0
    case Recommend(q, s, id, event, at) => Recommending.StoreTx(t, q, s, id, event, at)
    case Create(r, m, at) => Redemptions.CreateTx(t, r, m, at).0
    case Verify(r, event, at) => Redemptions.VerifyTx(t, r, event, at).0
    case Record(r, trace, at) => Journeys.RecordTx(t, r, trace, at).0
    case Notify(source, rows, w) => Notifications.ProcessTx(t, source, rows, w)
    case Subscribe(sub, row) => SubscribeTx(t, sub, row)
    case Configure(u, settings) => ConfigureTx(t, u, settings)
    case MarkPublished(e) => t.(outbox := MarkAll(t.outbox, [e]))
    case FailPublish(e) => t.(outbox := CountAttempt(t.outbox, e))
  }

  /** What an operation leaves is what the call it stands for leaves. */
  lemma OpsAreCalls(t: Tables, op: Op, limit: nat)
    ensures op.Enter? ==> Apply(t, op) == Journeys.EnterTx(t, op.entry, op.journey, op.event, op.at).0
    ensures op.Recommend? ==>
        Apply(t, op) == Recommending.RecommendTx(t, op.request, op.sources, limit, op.id, op.event, op.at).0
    ensures op.Create? ==> Apply(t, op) == Redemptions.CreateTx(t, op.create, op.minted, op.at).0
    ensures op.Verify? ==> Apply(t, op) == Redemptions.VerifyTx(t, op.verify, op.event, op.at).0
    ensures op.Record? ==> Apply(t, op) == Journeys.RecordTx(t, op.record, op.trace, op.at).0
    ensures op.Notify? ==> Apply(t, op) == Notifications.ProcessTx(t, op.source, op.rows, op.world)
    ensures op.EnsureUser? && ValidUserHash(op.user) ==> Apply(t, op) == Users.EnsureDemoUserTx(t, op.user).value
    ensures op.EnsureUser? && !ValidUserHash(op.user) ==> Apply(t, op) == t
    ensures op.Subscribe? ==> Apply(t, op) == SubscribeTx(t, op.sub, op.subscription)
    ensures op.Configure? ==> Apply(t, op) == ConfigureTx(t, op.user, op.settings)
  {
  }

  /** A subscription is stored for a known user only. */
  lemma SubscribeMoves(t: Tables, sub: Uuid, row: Subscription)
    ensures var t' := SubscribeTx(t, sub, row);
      && t' == t.(subscriptions := t'.subscriptions)
      && (row.user !in t.users ==> t'.subscriptions == t.subscriptions)
      && (row.user in t.users ==> t'.subscriptions == t.subscriptions[sub := row])
  {
  }

  /** Settings are stored for a known user only, and no balance moves. */
  lemma ConfigureMoves(t: Tables, u: Hash, settings: User)
    ensures var t' := ConfigureTx(t, u, settings);
      && t' == t.(users := t'.users) && t'.users.Keys == t.users.Keys
      && (forall v | v in t.users :: t'.users[v].balance == t.users[v].balance)
      && (forall v | v in t.users && v != u :: t'.users[v] == t.users[v])
      && (u in t.users ==>
        && t'.users[u].notify == settings.notify && t'.users[u].timezone == settings.timezone
        && t'.users[u].startLocal == settings.startLocal && t'.users[u].endLocal == settings.endLocal)
  {
  }

  ghost predicate Sound(opening: map<Id, Stock>, t: Tables) {
    && Constraints(t)
    && LedgerOk(t.users, t.ledger)
    && SpendsOk(t.redemptions, t.ledger)
    && StockOk(opening, t.inventory, t.redemptions)
    && OutboxFollowed(t)
    && AllNamed(t.recommendations)
  }

  ghost predicate OutboxFollowed(t: Tables) {
    Followed(t.offers, t.redemptions, t.weights, t.claims, t.dismissals, t.deliveries, t.outbox)
  }

  /** A catalog with stock and nobody in it yet. */
  ghost predicate Opening(t: Tables) {
    && t.users == map[] && t.ledger == map[] && t.journeys == map[] && t.redemptions == map[] && t.weights == map[]
    && t.recommendations == map[] && t.dismissals == {} && t.claims == {} && t.subscriptions == map[]
    && t.deliveries == map[]
    && t.outbox == map[]
    && Constraints(t)
  }

  lemma OpeningIsSound(t: Tables)
    requires Opening(t)
    ensures Sound(t.inventory, t)
  {
    assert forall o :: Redeemed(t.redemptions, o) == {};
    forall u: Hash, category: string ensures Weighted(t.offers, t.weights, t.outbox, u, category) {
      assert Sources(t.offers, t.outbox, RecommendationClicked, u, category) == {};
      assert Sources(t.offers, t.outbox, RecommendationDismissed, u, category) == {};
      assert Sources(t.offers, t.outbox, RedemptionSucceeded, u, category) == {};
    }
  }

  // ---------------------------------------------------------------- provisioning, journeys, recommendations

  lemma EnsureUserKeeps(opening: map<Id, Stock>, t: Tables, u: Hash)
    requires Sound(opening, t) && ValidUserHash(u)
    ensures Sound(opening, Users.EnsureDemoUserTx(t, u).value)
  {
    if u !in t.users {
      var users' := t.users[u := Users.NEW_USER];
      PostingKeepsLedger(t.users, t.ledger, u, Users.NEW_USER, Users.OPENING);
      PostingKeepsEntries(t.users, t.ledger, u, Users.NEW_USER, Users.OPENING);
      OpeningKeepsSpends(t.redemptions, t.ledger, u, Users.OPENING);
      GrowingKeepsReferences(t.users, users', t.journeys, t.journeys, t.offers, t.redemptions, t.recommendations);
      GrowingKeepsOwners(t.users, users', t.stations, t.journeys);
    }
  }

  /** An event of the journey or recommendation topics, which no other table follows. */
  lemma PlainEventKeeps(t: Tables, e: Id, row: OutboxRow)
    requires e !in t.outbox && (row.message.topic == JourneyEntered || row.message.topic == RecommendationCreated)
    requires OutboxFollowed(t) && Projectable(e, row)
    ensures OutboxFollowed(t.(outbox := t.outbox[e := row]))
  {
    NeutralEventKeepsEvents(t.offers, t.redemptions, t.outbox, e, row);
    OtherEventKeepsDeliveries(t.deliveries, t.outbox, e, row);
    NeutralEventKeepsWeights(t.offers, t.weights, t.outbox, e, row);
    OtherEventKeepsClaims(t.claims, t.dismissals, t.outbox, e, row);
    InsertKeepsOutbox(t.outbox, e, row);
  }

  lemma EnteredKeeps(opening: map<Id, Stock>, t: Tables, r: Journeys.EnterRequest, journey: Uuid, event: Uuid, at: int)
    requires Sound(opening, t) && r.user in t.users && r.user != "" && r.station in t.stations
    requires Journeys.Enterable(t, r, journey, event)
    ensures Sound(opening, Journeys.Entered(t, r, journey, event, at))
  {
    PlainEventKeeps(t, event, Journeys.EnteredRow(r, journey, event, at));
    JourneyKeepsOwners(t.users, t.stations, t.journeys, journey, Journey(r.user, r.station));
    GrowingKeepsReferences(t.users, t.users, t.journeys, t.journeys[journey := Journey(r.user, r.station)],
      t.offers, t.redemptions, t.recommendations);
  }

  lemma EnterKeeps(opening: map<Id, Stock>, t: Tables, r: Journeys.EnterRequest, journey: Uuid, event: Uuid, at: int)
    requires Sound(opening, t)
    ensures Sound(opening, Journeys.EnterTx(t, r, journey, event, at).0)
  {
    Journeys.EnterOutcome(t, r, journey, event, at);
    var (t', reply) := Journeys.EnterTx(t, r, journey, event, at);
    if reply.Ok? {
      var t1 := Users.EnsureDemoUserTx(t, r.user).value;
      assert ValidUserHash(r.user) && r.station in t1.stations;
      EnsureUserKeeps(opening, t, r.user);
      EnteredKeeps(opening, t1, r, journey, event, at);
    }
  }

  lemma NamingKeepsNames(rows: map<Id, Recommendation>, id: Id, row: Recommendation)
    requires AllNamed(rows) && Named(row)
    ensures AllNamed(rows[id := row])
  {
  }

  lemma StoredKeeps(opening: map<Id, Stock>, t: Tables, q: Recommending.Request, row: Recommendation, id: Uuid,
      event: Uuid, at: int)
    requires Sound(opening, t) && Recommending.Insertable(t, q, row, id, event)
    requires q.user != "" && q.trace != "" && row.journey != "" && Named(row)
    ensures Sound(opening, Recommending.Stored(t, q, row, id, event, at))
  {
    RecommendingKeepsRows(t.journeys, t.offers, t.recommendations, id, row);
    PlainEventKeeps(t, event, Recommending.CreatedRow(q.user, q.trace, id, event, row, at));
    NamingKeepsNames(t.recommendations, id, row);
  }

  lemma RecommendKeeps(opening: map<Id, Stock>, t: Tables, q: Recommending.Request, s: Recommending.Sources, id: Uuid,
      event: Uuid, at: int)
    requires Sound(opening, t)
    ensures Sound(opening, Recommending.StoreTx(t, q, s, id, event, at))
  {
    Recommending.StoreOutcome(t, q, s, id, event, at);
    if Recommending.Stores(t, q, s, id, event) {
      Recommending.StoredRow(t, q, s);
      StoredKeeps(opening, t, q, Recommending.Decide(t, q, s).row, id, event, at);
    }
  }

  // ---------------------------------------------------------------- redemption

  /** What a granted and insertable `Create` has established about the tables. */
  ghost predicate Ready(t: Tables, r: Redemptions.CreateRequest, m: Redemptions.Minted) {
    Redemptions.Cleared(t, r) && Redemptions.Insertable(t, r, m)
  }

  function Charged(t: Tables, r: Redemptions.CreateRequest): User
    requires r.user in t.users && r.offer in t.offers
  {
    t.users[r.user].(balance := t.users[r.user].balance - t.offers[r.offer].cost)
  }

  function Charge(t: Tables, r: Redemptions.CreateRequest, m: Redemptions.Minted): Entry
    requires r.user in t.users && r.offer in t.offers
  {
    Entry(Some(m.redemption), -(t.offers[r.offer].cost as int), t.users[r.user].balance - t.offers[r.offer].cost,
        RedemptionReason)
  }

  lemma GrantedPoints(t: Tables, r: Redemptions.CreateRequest, m: Redemptions.Minted, at: int)
    requires Ready(t, r, m)
    ensures var t' := Redemptions.Granted(t, r, m, at);
      && t'.users == t.users[r.user := Charged(t, r)]
      && t'.ledger == t.ledger[r.user := Entries(t.ledger, r.user) + [Charge(t, r, m)]]
      && t'.redemptions == t.redemptions[m.redemption := Redemptions.NewRow(r, m, t.offers[r.offer].cost)]
  {
  }

  lemma CreateKeepsPoints(t: Tables, r: Redemptions.CreateRequest, m: Redemptions.Minted, at: int)
    requires LedgerOk(t.users, t.ledger) && SpendsOk(t.redemptions, t.ledger) && EntriesOk(t.users, t.ledger)
        && Ready(t, r, m)
    ensures var t' := Redemptions.Granted(t, r, m, at);
      LedgerOk(t'.users, t'.ledger) && SpendsOk(t'.redemptions, t'.ledger) && EntriesOk(t'.users, t'.ledger)
  {
    GrantedPoints(t, r, m, at);
    PostingKeepsLedger(t.users, t.ledger, r.user, Charged(t, r), Charge(t, r, m));
    PostingKeepsEntries(t.users, t.ledger, r.user, Charged(t, r), Charge(t, r, m));
    SpendingKeepsSpends(t.redemptions, t.ledger, m.redemption, Redemptions.NewRow(r, m, t.offers[r.offer].cost),
        Charge(t, r, m));
  }

  lemma CreateKeepsCatalog(t: Tables, r: Redemptions.CreateRequest, m: Redemptions.Minted, at: int)
    requires UsersOk(t.users) && CatalogOk(t.offers, t.inventory) && JourneysOk(t.users, t.stations, t.journeys)
        && Ready(t, r, m)
    ensures var t' := Redemptions.Granted(t, r, m, at);
    UsersOk(t'.users) && CatalogOk(t'.offers, t'.inventory) && JourneysOk(t'.users, t'.stations, t'.journeys)
  {
  }

  lemma CreateKeepsRows(t: Tables, r: Redemptions.CreateRequest, m: Redemptions.Minted, at: int)
    requires Constraints(t) && Ready(t, r, m)
    ensures var t' := Redemptions.Granted(t, r, m, at);
      UniqueRedemptions(t'.redemptions) && RedemptionsOk(t'.users, t'.journeys, t'.offers, t'.redemptions)
  {
    InsertingKeepsUnique(t.redemptions, m.redemption, Redemptions.NewRow(r, m, t.offers[r.offer].cost));
  }

  lemma CreateKeepsConstraints(t: Tables, r: Redemptions.CreateRequest, m: Redemptions.Minted, at: int)
    requires Constraints(t) && LedgerOk(t.users, t.ledger) && SpendsOk(t.redemptions, t.ledger) && Ready(t, r, m)
    ensures Constraints(Redemptions.Granted(t, r, m, at))
  {
    CreateKeepsCatalog(t, r, m, at);
    CreateKeepsRows(t, r, m, at);
    CreateKeepsPoints(t, r, m, at);
  }

  lemma CreateKeepsOutbox(t: Tables, r: Redemptions.CreateRequest, m: Redemptions.Minted, at: int)
    requires OutboxFollowed(t) && Ready(t, r, m)
    ensures OutboxFollowed(Redemptions.Granted(t, r, m, at))
  {
    var row := Redemptions.SucceededRow(r, m, at);
    SucceedingKeepsEvents(t.offers, t.redemptions, t.outbox, m.redemption,
        Redemptions.NewRow(r, m, t.offers[r.offer].cost), m.event, row);
    OtherEventKeepsDeliveries(t.deliveries, t.outbox, m.event, row);
    OtherEventKeepsClaims(t.claims, t.dismissals, t.outbox, m.event, row);
    SignalKeepsWeights(t.offers, t.weights, t.outbox, m.event, row, t.offers[r.offer].category);
    InsertKeepsOutbox(t.outbox, m.event, row);
  }

  lemma CreateKeepsStock(opening: map<Id, Stock>, t: Tables, r: Redemptions.CreateRequest, m: Redemptions.Minted,
      at: int)
    requires CatalogOk(t.offers, t.inventory) && StockOk(opening, t.inventory, t.redemptions) && Ready(t, r, m)
    ensures var t' := Redemptions.Granted(t, r, m, at); StockOk(opening, t'.inventory, t'.redemptions)
  {
    RedeemingKeepsStock(opening, t.inventory, t.redemptions, m.redemption,
        Redemptions.NewRow(r, m, t.offers[r.offer].cost));
  }

  lemma CreateKeeps(opening: map<Id, Stock>, t: Tables, r: Redemptions.CreateRequest, m: Redemptions.Minted, at: int)
    requires Sound(opening, t) && Ready(t, r, m)
    ensures Sound(opening, Redemptions.Granted(t, r, m, at))
  {
    CreateKeepsConstraints(t, r, m, at);
    CreateKeepsPoints(t, r, m, at);
    CreateKeepsOutbox(t, r, m, at);
    CreateKeepsStock(opening, t, r, m, at);
  }

  lemma VerifyKeepsOutbox(t: Tables, r: Redemptions.VerifyRequest, event: Uuid, at: int)
    requires OutboxFollowed(t) && Redemptions.Confirms(t, r, event)
    ensures OutboxFollowed(Redemptions.Confirmed(t, r, event, at))
  {
    var id := r.redemption;
    var row := Redemptions.VerifiedRow(r, event, t.redemptions[id].journey, t.redemptions[id].user, at);
    VerifiedEventKeeps(t.offers, t.redemptions, t.weights, t.claims, t.dismissals, t.deliveries, t.outbox, id, event,
        row);
  }

  lemma VerifyKeeps(opening: map<Id, Stock>, t: Tables, r: Redemptions.VerifyRequest, event: Uuid, at: int)
    requires Sound(opening, t) && Redemptions.Confirms(t, r, event)
    ensures Sound(opening, Redemptions.Confirmed(t, r, event, at))
  {
    VerifyingKeepsRows(t.users, t.journeys, t.offers, t.redemptions, r.redemption);
    VerifyingKeepsSpends(t.redemptions, t.ledger, r.redemption);
    VerifyingKeepsStock(opening, t.inventory, t.redemptions, r.redemption);
    VerifyKeepsOutbox(t, r, event, at);
  }

  // ---------------------------------------------------------------- feedback

  /** What a recording call has established about the tables. */
  lemma RecordsAreIdentified(t: Tables, r: Journeys.RecordRequest, offer: Id, trace: TraceId, at: int)
    requires RecommendationsOk(t.journeys, t.offers, t.recommendations) && Journeys.Target(t, r) == Some(offer)
    ensures var row := Journeys.FeedbackRow(r, Journeys.EventOf(r, offer), offer, trace, at);
      Identified(Journeys.EventOf(r, offer), row.message) && Projectable(Journeys.EventOf(r, offer), row)
  {
    HashStorable(r.user);
    var rec := t.recommendations[r.recommendation];
    assert StorableRow(r.recommendation, rec);
    assert Storable(offer);
    var parts := Journeys.Identity(r.user, r.journey, r.recommendation, offer, r.topic);
    assert Journeys.Join(parts) == parts[0] + Journeys.NUL + Journeys.Join(parts[1..]);
    assert |Journeys.Join(parts)| > 0;
  }

  lemma RecordKeepsWeights(t: Tables, r: Journeys.RecordRequest, offer: Id, trace: TraceId, at: int)
    requires WeightsOk(t.offers, t.weights, t.outbox) && Journeys.Recordable(r.topic)
        && Learned(t, r.user, offer, r.topic).Some?
    requires Journeys.EventOf(r, offer) !in t.outbox
    ensures WeightsOk(t.offers, Learned(t, r.user, offer, r.topic).value,
      t.outbox[Journeys.EventOf(r, offer) := Journeys.FeedbackRow(r, Journeys.EventOf(r, offer), offer,
          trace, at)])
  {
    var e := Journeys.EventOf(r, offer);
    var row := Journeys.FeedbackRow(r, e, offer, trace, at);
    if Signals(r.topic) {
      SignalKeepsWeights(t.offers, t.weights, t.outbox, e, row, t.offers[offer].category);
    } else {
      NeutralEventKeepsWeights(t.offers, t.weights, t.outbox, e, row);
    }
  }

  lemma RecordKeepsOutbox(t: Tables, r: Journeys.RecordRequest, offer: Id, trace: TraceId, at: int)
    requires OutboxFollowed(t) && RecommendationsOk(t.journeys, t.offers, t.recommendations)
    requires Journeys.Target(t, r) == Some(offer) && Learned(t, r.user, offer, r.topic).Some?
        && Journeys.EventOf(r, offer) !in t.outbox
    ensures OutboxFollowed(Journeys.Recorded(t, r, offer, Learned(t, r.user, offer, r.topic).value, trace, at))
  {
    var e := Journeys.EventOf(r, offer);
    var row := Journeys.FeedbackRow(r, e, offer, trace, at);
    var t' := Journeys.Recorded(t, r, offer, Learned(t, r.user, offer, r.topic).value, trace, at);
    assert t'.outbox == t.outbox[e := row] && t'.claims == t.claims + {Claim(GatewayFeedback, e)};
    RecordsAreIdentified(t, r, offer, trace, at);
    NeutralEventKeepsEvents(t.offers, t.redemptions, t.outbox, e, row);
    OtherEventKeepsDeliveries(t.deliveries, t.outbox, e, row);
    RecordingKeepsClaims(t.claims, t.dismissals, t'.dismissals, t.outbox, e, row);
    RecordKeepsWeights(t, r, offer, trace, at);
    assert Projectable(e, row);
    InsertKeepsOutbox(t.outbox, e, row);
  }

  lemma RecordedKeeps(opening: map<Id, Stock>, t: Tables, r: Journeys.RecordRequest, offer: Id, trace: TraceId, at: int)
    requires Sound(opening, t) && Journeys.Target(t, r) == Some(offer)
    requires Learned(t, r.user, offer, r.topic).Some? && Journeys.EventOf(r, offer) !in t.outbox
    ensures Sound(opening, Journeys.Recorded(t, r, offer, Learned(t, r.user, offer, r.topic).value, trace, at))
  {
    RecordKeepsOutbox(t, r, offer, trace, at);
  }

  lemma RecordKeeps(opening: map<Id, Stock>, t: Tables, r: Journeys.RecordRequest, trace: TraceId, at: int)
    requires Sound(opening, t)
    ensures Sound(opening, Journeys.RecordTx(t, r, trace, at).0)
  {
    Journeys.RecordOutcome(t, r, trace, at);
    if Journeys.Records(t, r, trace) {
      RecordedKeeps(opening, t, r, Journeys.Target(t, r).value, trace, at);
    }
  }

  // ---------------------------------------------------------------- notifications

  function FirstRow(source: Envelope, push: Notifications.Push, m: Notifications.Minted, at: int): OutboxRow {
    Notifications.NotificationRow(source, if push.Refused?
        then NotificationFailed else NotificationSent, m.notification, m.first, at)
  }

  function FirstDelivery(source: Envelope, push: Notifications.Push, m: Notifications.Minted): Delivery {
    Delivery(m.notification, source.user, source.journey, if push.Refused? then Failed else Sent)
  }

  lemma InsertedOnce(t: Tables, source: Envelope, sub: Id, push: Notifications.Push, m: Notifications.Minted, at: int)
    requires Notifications.Insert(t, source, sub, push, m, at).Some? && push != Notifications.Accepted(true)
    ensures var t' := Notifications.Insert(t, source, sub, push, m, at).value;
      && SameBooks(t, t')
      && t'.deliveries == t.deliveries[(sub, source.recommendation) := FirstDelivery(source, push, m)]
      && t'.outbox == t.outbox[m.first := FirstRow(source, push, m, at)]
  {
  }

  lemma InsertedTwice(t: Tables, source: Envelope, sub: Id, m: Notifications.Minted, at: int)
    requires Notifications.Insert(t, source, sub, Notifications.Accepted(true), m, at).Some?
    ensures var t' := Notifications.Insert(t, source, sub, Notifications.Accepted(true), m, at).value;
      var key, d := (sub, source.recommendation), FirstDelivery(source, Notifications.Accepted(true), m);
      var first := t.outbox[m.first := FirstRow(source, Notifications.Accepted(true), m, at)];
      && SameBooks(t, t') && m.second !in first
      && t'.deliveries == t.deliveries[key := d][key := d.(status := Delivered)]
      && t'.outbox == first[m.second := Notifications.NotificationRow(source, NotificationDelivered, m.notification,
        m.second, at)]
  {
  }

  /** A sent or a failed delivery with its one event. */
  lemma OneEventKeeps(t: Tables, source: Envelope, sub: Id, push: Notifications.Push, m: Notifications.Minted, at: int)
    requires OutboxFollowed(t) && Notifications.ValidSource(source) && (sub, source.recommendation) !in t.deliveries
    requires m.first !in t.outbox && Notifications.FreshNotification(t, m.notification)
    ensures Followed(t.offers, t.redemptions, t.weights, t.claims, t.dismissals,
      t.deliveries[(sub, source.recommendation) := FirstDelivery(source, push, m)],
      t.outbox[m.first := FirstRow(source, push, m, at)])
  {
    FirstEventKeeps(t.offers, t.redemptions, t.weights, t.claims, t.dismissals, t.deliveries, t.outbox,
      (sub, source.recommendation), FirstDelivery(source, push, m), m.first,
      FirstRow(source, push, m, at));
  }

  lemma InsertOnceKeeps(t: Tables, source: Envelope, sub: Id, push: Notifications.Push, m: Notifications.Minted,
      at: int)
    requires OutboxFollowed(t) && Notifications.ValidSource(source) && (sub, source.recommendation) !in t.deliveries
    requires Notifications.Insert(t, source, sub, push, m, at).Some? && push != Notifications.Accepted(true)
    ensures OutboxFollowed(Notifications.Insert(t, source, sub, push, m, at).value)
  {
    InsertedOnce(t, source, sub, push, m, at);
    OneEventKeeps(t, source, sub, push, m, at);
  }

  lemma InsertTwiceKeeps(t: Tables, source: Envelope, sub: Id, m: Notifications.Minted, at: int)
    requires OutboxFollowed(t) && Notifications.ValidSource(source) && (sub, source.recommendation) !in t.deliveries
    requires Notifications.Insert(t, source, sub, Notifications.Accepted(true), m, at).Some?
    ensures OutboxFollowed(Notifications.Insert(t, source, sub, Notifications.Accepted(true), m, at).value)
  {
    var push := Notifications.Accepted(true);
    InsertedTwice(t, source, sub, m, at);
    TwoEventsKeep(t.offers, t.redemptions, t.weights, t.claims, t.dismissals, t.deliveries, t.outbox,
      (sub, source.recommendation), FirstDelivery(source, push, m), m.first, FirstRow(source, push, m, at),
      m.second,
      Notifications.NotificationRow(source, NotificationDelivered, m.notification, m.second, at));
  }

  lemma InsertKeeps(t: Tables, source: Envelope, sub: Id, push: Notifications.Push, m: Notifications.Minted, at: int)
    requires OutboxFollowed(t) && Notifications.ValidSource(source) && (sub, source.recommendation) !in t.deliveries
    requires Notifications.Insert(t, source, sub, push, m, at).Some?
    ensures OutboxFollowed(Notifications.Insert(t, source, sub, push, m, at).value)
    ensures SameBooks(t, Notifications.Insert(t, source, sub, push, m, at).value)
  {
    if push == Notifications.Accepted(true) {
      InsertedTwice(t, source, sub, m, at);
      InsertTwiceKeeps(t, source, sub, m, at);
    } else {
      InsertedOnce(t, source, sub, push, m, at);
      InsertOnceKeeps(t, source, sub, push, m, at);
    }
  }

  /** What a delivery run leaves alone. */
  predicate SameBooks(t: Tables, t': Tables) {
    && t'.users == t.users && t'.ledger == t.ledger && t'.journeys == t.journeys && t'.offers == t.offers
    && t'.inventory == t.inventory
    && t'.redemptions == t.redemptions && t'.recommendations == t.recommendations && t'.weights == t.weights
    && t'.dismissals == t.dismissals && t'.claims == t.claims
  }

  lemma {:induction false} DeliverAllKeeps(t: Tables, source: Envelope, rows: seq<Id>, w: Notifications.World)
    requires OutboxFollowed(t) && Notifications.ValidSource(source)
        && Notifications.DeliverAll(t, source, rows, w).Some?
    ensures var t' := Notifications.DeliverAll(t, source, rows, w).value; OutboxFollowed(t') && SameBooks(t, t')
  {
    if rows != [] {
      var n := |rows| - 1;
      DeliverAllKeeps(t, source, rows[..n], w);
      var t' := Notifications.DeliverAll(t, source, rows[..n], w).value;
      var sub := rows[n];
      if (sub, source.recommendation) !in t'.deliveries {
        InsertKeeps(t', source, sub, w.push[sub], w.minted[sub], w.now);
      }
    }
  }

  lemma ClaimingKeeps(opening: map<Id, Stock>, t: Tables, source: Envelope)
    requires Sound(opening, t)
    ensures Sound(opening, Notifications.Claimed(t, source))
  {
    ForeignClaimKeepsClaims(t.claims, t.dismissals, t.outbox, Claim(NotificationWorkerV1, source.event));
  }

  lemma DeliveringKeeps(opening: map<Id, Stock>, t: Tables, source: Envelope, rows: seq<Id>, w: Notifications.World)
    requires Sound(opening, t) && Notifications.ValidSource(source)
        && Notifications.DeliverAll(t, source, rows, w).Some?
    ensures Sound(opening, Notifications.DeliverAll(t, source, rows, w).value)
  {
    DeliverAllKeeps(t, source, rows, w);
  }

  lemma NotifyKeeps(opening: map<Id, Stock>, t: Tables, source: Envelope, rows: seq<Id>, w: Notifications.World)
    requires Sound(opening, t)
    ensures Sound(opening, Notifications.ProcessTx(t, source, rows, w))
  {
    var t1 := Notifications.Claimed(t, source);
    Notifications.ProcessOutcome(t, source, rows, w);
    ClaimingKeeps(opening, t, source);
    if Notifications.ValidSource(source) && Notifications.DeliverAll(t1, source, rows, w).Some? {
      DeliveringKeeps(opening, t1, source, rows, w);
    }
  }

  // ---------------------------------------------------------------- settings and publishing marks

  lemma SettingsKeepUsers(t: Tables, users': map<Hash, User>)
    requires UsersOk(t.users) && EntriesOk(t.users, t.ledger) && LedgerOk(t.users, t.ledger)
    requires users'.Keys == t.users.Keys && forall u | u in t.users :: users'[u].balance == t.users[u].balance
    ensures UsersOk(users') && EntriesOk(users', t.ledger) && LedgerOk(users', t.ledger)
  {
  }

  lemma ConfigureKeeps(opening: map<Id, Stock>, t: Tables, u: Hash, s: User)
    requires Sound(opening, t) && u in t.users
    ensures Sound(opening, t.(users := t.users[u := s.(balance := t.users[u].balance)]))
  {
    var users' := t.users[u := s.(balance := t.users[u].balance)];
    SettingsKeepUsers(t, users');
    GrowingKeepsReferences(t.users, users', t.journeys, t.journeys, t.offers, t.redemptions, t.recommendations);
    GrowingKeepsOwners(t.users, users', t.stations, t.journeys);
  }

  // ---------------------------------------------------------------- every operation, every run

  lemma CreateTxKeeps(opening: map<Id, Stock>, t: Tables, r: Redemptions.CreateRequest, m: Redemptions.Minted, at: int)
    requires Sound(opening, t)
    ensures Sound(opening, Redemptions.CreateTx(t, r, m, at).0)
  {
    Redemptions.CreateOutcome(t, r, m, at);
    if Redemptions.Grants(t, r, m, at) {
      CreateKeeps(opening, t, r, m, at);
    }
  }

  lemma VerifyTxKeeps(opening: map<Id, Stock>, t: Tables, r: Redemptions.VerifyRequest, event: Uuid, at: int)
    requires Sound(opening, t)
    ensures Sound(opening, Redemptions.VerifyTx(t, r, event, at).0)
  {
    Redemptions.VerifyOutcome(t, r, event, at);
    if Redemptions.Confirms(t, r, event) {
      VerifyKeeps(opening, t, r, event, at);
    }
  }

  lemma RepublishKeeps(opening: map<Id, Stock>, t: Tables, outbox: map<Id, OutboxRow>)
    requires Sound(opening, t) && SameMessages(t.outbox, outbox)
    ensures Sound(opening, t.(outbox := outbox))
  {
    RemarkKeeps(t.offers, t.redemptions, t.weights, t.claims, t.dismissals, t.deliveries, t.outbox, outbox);
  }

  lemma EnsureTxKeeps(opening: map<Id, Stock>, t: Tables, u: Hash)
    requires Sound(opening, t)
    ensures Sound(opening, EnsureTx(t, u))
  {
    if ValidUserHash(u) {
      EnsureUserKeeps(opening, t, u);
    }
  }

  lemma ConfigureTxKeeps(opening: map<Id, Stock>, t: Tables, u: Hash, settings: User)
    requires Sound(opening, t)
    ensures Sound(opening, ConfigureTx(t, u, settings))
  {
    if u in t.users {
      ConfigureKeeps(opening, t, u, settings);
    }
  }

  lemma RedemptionOpKeeps(opening: map<Id, Stock>, t: Tables, op: Op)
    requires Sound(opening, t) && (op.Create? || op.Verify?)
    ensures Sound(opening, Apply(t, op))
  {
    match op
    case Create(r, m, at) => CreateTxKeeps(opening, t, r, m, at);
    case Verify(r, event, at) => VerifyTxKeeps(opening, t, r, event, at);
  }

  lemma SubscribeTxKeeps(opening: map<Id, Stock>, t: Tables, sub: Uuid, row: Subscription)
    requires Sound(opening, t)
    ensures Sound(opening, SubscribeTx(t, sub, row))
  {
  }

  lemma GatewayOpKeeps(opening: map<Id, Stock>, t: Tables, op: Op)
    requires Sound(opening, t) && (op.EnsureUser? || op.Enter? || op.Record?)
    ensures Sound(opening, Apply(t, op))
  {
    match op
    case EnsureUser(u) => EnsureTxKeeps(opening, t, u);
    case Enter(r, journey, event, at) => EnterKeeps(opening, t, r, journey, event, at);
    case Record(r, trace, at) => RecordKeeps(opening, t, r, trace, at);
  }

  lemma WorkerOpKeeps(opening: map<Id, Stock>, t: Tables, op: Op)
    requires Sound(opening, t) && (op.Recommend? || op.Notify?)
    ensures Sound(opening, Apply(t, op))
  {
    match op
    case Recommend(q, s, id, event, at) => RecommendKeeps(opening, t, q, s, id, event, at);
    case Notify(source, rows, w) => NotifyKeeps(opening, t, source, rows, w);
  }

  lemma MarkKeeps(opening: map<Id, Stock>, t: Tables, e: Id)
    requires Sound(opening, t)
    ensures Sound(opening, t.(outbox := MarkAll(t.outbox, [e])))
  {
    MarksSayTheSame(t.outbox, [e]);
    RepublishKeeps(opening, t, MarkAll(t.outbox, [e]));
  }

  lemma CountKeeps(opening: map<Id, Stock>, t: Tables, e: Id)
    requires Sound(opening, t)
    ensures Sound(opening, t.(outbox := CountAttempt(t.outbox, e)))
  {
    CountSaysTheSame(t.outbox, e);
    RepublishKeeps(opening, t, CountAttempt(t.outbox, e));
  }

  /** Every operation keeps the invariant, whatever its arguments. */
  lemma OpKeeps(opening: map<Id, Stock>, t: Tables, op: Op)
    requires Sound(opening, t)
    ensures Sound(opening, Apply(t, op))
  {
    if op.Create? || op.Verify? {
      RedemptionOpKeeps(opening, t, op);
    } else if op.EnsureUser? || op.Enter? || op.Record? {
      GatewayOpKeeps(opening, t, op);
    } else if op.Recommend? || op.Notify? {
      WorkerOpKeeps(opening, t, op);
    } else if op.MarkPublished? {
      MarkKeeps(opening, t, op.pending);
    } else if op.FailPublish? {
      CountKeeps(opening, t, op.pending);
    } else if op.Subscribe? {
      SubscribeTxKeeps(opening, t, op.sub, op.subscription);
    } else {
      ConfigureTxKeeps(opening, t, op.user, op.settings);
    }
  }

  ghost function Run(t: Tables, ops: seq<Op>): Tables {
    if ops == [] then t else Apply(Run(t, ops[..|ops| - 1]), ops[|ops| - 1])
  }

  /** Every run of every mix of operations, refused, aborted and repeated ones included. */
  lemma {:induction false} RunsAreSound(opening: map<Id, Stock>, t: Tables, ops: seq<Op>)
    requires Sound(opening, t)
    ensures Sound(opening, Run(t, ops))
  {
    if ops != [] {
      RunsAreSound(opening, t, ops[..|ops| - 1]);
      OpKeeps(opening, Run(t, ops[..|ops| - 1]), ops[|ops| - 1]);
    }
  }
}
