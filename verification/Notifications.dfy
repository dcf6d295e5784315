/** Push deliveries for a created recommendation, inside the worker's claimed transaction. */
module Notifications {
  import opened Schema

  /** What the push provider answered for a subscription: accepted as sent or as delivered, or
      refused, `gone` when the endpoint no longer exists. */
  datatype Push = Accepted(delivered: bool) | Refused(gone: bool, code: string)

  /** The identifiers minted for one subscription's delivery. */
  datatype Minted = Minted(notification: Uuid, first: Uuid, second: Uuid)

  /** Everything outside the database one run of the handler depends on. */
  datatype World = World(inWindow: bool, push: map<Id, Push>, minted: map<Id, Minted>, now: int)

  predicate ValidSource(e: Envelope) {
    && e.event != "" && e.topic == RecommendationCreated && e.version == 1 && e.trace != "" && e.journey != ""
    && e.recommendation != "" && e.user != "" && e.payload.Object? && e.payload.recommendation != ""
    && e.payload.offer != ""
  }

  predicate WindowConfigured(u: User) {
    u.timezone != "" && u.startLocal != "" && u.endLocal != ""
  }

  predicate Notifies(u: User, w: World) {
    u.notify && WindowConfigured(u) && w.inWindow
  }

  predicate Receives(t: Tables, u: Hash, recommendation: Id, sub: Id) {
    && sub in t.subscriptions && t.subscriptions[sub].user == u && t.subscriptions[sub].active
    && recommendation in t.recommendations
  }

  /** The subscription query's result: every active subscription of the user, once, in some order. */
  ghost predicate QueryResult(t: Tables, u: Hash, recommendation: Id, rows: seq<Id>) {
    && (forall i, j | 0 <= i < j < |rows| :: rows[i] != rows[j])
    && (forall sub :: sub in rows <==> Receives(t, u, recommendation, sub))
  }

  function NotificationRow(source: Envelope, topic: Topic, notification: Uuid, event: Uuid, at: int): OutboxRow {
    OutboxRow(topic, source.user,
      Envelope(event, topic, 1, At(at), NotificationWorker, source.trace, source.journey, source.recommendation,
          source.user,
          Object("", "", "", "", notification, "", NoAttribution)),
      false, 0)
  }

  function StatusOf(p: Push): DeliveryStatus {
    match p
    case Accepted(delivered) => if delivered then Delivered else Sent
    case Refused(_, _) => Failed
  }

  /** PRIMARY KEY (notification_id). */
  predicate FreshNotification(t: Tables, n: Id) {
    forall k | k in t.deliveries :: t.deliveries[k].notification != n
  }

  /** The outbox with one more event, unless its id is in use or its message cannot be stored. */
  function Enqueue(outbox: map<Id, OutboxRow>, row: OutboxRow): Option<map<Id, OutboxRow>> {
    if row.message.event in outbox || !StorableMessage(row.message)
        then None else Some(outbox[row.message.event := row])
  }

  /** The outbox after the events of one push: sent, sent and delivered, or failed. */
  function Announce(outbox: map<Id, OutboxRow>, source: Envelope, push: Push, m: Minted,
      at: int): Option<map<Id, OutboxRow>>
  {
    match push
    case Refused(_, _) => Enqueue(outbox, NotificationRow(source, NotificationFailed, m.notification, m.first, at))
    case Accepted(delivered) =>
      match Enqueue(outbox, NotificationRow(source, NotificationSent, m.notification, m.first, at))
      case None => None
      case Some(sent) =>
        if !delivered then Some(sent)
        else Enqueue(sent, NotificationRow(source, NotificationDelivered, m.notification, m.second, at))
  }

  /** A subscription whose endpoint is gone is switched off. */
  function SwitchOff(subscriptions: map<Id, Subscription>, sub: Id, push: Push): map<Id, Subscription> {
    if push.Refused? && push.gone && sub in subscriptions
        then subscriptions[sub := subscriptions[sub].(active := false)] else subscriptions
  }

  function DeliveryRow(source: Envelope, push: Push, m: Minted): Delivery {
    Delivery(m.notification, source.user, source.journey, StatusOf(push))
  }

  /** The delivery row and its events; None when a minted identifier is already in use or the
      journey row is missing. */
  function Insert(t: Tables, source: Envelope, sub: Id, push: Push, m: Minted, at: int): Option<Tables> {
    if !FreshNotification(t, m.notification) || source.journey !in t.journeys then None
    else
      match Announce(t.outbox, source, push, m, at)
      case None => None
      case Some(outbox) =>
        Some(t.(deliveries := t.deliveries[(sub, source.recommendation) := DeliveryRow(source, push, m)],
          outbox := outbox, subscriptions := SwitchOff(t.subscriptions, sub, push)))
  }

  /** One subscription of the loop: skipped when already delivered. */
  function DeliverOne(t: Tables, source: Envelope, sub: Id, w: World): Option<Tables> {
    if (sub, source.recommendation) in t.deliveries then Some(t)
    else if sub !in w.push || sub !in w.minted then None
    else Insert(t, source, sub, w.push[sub], w.minted[sub], w.now)
  }

  function DeliverAll(t: Tables, source: Envelope, rows: seq<Id>, w: World): Option<Tables> {
    if rows == [] then Some(t)
    else
      match DeliverAll(t, source, rows[..|rows| - 1], w)
      case None => None
      case Some(t') => DeliverOne(t', source, rows[|rows| - 1], w)
  }

  /** The handler; None is an error, after which the claim is rolled back too. */
  function DeliverTx(t: Tables, source: Envelope, rows: seq<Id>, w: World): Option<Tables> {
    if !Storable(source.user) || source.user !in t.users then None
    else if !Notifies(t.users[source.user], w) then Some(t)
    else if !Storable(source.recommendation) then None
    else DeliverAll(t, source, rows, w)
  }

  /** `outbox.Process` around the handler. */
  function ProcessTx(t: Tables, source: Envelope, rows: seq<Id>, w: World): Tables {
    var claim := Claim(NotificationWorkerV1, source.event);
    if !ValidSource(source) || !Storable(source.event) || claim in t.claims then t
    else
      match DeliverTx(t.(claims := t.claims + {claim}), source, rows, w)
      case None => t
      case Some(t') => t'
  }

  function Claimed(t: Tables, source: Envelope): Tables {
    t.(claims := t.claims + {Claim(NotificationWorkerV1, source.event)})
  }

  /** The handler runs and succeeds: with nothing to do, or through the whole loop. */
  lemma ProcessOutcome(t: Tables, source: Envelope, rows: seq<Id>, w: World)
    ensures var t' := ProcessTx(t, source, rows, w); var t1 := Claimed(t, source);
      || t' == t
      || (ValidSource(source) && t' == t1)
      || (ValidSource(source) && DeliverAll(t1, source, rows, w).Some? && t' == DeliverAll(t1, source, rows, w).value)
  {
  }

  // ---------------------------------------------------------------- who gets a delivery

  lemma InsertServes(t: Tables, source: Envelope, sub: Id, push: Push, m: Minted, at: int)
    requires Insert(t, source, sub, push, m, at).Some?
    ensures var t' := Insert(t, source, sub, push, m, at).value;
      && t'.deliveries == t.deliveries[(sub, source.recommendation) := DeliveryRow(source, push, m)]
      && t'.claims == t.claims
  {
  }

  /** A delivery row has the status its push earned. */
  predicate Earned(k: (Id, Id), d: Delivery, recommendation: Id, w: World) {
    k.1 == recommendation && k.0 in w.push && d.status == StatusOf(w.push[k.0])
  }

  /** After the loop every listed subscription has its one row for the recommendation: the one it
      already had, or one with the status its push earned. */
  lemma {:induction false} EveryRowServed(t: Tables, source: Envelope, rows: seq<Id>, w: World)
    requires DeliverAll(t, source, rows, w).Some?
    ensures var t' := DeliverAll(t, source, rows, w).value;
      && t'.claims == t.claims
      && (forall sub | sub in rows :: (sub, source.recommendation) in t'.deliveries)
      && (forall k | k in t.deliveries :: k in t'.deliveries && t'.deliveries[k] == t.deliveries[k])
      && (forall k | k in t'.deliveries && k !in t.deliveries :: Earned(k, t'.deliveries[k], source.recommendation, w))
  {
    if rows != [] {
      var n := |rows| - 1;
      EveryRowServed(t, source, rows[..n], w);
      var mid, sub := DeliverAll(t, source, rows[..n], w).value, rows[n];
      if (sub, source.recommendation) !in mid.deliveries {
        InsertServes(mid, source, sub, w.push[sub], w.minted[sub], w.now);
      }
      assert forall s | s in rows :: s in rows[..n] || s == sub;
    }
  }

  /** The user's switch is on, and their window is configured and open. */
  predicate Wanted(t: Tables, source: Envelope, w: World) {
    && source.user in t.users
    && var u := t.users[source.user];
      u.notify && u.timezone != "" && u.startLocal != "" && u.endLocal != "" && w.inWindow
  }

  /** Nobody is bothered against their settings: the claim is all that such an event leaves. */
  lemma UnwantedIsNotSent(t: Tables, source: Envelope, rows: seq<Id>, w: World)
    requires !Wanted(t, source, w)
    ensures var t' := ProcessTx(t, source, rows, w);
      t' == t || t' == t.(claims := t.claims + {Claim(NotificationWorkerV1, source.event)})
  {
  }

  /** A handler that succeeds for a user who wants notifications now serves every subscription that
      was active when it looked, and the claim commits with the rows. */
  lemma EveryActiveSubscriptionServed(t: Tables, source: Envelope, rows: seq<Id>, w: World, sub: Id)
    requires ValidSource(source) && Claim(NotificationWorkerV1, source.event) !in t.claims
    requires Wanted(t, source, w)
    requires QueryResult(t, source.user, source.recommendation, rows)
    requires sub in t.subscriptions && t.subscriptions[sub].user == source.user && t.subscriptions[sub].active
    requires source.recommendation in t.recommendations
    ensures var t' := ProcessTx(t, source, rows, w);
      if Claim(NotificationWorkerV1, source.event) in t'.claims
        then (sub, source.recommendation) in t'.deliveries else t' == t
  {
    var t1 := t.(claims := t.claims + {Claim(NotificationWorkerV1, source.event)});
    if DeliverAll(t1, source, rows, w).Some? {
      EveryRowServed(t1, source, rows, w);
      assert Receives(t, source.user, source.recommendation, sub);
      assert sub in rows;
    } else {
      assert ProcessTx(t, source, rows, w) == t;
    }
  }

  /** Every new delivery is for the event's recommendation, to a subscription of the event's user that
      was active when the handler looked. */
  lemma OnlyActiveSubscriptionsServed(t: Tables, source: Envelope, rows: seq<Id>, w: World, k: (Id, Id))
    requires QueryResult(t, source.user, source.recommendation, rows)
    requires k in ProcessTx(t, source, rows, w).deliveries && k !in t.deliveries
    ensures Wanted(t, source, w) && k.1 == source.recommendation
    ensures k.0 in t.subscriptions && t.subscriptions[k.0].user == source.user && t.subscriptions[k.0].active
    ensures source.recommendation in t.recommendations
  {
    var t1 := t.(claims := t.claims + {Claim(NotificationWorkerV1, source.event)});
    OnlyListedServed(t1, source, rows, w, k);
  }

  lemma {:induction false} OnlyListedServed(t: Tables, source: Envelope, rows: seq<Id>, w: World, k: (Id, Id))
    requires DeliverAll(t, source, rows, w).Some?
    requires k in DeliverAll(t, source, rows, w).value.deliveries && k !in t.deliveries
    ensures k.0 in rows && k.1 == source.recommendation
  {
    if rows != [] {
      var n := |rows| - 1;
      var mid := DeliverAll(t, source, rows[..n], w).value;
      if k in mid.deliveries {
        OnlyListedServed(t, source, rows[..n], w, k);
      } else {
        InsertServes(mid, source, rows[n], w.push[rows[n]], w.minted[rows[n]], w.now);
      }
    }
  }

  /** The row and the events of one push, and what becomes of an endpoint that is gone. */
  lemma PushLeaves(t: Tables, source: Envelope, sub: Id, push: Push, m: Minted, at: int)
    requires Insert(t, source, sub, push, m, at).Some?
    ensures var t' := Insert(t, source, sub, push, m, at).value;
      && t'.deliveries == t.deliveries[(sub, source.recommendation) := Delivery(m.notification, source.user,
        source.journey, if push.Refused? then Failed else if push.delivered then Delivered else Sent)]
      && t'.outbox.Keys == t.outbox.Keys + {m.first} + (if push == Accepted(true) then {m.second} else {})
      && (forall e | e in t.outbox :: t'.outbox[e] == t.outbox[e])
      && Tells(t'.outbox[m.first], source, if push.Refused? then NotificationFailed else NotificationSent,
        m.notification, m.first, at)
      && (push == Accepted(true) ==>
        Tells(t'.outbox[m.second], source, NotificationDelivered, m.notification, m.second, at))
      && t'.subscriptions.Keys == t.subscriptions.Keys
      && (forall s | s in t.subscriptions ::
        t'.subscriptions[s] == if s == sub && push.Refused? && push.gone
          then t.subscriptions[s].(active := false) else t.subscriptions[s])
      && t' == t.(deliveries := t'.deliveries, outbox := t'.outbox, subscriptions := t'.subscriptions)
  {
  }

  /** A new outbox row about a notification of the event's user. */
  predicate Tells(row: OutboxRow, source: Envelope, topic: Topic, notification: Id, event: Id, at: int) {
    && row.topic == topic && row.key == source.user && !row.published && row.attempts == 0
    && row.message == Envelope(event, topic, 1, At(at), Producer.NotificationWorker, source.trace, source.journey,
      source.recommendation, source.user, Object("", "", "", "", notification, "", NoAttribution))
  }

  /** When one push can be recorded: fresh identifiers, a known journey, and text that can be stored. */
  lemma PushFits(t: Tables, source: Envelope, sub: Id, push: Push, m: Minted, at: int)
    ensures Insert(t, source, sub, push, m, at).Some? <==>
      && (forall k | k in t.deliveries :: t.deliveries[k].notification != m.notification)
      && source.journey in t.journeys && m.first !in t.outbox
      && '\0' !in source.trace && '\0' !in source.journey && '\0' !in source.recommendation && '\0' !in source.user
      && (push == Accepted(true) ==> m.second !in t.outbox && m.second != m.first)
  {
  }

  /** What makes an event one the worker handles. */
  lemma HandledEvents(e: Envelope)
    requires e.payload.Object?
    ensures ValidSource(e) <==>
      && e.topic == RecommendationCreated && e.version == 1
      && e.event != "" && e.trace != "" && e.journey != "" && e.recommendation != "" && e.user != ""
      && e.payload.recommendation != "" && e.payload.offer != ""
  {
  }

  /** Nothing comes of an event that is not one of the worker's, whose id cannot be bound, or that has been
      claimed already. */
  lemma NotForTheWorker(t: Tables, source: Envelope, rows: seq<Id>, w: World)
    requires !ValidSource(source) || '\0' in source.event || Claim(NotificationWorkerV1, source.event) in t.claims
    ensures ProcessTx(t, source, rows, w) == t
  {
  }
}
