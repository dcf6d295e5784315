/** What every run of the services' transactions guarantees about users, stock, events, weights and
    repeated requests. */
module Histories {
  import opened Schema
  import opened Feedback
  import R = Redemptions
  import Journeys
  import Recommending
  import Notifications
  import opened Invariants
  import opened OutboxTable
  import opened System

  // ---------------------------------------------------------------- conservation

  /** Every balance is the sum of its user's ledger, every `balance_after` the running sum, and
      neither is ever negative. */
  lemma LedgerConservation(t0: Tables, ops: seq<Op>, u: Hash)
    requires Opening(t0) && u in Run(t0, ops).users
    ensures var t := Run(t0, ops); var es := Entries(t.ledger, u);
      && 0 <= t.users[u].balance == Sum(es)
      && forall n | 0 < n <= |es| :: 0 <= es[n - 1].balanceAfter == Sum(es[..n])
  {
    OpeningIsSound(t0);
    RunsAreSound(t0.inventory, t0, ops);
    var t := Run(t0, ops);
    if u in t.ledger {
      assert EntriesOk(t.users, t.ledger);
    }
  }

  /** Stock plus live redemptions is the opening stock, the version counts the redemptions, stock is
      never negative, and nobody holds two redemptions of one offer. */
  lemma StockConservation(t0: Tables, ops: seq<Op>, o: Id)
    requires Opening(t0) && o in t0.inventory
    ensures var t := Run(t0, ops);
      && o in t.inventory && 0 <= t.inventory[o].available
      && t.inventory[o].available + |Redeemed(t.redemptions, o)| == t0.inventory[o].available
      && t.inventory[o].version == t0.inventory[o].version + |Redeemed(t.redemptions, o)|
      && forall i, j | i in Redeemed(t.redemptions, o) && j in Redeemed(t.redemptions, o) && i != j ::
        t.redemptions[i].user != t.redemptions[j].user
  {
    OpeningIsSound(t0);
    RunsAreSound(t0.inventory, t0, ops);
    var t := Run(t0, ops);
    assert CatalogOk(t.offers, t.inventory) && StockOk(t0.inventory, t.inventory, t.redemptions)
        && UniqueRedemptions(t.redemptions);
    forall i, j | i in Redeemed(t.redemptions, o) && j in Redeemed(t.redemptions, o) && i != j
        ensures t.redemptions[i].user != t.redemptions[j].user {
      assert !(Live(t.redemptions[j].status)
          && Redeems(t.redemptions[i], t.redemptions[j].user, t.redemptions[j].offer));
    }
  }

  // ---------------------------------------------------------------- what no operation takes back

  /** Redemption rows stay, change at most their status, and never leave `verified`. */
  predicate RowsPersist(rows: map<Id, Redemption>, rows': map<Id, Redemption>) {
    forall id | id in rows ::
      && id in rows' && rows'[id].(status := rows[id].status) == rows[id]
      && (rows[id].status == Verified ==> rows'[id].status == Verified)
  }

  predicate JourneysPersist(m: map<Id, Journey>, m': map<Id, Journey>) {
    forall k | k in m :: k in m' && m'[k] == m[k]
  }

  predicate RecommendationsPersist(m: map<Id, Recommendation>, m': map<Id, Recommendation>) {
    forall k | k in m :: k in m' && m'[k] == m[k]
  }

  predicate DeliveriesPersist(m: map<(Id, Id), Delivery>, m': map<(Id, Id), Delivery>) {
    forall k | k in m :: k in m' && m'[k] == m[k]
  }

  /** A ledger only ever gets entries at its end. */
  predicate LedgersGrow(ledger: map<Hash, seq<Entry>>, ledger': map<Hash, seq<Entry>>) {
    forall u | u in ledger :: u in ledger' && ledger[u] <= ledger'[u]
  }

  /** Messages stay as they were enqueued, and what is published stays so. */
  predicate MessagesPersist(outbox: map<Id, OutboxRow>, outbox': map<Id, OutboxRow>) {
    forall e | e in outbox ::
      && e in outbox' && outbox'[e].message == outbox[e].message && outbox'[e].topic == outbox[e].topic
      && outbox'[e].key == outbox[e].key && (outbox[e].published ==> outbox'[e].published)
  }

  ghost predicate Persists(t: Tables, t': Tables) {
    && t.users.Keys <= t'.users.Keys && LedgersGrow(t.ledger, t'.ledger)
    && JourneysPersist(t.journeys, t'.journeys) && RecommendationsPersist(t.recommendations, t'.recommendations)
    && RowsPersist(t.redemptions, t'.redemptions)
    && t.claims <= t'.claims && t.dismissals <= t'.dismissals && DeliveriesPersist(t.deliveries, t'.deliveries)
    && MessagesPersist(t.outbox, t'.outbox)
  }

  lemma PersistsTransitive(a: Tables, b: Tables, c: Tables)
    requires Persists(a, b) && Persists(b, c)
    ensures Persists(a, c)
  {
  }

  lemma {:induction false} DeliverAllPersists(t: Tables, source: Envelope, rows: seq<Id>, w: Notifications.World)
    requires Notifications.DeliverAll(t, source, rows, w).Some?
    ensures var t' := Notifications.DeliverAll(t, source, rows, w).value;
        SameBooks(t, t') && MessagesPersist(t.outbox, t'.outbox) && DeliveriesPersist(t.deliveries, t'.deliveries)
  {
    if rows != [] {
      var n := |rows| - 1;
      DeliverAllPersists(t, source, rows[..n], w);
      var mid, sub := Notifications.DeliverAll(t, source, rows[..n], w).value, rows[n];
      if (sub, source.recommendation) !in mid.deliveries {
        var push, m := w.push[sub], w.minted[sub];
        if push == Notifications.Accepted(true) {
          InsertedTwice(mid, source, sub, m, w.now);
        } else {
          InsertedOnce(mid, source, sub, push, m, w.now);
        }
      }
    }
  }

  lemma NotifyPersists(t: Tables, source: Envelope, rows: seq<Id>, w: Notifications.World)
    ensures Persists(t, Notifications.ProcessTx(t, source, rows, w))
  {
    var t1 := Notifications.Claimed(t, source);
    Notifications.ProcessOutcome(t, source, rows, w);
    if Notifications.DeliverAll(t1, source, rows, w).Some? {
      DeliverAllPersists(t1, source, rows, w);
    }
  }

  lemma FreshEventPersists(outbox: map<Id, OutboxRow>, e: Id, row: OutboxRow)
    requires e !in outbox
    ensures MessagesPersist(outbox, outbox[e := row])
  {
  }

  lemma GrantedPersists(t: Tables, r: R.CreateRequest, m: R.Minted, at: int)
    requires Ready(t, r, m)
    ensures Persists(t, R.Granted(t, r, m, at))
  {
    FreshEventPersists(t.outbox, m.event, R.SucceededRow(r, m, at));
  }

  lemma CreatePersists(t: Tables, r: R.CreateRequest, m: R.Minted, at: int)
    ensures Persists(t, R.CreateTx(t, r, m, at).0)
  {
    R.CreateOutcome(t, r, m, at);
    if R.Grants(t, r, m, at) {
      GrantedPersists(t, r, m, at);
    }
  }

  lemma ConfirmedPersists(t: Tables, r: R.VerifyRequest, event: Uuid, at: int)
    requires R.Confirms(t, r, event)
    ensures Persists(t, R.Confirmed(t, r, event, at))
  {
    FreshEventPersists(t.outbox, event, R.VerifiedRow(r, event, t.redemptions[r.redemption].journey,
        t.redemptions[r.redemption].user, at));
  }

  lemma VerifyPersists(t: Tables, r: R.VerifyRequest, event: Uuid, at: int)
    ensures Persists(t, R.VerifyTx(t, r, event, at).0)
  {
    R.VerifyOutcome(t, r, event, at);
    if R.Confirms(t, r, event) {
      ConfirmedPersists(t, r, event, at);
    }
  }

  lemma EnsurePersists(t: Tables, u: Hash)
    ensures Persists(t, EnsureTx(t, u))
  {
    if ValidUserHash(u) && u !in t.users {
    } else {
      assert EnsureTx(t, u) == t;
    }
  }

  lemma SubscribePersists(t: Tables, sub: Uuid, row: Subscription)
    ensures Persists(t, SubscribeTx(t, sub, row))
  {
    if row.user !in t.users {
      assert SubscribeTx(t, sub, row) == t;
    }
  }

  lemma ConfigurePersists(t: Tables, u: Hash, settings: User)
    ensures Persists(t, ConfigureTx(t, u, settings))
  {
    if u !in t.users {
      assert ConfigureTx(t, u, settings) == t;
    }
  }

  lemma EnteredPersists(t: Tables, r: Journeys.EnterRequest, journey: Uuid, event: Uuid, at: int)
    requires Journeys.Enterable(t, r, journey, event)
    ensures Persists(t, Journeys.Entered(t, r, journey, event, at))
  {
    FreshEventPersists(t.outbox, event, Journeys.EnteredRow(r, journey, event, at));
  }

  lemma EnterPersists(t: Tables, r: Journeys.EnterRequest, journey: Uuid, event: Uuid, at: int)
    ensures Persists(t, Journeys.EnterTx(t, r, journey, event, at).0)
  {
    Journeys.EnterOutcome(t, r, journey, event, at);
    if Journeys.EnterTx(t, r, journey, event, at).1.Ok? {
      var t1 := EnsureTx(t, r.user);
      EnsurePersists(t, r.user);
      EnteredPersists(t1, r, journey, event, at);
      PersistsTransitive(t, t1, Journeys.EnterTx(t, r, journey, event, at).0);
    }
  }

  lemma StoredPersists(t: Tables, q: Recommending.Request, row: Recommendation, id: Uuid, event: Uuid, at: int)
    requires Recommending.Insertable(t, q, row, id, event)
    ensures Persists(t, Recommending.Stored(t, q, row, id, event, at))
  {
    FreshEventPersists(t.outbox, event, Recommending.CreatedRow(q.user, q.trace, id, event, row, at));
  }

  lemma RecommendPersists(t: Tables, q: Recommending.Request, s: Recommending.Sources, id: Uuid, event: Uuid, at: int)
    ensures Persists(t, Recommending.StoreTx(t, q, s, id, event, at))
  {
    Recommending.StoreOutcome(t, q, s, id, event, at);
    if Recommending.Stores(t, q, s, id, event) {
      StoredPersists(t, q, Recommending.Decide(t, q, s).row, id, event, at);
    }
  }

  lemma RecordedPersists(t: Tables, r: Journeys.RecordRequest, offer: Id, weights: map<(Hash, string), Weight>,
      trace: TraceId, at: int)
    requires Journeys.EventOf(r, offer) !in t.outbox
    ensures Persists(t, Journeys.Recorded(t, r, offer, weights, trace, at))
  {
    var event := Journeys.EventOf(r, offer);
    FreshEventPersists(t.outbox, event, Journeys.FeedbackRow(r, event, offer, trace, at));
  }

  lemma RecordPersists(t: Tables, r: Journeys.RecordRequest, trace: TraceId, at: int)
    ensures Persists(t, Journeys.RecordTx(t, r, trace, at).0)
  {
    Journeys.RecordOutcome(t, r, trace, at);
    if Journeys.Records(t, r, trace) {
      var offer := Journeys.Target(t, r).value;
      RecordedPersists(t, r, offer, Learned(t, r.user, offer, r.topic).value, trace, at);
    }
  }

  lemma RepublishPersists(t: Tables, outbox: map<Id, OutboxRow>)
    requires SameMessages(t.outbox, outbox) && forall e | e in outbox && t.outbox[e].published :: outbox[e].published
    ensures Persists(t, t.(outbox := outbox))
  {
  }

  lemma MarkPersists(t: Tables, e: Id)
    ensures Persists(t, t.(outbox := MarkAll(t.outbox, [e]))) && Persists(t, t.(outbox := CountAttempt(t.outbox, e)))
  {
    MarksSayTheSame(t.outbox, [e]);
    CountSaysTheSame(t.outbox, e);
    RepublishPersists(t, MarkAll(t.outbox, [e]));
    RepublishPersists(t, CountAttempt(t.outbox, e));
  }

  lemma ServiceOpPersists(t: Tables, op: Op)
    requires op.Create? || op.Verify? || op.Enter? || op.Recommend? || op.Record? || op.Notify?
    ensures Persists(t, Apply(t, op))
  {
    match op
    case Notify(source, rows, w) => NotifyPersists(t, source, rows, w);
    case Record(r, trace, at) => RecordPersists(t, r, trace, at);
    case Create(r, m, at) => CreatePersists(t, r, m, at);
    case Verify(r, event, at) => VerifyPersists(t, r, event, at);
    case Enter(r, journey, event, at) => EnterPersists(t, r, journey, event, at);
    case Recommend(q, s, id, event, at) => RecommendPersists(t, q, s, id, event, at);
  }

  lemma MarkOpPersists(t: Tables, op: Op)
    requires op.MarkPublished? || op.FailPublish?
    ensures Persists(t, Apply(t, op))
  {
    match op
    case MarkPublished(e) => MarkPersists(t, e);
    case FailPublish(e) => MarkPersists(t, e);
  }

  lemma SettingOpPersists(t: Tables, op: Op)
    requires op.EnsureUser? || op.Subscribe? || op.Configure?
    ensures Persists(t, Apply(t, op))
  {
    match op
    case EnsureUser(u) => EnsurePersists(t, u);
    case Subscribe(sub, row) => SubscribePersists(t, sub, row);
    case Configure(u, settings) => ConfigurePersists(t, u, settings);
  }

  /** Committed rows, claims and messages are never lost. */
  lemma OpPersists(t: Tables, op: Op)
    ensures Persists(t, Apply(t, op))
  {
    if op.Create? || op.Verify? || op.Enter? || op.Recommend? || op.Record? || op.Notify? {
      ServiceOpPersists(t, op);
    } else if op.MarkPublished? || op.FailPublish? {
      MarkOpPersists(t, op);
    } else {
      SettingOpPersists(t, op);
    }
  }

  lemma {:induction false} RunPersists(t: Tables, ops: seq<Op>)
    ensures Persists(t, Run(t, ops))
  {
    if ops != [] {
      var mid := Run(t, ops[..|ops| - 1]);
      RunPersists(t, ops[..|ops| - 1]);
      OpPersists(mid, ops[|ops| - 1]);
      PersistsTransitive(t, mid, Run(t, ops));
    }
  }

  // ---------------------------------------------------------------- who moves a redemption

  lemma WorkerKeepsRedemptions(t: Tables, source: Envelope, rows: seq<Id>, w: Notifications.World)
    ensures Notifications.ProcessTx(t, source, rows, w).redemptions == t.redemptions
  {
    var t1 := Notifications.Claimed(t, source);
    Notifications.ProcessOutcome(t, source, rows, w);
    if Notifications.DeliverAll(t1, source, rows, w).Some? {
      DeliverAllPersists(t1, source, rows, w);
    }
  }

  lemma GatewayKeepsRedemptions(t: Tables, op: Op)
    requires op.Enter? || op.Record? || op.Recommend?
    ensures Apply(t, op).redemptions == t.redemptions
  {
    match op
    case Enter(r, journey, event, at) => Journeys.EnterChanges(t, r, journey, event, at);
    case Record(r, trace, at) => Journeys.RecordOutcome(t, r, trace, at);
    case Recommend(q, s, id, event, at) => Recommending.StoreOutcome(t, q, s, id, event, at);
  }

  lemma EnsuringKeepsRedemptions(t: Tables, u: Hash)
    ensures EnsureTx(t, u).redemptions == t.redemptions
  {
  }

  lemma SettingsKeepRedemptions(t: Tables, op: Op)
    requires op.EnsureUser? || op.Subscribe? || op.Configure? || op.MarkPublished? || op.FailPublish?
    ensures Apply(t, op).redemptions == t.redemptions
  {
    if op.EnsureUser? {
      EnsuringKeepsRedemptions(t, op.user);
    }
  }

  lemma OthersKeepRedemptions(t: Tables, op: Op)
    requires !op.Create? && !op.Verify?
    ensures Apply(t, op).redemptions == t.redemptions
  {
    if op.Notify? {
      WorkerKeepsRedemptions(t, op.source, op.rows, op.world);
    } else if op.Enter? || op.Record? || op.Recommend? {
      GatewayKeepsRedemptions(t, op);
    } else {
      SettingsKeepRedemptions(t, op);
    }
  }

  /** The call presents the row's own code, as the merchant of its offer. */
  predicate Presents(t: Tables, op: Op, id: Id)
    requires id in t.redemptions
  {
    && op.Verify? && op.verify.redemption == id && op.verify.code == t.redemptions[id].code
    && t.redemptions[id].offer in t.offers && op.verify.merchant == t.offers[t.redemptions[id].offer].merchant
  }

  lemma CreateKeepsRedemptions(t: Tables, r: R.CreateRequest, m: R.Minted, at: int, id: Id)
    requires id in t.redemptions
    ensures var t' := R.CreateTx(t, r, m, at).0; id in t'.redemptions && t'.redemptions[id] == t.redemptions[id]
  {
    R.CreateOutcome(t, r, m, at);
  }

  /** No operation changes a redemption except a `Verify` that presents its code as its merchant, which
      turns succeeded into verified. */
  lemma OnlyProofVerifies(t: Tables, op: Op, id: Id)
    requires id in t.redemptions
    ensures id in Apply(t, op).redemptions
    ensures Apply(t, op).redemptions[id] != t.redemptions[id] ==>
      && t.redemptions[id].status == Succeeded && Presents(t, op, id)
      && Apply(t, op).redemptions[id] == t.redemptions[id].(status := Verified)
  {
    match op
    case Create(r, m, at) => CreateKeepsRedemptions(t, r, m, at, id);
    case Verify(r, event, at) =>
      if R.VerifyTx(t, r, event, at).0 != t {
        R.VerifyChanges(t, r, event, at);
      }
    case _ => OthersKeepRedemptions(t, op);
  }

  lemma CreatedSucceeded(t: Tables, op: Op, id: Id)
    requires id !in t.redemptions && id in Apply(t, op).redemptions
    ensures Apply(t, op).redemptions[id].status == Succeeded
  {
    match op
    case Create(r, m, at) => R.CreateOutcome(t, r, m, at);
    case Verify(r, event, at) => R.VerifyOutcome(t, r, event, at);
    case _ => OthersKeepRedemptions(t, op);
  }

  /** After any run, a verified redemption was presented to its merchant: some `Verify` of the run had its
      code and the merchant of its offer. */
  lemma {:induction false} VerifiedWasPresented(t0: Tables, ops: seq<Op>, id: Id) returns (n: nat)
    requires Opening(t0) && id in Run(t0, ops).redemptions && Run(t0, ops).redemptions[id].status == Verified
    ensures n < |ops| && id in Run(t0, ops[..n]).redemptions && Presents(Run(t0, ops[..n]), ops[n], id)
  {
    var last := |ops| - 1;
    var before := Run(t0, ops[..last]);
    if id !in before.redemptions {
      CreatedSucceeded(before, ops[last], id);
      assert false;
    } else if before.redemptions[id].status == Verified {
      n := VerifiedWasPresented(t0, ops[..last], id);
      assert ops[..last][..n] == ops[..n];
    } else {
      OnlyProofVerifies(before, ops[last], id);
      n := last;
    }
  }

  // ---------------------------------------------------------------- events of redemptions and deliveries

  lemma RunEventsOk(t0: Tables, ops: seq<Op>)
    requires Opening(t0)
    ensures var t := Run(t0, ops); EventsOk(t.offers, t.redemptions, t.outbox)
  {
    OpeningIsSound(t0);
    RunsAreSound(t0.inventory, t0, ops);
  }

  lemma RunDeliveriesOk(t0: Tables, ops: seq<Op>)
    requires Opening(t0)
    ensures var t := Run(t0, ops); DeliveriesOk(t.deliveries, t.outbox)
  {
    OpeningIsSound(t0);
    RunsAreSound(t0.inventory, t0, ops);
  }

  /** One succeeded event per redemption, one verified event iff it is verified, and both tell the
      truth about the row. */
  lemma ExactlyOneEvent(t0: Tables, ops: seq<Op>, id: Id)
    requires Opening(t0) && id in Run(t0, ops).redemptions
    ensures var t := Run(t0, ops);
      && |Emitted(t.outbox, RedemptionSucceeded, id)| == 1
      && |Emitted(t.outbox, MerchantVerified, id)| == (if t.redemptions[id].status == Verified then 1 else 0)
    ensures var t := Run(t0, ops);
      forall e | e in t.outbox && OfRedemption(t.outbox[e].message.topic) ::
          Reports(t.offers, t.redemptions, t.outbox[e].message)
  {
    RunEventsOk(t0, ops);
    var t := Run(t0, ops);
    assert Evidenced(t.outbox, id, t.redemptions[id].status);
  }

  lemma DeliveryEvents(deliveries: map<(Id, Id), Delivery>, outbox: map<Id, OutboxRow>, k: (Id, Id))
    requires DeliveriesOk(deliveries, outbox) && k in deliveries
    ensures var d := deliveries[k];
      && |Emitted(outbox, NotificationSent, d.notification)| == (if d.status == Failed then 0 else 1)
      && |Emitted(outbox, NotificationDelivered, d.notification)| == (if d.status == Delivered then 1 else 0)
      && |Emitted(outbox, NotificationFailed, d.notification)| == (if d.status == Failed then 1 else 0)
  {
    var d := deliveries[k];
    forall topic | Notification(topic) ensures |Emitted(outbox, topic, d.notification)| == Announced(d.status, topic) {
    }
  }

  /** Committed notification events and delivery rows match exactly. */
  lemma DeliveriesMatchEvents(t0: Tables, ops: seq<Op>, sub: Id, recommendation: Id)
    requires Opening(t0) && (sub, recommendation) in Run(t0, ops).deliveries
    ensures var t := Run(t0, ops); var d := t.deliveries[(sub, recommendation)];
      && |Emitted(t.outbox, NotificationSent, d.notification)| == (if d.status == Failed then 0 else 1)
      && |Emitted(t.outbox, NotificationDelivered, d.notification)| == (if d.status == Delivered then 1 else 0)
      && |Emitted(t.outbox, NotificationFailed, d.notification)| == (if d.status == Failed then 1 else 0)
  {
    RunDeliveriesOk(t0, ops);
    DeliveryEvents(Run(t0, ops).deliveries, Run(t0, ops).outbox, (sub, recommendation));
  }

  /** Every notification event belongs to exactly one delivery row. */
  lemma EventsHaveDeliveries(t0: Tables, ops: seq<Op>, e: Id) returns (key: (Id, Id))
    requires Opening(t0) && e in Run(t0, ops).outbox && Notification(Run(t0, ops).outbox[e].message.topic)
    ensures var t := Run(t0, ops);
      && key in t.deliveries && Announces(key, t.deliveries[key], t.outbox[e].message)
      && forall k | k in t.deliveries && Announces(k, t.deliveries[k], t.outbox[e].message) :: k == key
  {
    RunDeliveriesOk(t0, ops);
    var t := Run(t0, ops);
    assert Reported(t.deliveries, t.outbox[e].message);
    key :| key in t.deliveries && Announces(key, t.deliveries[key], t.outbox[e].message);
  }

  // ---------------------------------------------------------------- redemption counts

  /** The user's live redemptions of offers of one category. */
  function RedeemedIn(offers: map<Id, Offer>, rows: map<Id, Redemption>, u: Hash, category: string): set<Id> {
    set id | id in rows && Live(rows[id].status) && rows[id].user == u && rows[id].offer in offers
        && offers[rows[id].offer].category == category
  }

  lemma OneOnly(s: set<Id>, a: Id, b: Id)
    requires |s| == 1 && a in s && b in s
    ensures a == b
  {
    assert |s - {a}| == 0;
    assert b in {a} + (s - {a});
  }

  lemma {:induction false} BijectionSize(f: map<Id, Id>)
    requires forall x, y | x in f && y in f && f[x] == f[y] :: x == y
    ensures |f.Keys| == |f.Values|
    decreases |f|
  {
    if f.Keys != {} {
      var x :| x in f;
      var rest := f - {x};
      BijectionSize(rest);
      assert f.Keys == rest.Keys + {x};
      forall v ensures v in f.Values <==> v in rest.Values || v == f[x] {
        if v in f.Values {
          var y :| y in f && f[y] == v;
          assert y == x || (y in rest && rest[y] == v);
        }
        if v in rest.Values {
          var y :| y in rest && rest[y] == v;
          assert f[y] == v;
        }
      }
      assert f.Values == rest.Values + {f[x]};
      assert f[x] !in rest.Values;
    }
  }

  /** Succeeded events of a user and category, each with its redemption. */
  function EventRows(outbox: map<Id, OutboxRow>, events: set<Id>): map<Id, Id>
    requires forall e | e in events :: e in outbox && outbox[e].message.payload.Object?
  {
    map e | e in events :: outbox[e].message.payload.redemption
  }

  lemma EventOfRow(offers: map<Id, Offer>, rows: map<Id, Redemption>, outbox: map<Id, OutboxRow>, id: Id, u: Hash,
      category: string)
    returns (e: Id)
    requires EventsOk(offers, rows, outbox) && id in RedeemedIn(offers, rows, u, category)
    ensures e in Sources(offers, outbox, RedemptionSucceeded, u, category) && outbox[e].message.payload.redemption == id
  {
    var emitted := Emitted(outbox, RedemptionSucceeded, id);
    assert Evidenced(outbox, id, rows[id].status);
    assert emitted != {};
    e :| e in emitted;
    assert Reports(offers, rows, outbox[e].message);
  }

  /** A succeeded event leads to its row, and the row to no other event. */
  lemma RowOfEvent(offers: map<Id, Offer>, rows: map<Id, Redemption>, outbox: map<Id, OutboxRow>, u: Hash,
      category: string, e: Id)
    requires EventsOk(offers, rows, outbox) && e in Sources(offers, outbox, RedemptionSucceeded, u, category)
    ensures outbox[e].message.payload.redemption in RedeemedIn(offers, rows, u, category)
    ensures forall x | x in Sources(offers, outbox, RedemptionSucceeded, u, category)
      && outbox[x].message.payload.redemption == outbox[e].message.payload.redemption :: x == e
  {
    var id := outbox[e].message.payload.redemption;
    assert Reports(offers, rows, outbox[e].message);
    assert Evidenced(outbox, id, rows[id].status);
    forall x | x in Sources(offers, outbox, RedemptionSucceeded, u, category)
        && outbox[x].message.payload.redemption == id ensures x == e {
      OneOnly(Emitted(outbox, RedemptionSucceeded, id), x, e);
    }
  }

  lemma SourcesAreRedemptions(offers: map<Id, Offer>, rows: map<Id, Redemption>, outbox: map<Id, OutboxRow>, u: Hash,
      category: string)
    requires EventsOk(offers, rows, outbox)
    ensures |Sources(offers, outbox, RedemptionSucceeded, u, category)| == |RedeemedIn(offers, rows, u, category)|
  {
    var events, ids := Sources(offers, outbox, RedemptionSucceeded, u, category), RedeemedIn(offers, rows, u, category);
    var f := EventRows(outbox, events);
    forall e | e in events ensures f[e] in ids && forall x | x in events && f[x] == f[e] :: x == e {
      RowOfEvent(offers, rows, outbox, u, category, e);
    }
    forall id | id in ids ensures id in f.Values {
      var e := EventOfRow(offers, rows, outbox, id, u, category);
      assert f[e] == id;
    }
    BijectionSize(f);
    assert f.Keys == events && f.Values == ids;
  }

  /** Over any run the redemption counter of a learned weight is the number of that user's redemptions
      in that category, and the weight stays in its bounds. */
  lemma RedemptionCounter(t0: Tables, ops: seq<Op>, u: Hash, category: string)
    requires Opening(t0)
    ensures var t := Run(t0, ops); var w := Counters(t.weights, u, category);
      && w.redemptions == |RedeemedIn(t.offers, t.redemptions, u, category)|
      && -20 <= w.quarters <= 20 && -3 * w.dismissals <= w.quarters <= 2 * w.clicks + 6 * w.redemptions
  {
    OpeningIsSound(t0);
    RunsAreSound(t0.inventory, t0, ops);
    var t := Run(t0, ops);
    SourcesAreRedemptions(t.offers, t.redemptions, t.outbox, u, category);
    assert Weighted(t.offers, t.weights, t.outbox, u, category);
  }

  lemma PaidRowsCost(users: map<Hash, User>, ledger: map<Hash, seq<Entry>>, rows: map<Id, Redemption>, id: Id)
    requires SpendsOk(rows, ledger) && EntriesOk(users, ledger) && id in rows && rows[id].cost >= 0
    ensures rows[id].cost > 0
  {
    var es := Entries(ledger, rows[id].user);
    assert Paid(es, id);
    var e :| e in es && Pays(e, id);
    assert Honest(rows, rows[id].user, e);
  }

  /** The ledger takes no zero entry, so no run ever commits the redemption of an offer that costs
      nothing, although its price and the redemption row would both be allowed. */
  lemma NoFreeRedemptions(t0: Tables, ops: seq<Op>, id: Id)
    requires Opening(t0) && id in Run(t0, ops).redemptions
    ensures Run(t0, ops).redemptions[id].cost > 0
  {
    OpeningIsSound(t0);
    RunsAreSound(t0.inventory, t0, ops);
    var t := Run(t0, ops);
    PaidRowsCost(t.users, t.ledger, t.redemptions, id);
  }

  // ---------------------------------------------------------------- learned weights over a run

  /** The weight signal an operation commits for a user and category, if any. */
  ghost function Signal(t: Tables, op: Op, u: Hash, category: string): seq<Topic> {
    match op
    case Create(r, m, at) =>
      if R.Grants(t, r, m, at) && r.user == u && t.offers[r.offer].category == category
          then [RedemptionSucceeded] else []
    case Record(r, trace, _) =>
      if Journeys.Records(t, r, trace) && Feedback.Signals(r.topic) && r.user == u
          && t.offers[Journeys.Target(t, r).value].category == category then [r.topic] else []
    case _ => []
  }

  ghost function Signals(t: Tables, ops: seq<Op>, u: Hash, category: string): seq<Topic> {
    if ops == [] then []
    else
      var n := |ops| - 1;
      Signals(t, ops[..n], u, category) + Signal(Run(t, ops[..n]), ops[n], u, category)
  }

  ghost predicate Follows(before: Option<Weight>, after: Option<Weight>, signal: seq<Topic>) {
    if signal == [] then after == before else |signal| == 1 && after == Some(Accumulate(before, signal[0]))
  }

  lemma CreateSignal(t: Tables, r: R.CreateRequest, m: R.Minted, at: int, u: Hash, category: string)
    ensures Follows(Row(t.weights, u, category), Row(R.CreateTx(t, r, m, at).0.weights, u, category),
      Signal(t, Create(r, m, at), u, category))
  {
    R.CreateOutcome(t, r, m, at);
  }

  lemma RecordSignal(t: Tables, r: Journeys.RecordRequest, trace: TraceId, at: int, u: Hash, category: string)
    ensures Follows(Row(t.weights, u, category), Row(Journeys.RecordTx(t, r, trace, at).0.weights, u, category),
      Signal(t, Record(r, trace, at), u, category))
  {
    Journeys.RecordOutcome(t, r, trace, at);
  }

  lemma NotifySignal(t: Tables, source: Envelope, rows: seq<Id>, w: Notifications.World)
    ensures Notifications.ProcessTx(t, source, rows, w).weights == t.weights
  {
    var t1 := Notifications.Claimed(t, source);
    Notifications.ProcessOutcome(t, source, rows, w);
    if Notifications.DeliverAll(t1, source, rows, w).Some? {
      DeliverAllPersists(t1, source, rows, w);
    }
  }

  lemma VerifySignal(t: Tables, r: R.VerifyRequest, event: Uuid, at: int)
    ensures R.VerifyTx(t, r, event, at).0.weights == t.weights
  {
  }

  lemma EnterSignal(t: Tables, r: Journeys.EnterRequest, journey: Uuid, event: Uuid, at: int)
    ensures Journeys.EnterTx(t, r, journey, event, at).0.weights == t.weights
  {
  }

  lemma OtherSignal(t: Tables, op: Op)
    requires !op.Create? && !op.Record?
    ensures Apply(t, op).weights == t.weights
  {
    match op
    case Notify(source, rows, w) => NotifySignal(t, source, rows, w);
    case Verify(r, event, at) => VerifySignal(t, r, event, at);
    case Enter(r, journey, event, at) => EnterSignal(t, r, journey, event, at);
    case Recommend(q, s, id, event, at) => Recommending.StoreOutcome(t, q, s, id, event, at);
    case EnsureUser(u) => assert EnsureTx(t, u).weights == t.weights;
    case Subscribe(sub, row) => assert SubscribeTx(t, sub, row).weights == t.weights;
    case Configure(u, settings) => assert ConfigureTx(t, u, settings).weights == t.weights;
    case MarkPublished(_) =>
    case FailPublish(_) =>
  }

  /** What one operation does to one weight row. */
  lemma OpSignal(t: Tables, op: Op, u: Hash, category: string)
    ensures Follows(Row(t.weights, u, category), Row(Apply(t, op).weights, u, category), Signal(t, op, u, category))
  {
    match op {
      case Create(r, m, at) => CreateSignal(t, r, m, at, u, category);
      case Record(r, trace, at) => RecordSignal(t, r, trace, at, u, category);
      case _ => OtherSignal(t, op);
    }
  }

  lemma AccumulatesOn(history: seq<Topic>, before: Option<Weight>, after: Option<Weight>, signal: seq<Topic>)
    requires before == After(history) && Follows(before, after, signal)
    ensures after == After(history + signal)
  {
    if signal == [] {
      assert history + signal == history;
    } else {
      assert history + signal == history + [signal[0]];
      assert (history + [signal[0]])[..|history|] == history;
    }
  }

  /** Over any run, each weight row is the accumulation of exactly the signals committed for it, in
      order: refused and repeated operations contribute nothing. */
  lemma {:induction false} WeightHistory(t0: Tables, ops: seq<Op>, u: Hash, category: string)
    requires t0.weights == map[]
    ensures Row(Run(t0, ops).weights, u, category) == After(Signals(t0, ops, u, category))
  {
    if ops != [] {
      var n := |ops| - 1;
      var t := Run(t0, ops[..n]);
      WeightHistory(t0, ops[..n], u, category);
      OpSignal(t, ops[n], u, category);
      AccumulatesOn(Signals(t0, ops[..n], u, category), Row(t.weights, u, category),
        Row(Apply(t, ops[n]).weights, u, category), Signal(t, ops[n], u, category));
    }
  }

  // ---------------------------------------------------------------- repeated requests

  lemma RunUnique(opening: map<Id, Stock>, t: Tables, ops: seq<Op>)
    requires Sound(opening, t)
    ensures UniqueRedemptions(Run(t, ops).redemptions)
  {
    RunsAreSound(opening, t, ops);
  }

  lemma RunKeepsRow(t: Tables, ops: seq<Op>, id: Id)
    requires id in t.redemptions
    ensures var t' := Run(t, ops);
      && id in t'.redemptions && t'.redemptions[id].(status := t.redemptions[id].status) == t.redemptions[id]
      && (t.redemptions[id].status == Verified ==> t'.redemptions[id].status == Verified)
      && t.users.Keys <= t'.users.Keys
  {
    RunPersists(t, ops);
    assert RowsPersist(t.redemptions, Run(t, ops).redemptions);
  }

  lemma RowOwnerKnown(opening: map<Id, Stock>, t: Tables, id: Id)
    requires Sound(opening, t) && id in t.redemptions
    ensures t.redemptions[id].user in t.users && Storable(t.redemptions[id].user) && Storable(t.redemptions[id].key)
  {
    assert RedemptionsOk(t.users, t.journeys, t.offers, t.redemptions);
  }

  lemma ReplayDecision(t: Tables, id: Id, r: R.CreateRequest, m: R.Minted, at: int)
    requires UniqueRedemptions(t.redemptions) && id in t.redemptions && Matches(t.redemptions[id], r.user, r.key)
    requires R.CompleteCreate(r) && r.user in t.users && Storable(r.user) && Storable(r.key)
    ensures R.CreateTx(t, r, m, at) ==
      (t, if t.redemptions[id].journey == r.journey && t.redemptions[id].offer == r.offer
          then R.Ok(id, t.redemptions[id])
          else R.Err(R.IdempotencyKeyConflict))
  {
    assert RowUnder(t.redemptions, r.user, r.key) == Some(id);
  }

  /** Once (user, idempotency key) has a redemption, a later `Create` with that pair, after any run,
      returns that redemption or a conflict and changes nothing. */
  lemma CreateReplay(opening: map<Id, Stock>, t: Tables, id: Id, ops: seq<Op>, r: R.CreateRequest, m: R.Minted, at: int)
    requires Sound(opening, t) && id in t.redemptions && Matches(t.redemptions[id], r.user, r.key)
        && R.CompleteCreate(r)
    ensures var t' := Run(t, ops);
      && id in t'.redemptions
      && R.CreateTx(t', r, m, at) ==
        (t', if t.redemptions[id].journey == r.journey && t.redemptions[id].offer == r.offer
            then R.Ok(id, t'.redemptions[id])
            else R.Err(R.IdempotencyKeyConflict))
  {
    RunUnique(opening, t, ops);
    RunKeepsRow(t, ops, id);
    RowOwnerKnown(opening, t, id);
    ReplayDecision(Run(t, ops), id, r, m, at);
  }

  /** Once verified, a later accepted `Verify` answers with the same row and changes nothing. */
  lemma VerifyReplay(t: Tables, ops: seq<Op>, r: R.VerifyRequest, event: Uuid, at: int)
    requires r.redemption in t.redemptions && t.redemptions[r.redemption].status == Verified
    ensures var t' := Run(t, ops);
      && R.VerifyTx(t', r, event, at).0 == t'
      && (R.VerifyTx(t', r, event, at).1.Ok? ==>
        R.VerifyTx(t', r, event, at).1 == R.Ok(r.redemption, t.redemptions[r.redemption]))
  {
    RunKeepsRow(t, ops, r.redemption);
    R.VerifyOutcome(Run(t, ops), r, event, at);
  }

  /** Feedback with one identity takes effect at most once: after its claim, any run later, it is
      acknowledged again with the same event id and changes nothing. */
  lemma FeedbackReplay(t: Tables, ops: seq<Op>, r: Journeys.RecordRequest, offer: Id, trace: TraceId, at: int)
    requires Journeys.Target(t, r) == Some(offer) && Claim(GatewayFeedback, Journeys.EventOf(r, offer)) in t.claims
    ensures var t' := Run(t, ops); Journeys.RecordTx(t', r, trace, at) == (t', Journeys.Ok(Journeys.EventOf(r, offer)))
  {
    RunPersists(t, ops);
    var t' := Run(t, ops);
    assert Journeys.Associated(t', r);
    assert t'.recommendations[r.recommendation] == t.recommendations[r.recommendation];
  }

  lemma RecordedClaims(t: Tables, r: Journeys.RecordRequest, offer: Id, trace: TraceId, at: int)
    requires Journeys.Records(t, r, trace) && Journeys.Target(t, r) == Some(offer)
    ensures var t' := Journeys.Recorded(t, r, offer, Learned(t, r.user, offer, r.topic).value, trace, at);
      && Claim(GatewayFeedback, Journeys.EventOf(r, offer)) in t'.claims
      && t'.recommendations == t.recommendations && t'.journeys == t.journeys
  {
  }

  lemma RecordReply(t: Tables, r: Journeys.RecordRequest, trace: TraceId, at: int)
    requires Journeys.RecordTx(t, r, trace, at).1.Ok?
    ensures Journeys.Target(t, r).Some? && Journeys.RecordTx(t, r, trace, at).1 ==
        Journeys.Ok(Journeys.EventOf(r, Journeys.Target(t, r).value))
    ensures Journeys.Records(t, r, trace)
        || Claim(GatewayFeedback, Journeys.EventOf(r, Journeys.Target(t, r).value)) in t.claims
  {
  }

  /** Recording does leave the claim the replay lemma asks for. */
  lemma RecordingClaims(t: Tables, r: Journeys.RecordRequest, trace: TraceId, at: int)
    requires Journeys.RecordTx(t, r, trace, at).1.Ok?
    ensures var (t', reply) := Journeys.RecordTx(t, r, trace, at);
      && Journeys.Target(t, r).Some? && reply == Journeys.Ok(Journeys.EventOf(r, Journeys.Target(t, r).value))
      && Claim(GatewayFeedback, reply.event) in t'.claims
      && t'.recommendations == t.recommendations && t'.journeys == t.journeys
  {
    RecordReply(t, r, trace, at);
    Journeys.RecordOutcome(t, r, trace, at);
    if Journeys.Records(t, r, trace) {
      RecordedClaims(t, r, Journeys.Target(t, r).value, trace, at);
    }
  }

  /** A repeat: an operation that a committed earlier one has made void. */
  ghost predicate Repeats(t: Tables, op: Op) {
    match op
    case Create(r, _, _) => R.CompleteCreate(r) && exists id | id in t.redemptions ::
        Matches(t.redemptions[id], r.user, r.key)
    case Verify(r, _, _) => r.redemption in t.redemptions && t.redemptions[r.redemption].status == Verified
    case Record(r, _, _) =>
      var offer := Journeys.Target(t, r);
          offer.Some? && Claim(GatewayFeedback, Journeys.EventOf(r, offer.value)) in t.claims
    case _ => false
  }

  lemma CreateIsVoid(t: Tables, r: R.CreateRequest, m: R.Minted, at: int)
    requires UniqueRedemptions(t.redemptions) && RedemptionsOk(t.users, t.journeys, t.offers, t.redemptions)
    requires R.CompleteCreate(r) && exists id | id in t.redemptions :: Matches(t.redemptions[id], r.user, r.key)
    ensures R.CreateTx(t, r, m, at).0 == t
  {
    var id :| id in t.redemptions && Matches(t.redemptions[id], r.user, r.key);
    ReplayDecision(t, id, r, m, at);
  }

  lemma VerifyIsVoid(t: Tables, r: R.VerifyRequest, event: Uuid, at: int)
    requires r.redemption in t.redemptions && t.redemptions[r.redemption].status == Verified
    ensures R.VerifyTx(t, r, event, at).0 == t
  {
    R.VerifyOutcome(t, r, event, at);
  }

  lemma RecordIsVoid(t: Tables, r: Journeys.RecordRequest, trace: TraceId, at: int)
    requires Journeys.Target(t, r).Some?
        && Claim(GatewayFeedback, Journeys.EventOf(r, Journeys.Target(t, r).value)) in t.claims
    ensures Journeys.RecordTx(t, r, trace, at).0 == t
  {
    Journeys.RecordOutcome(t, r, trace, at);
  }

  lemma RepeatsAreVoid(t: Tables, op: Op)
    requires UniqueRedemptions(t.redemptions) && RedemptionsOk(t.users, t.journeys, t.offers, t.redemptions)
    requires Repeats(t, op)
    ensures Apply(t, op) == t
  {
    match op {
      case Create(r, m, at) => CreateIsVoid(t, r, m, at);
      case Verify(r, event, at) => VerifyIsVoid(t, r, event, at);
      case Record(r, trace, at) => RecordIsVoid(t, r, trace, at);
    }
  }

  /** Where a run repeats itself. */
  ghost function RepeatsIn(t: Tables, ops: seq<Op>): set<nat> {
    set i: nat | i < |ops| && Repeats(Run(t, ops[..i]), ops[i])
  }

  /** The operations with those at the given places struck out. */
  function Struck(ops: seq<Op>, gone: set<nat>): seq<Op> {
    if ops == [] then []
    else
      var n := |ops| - 1;
      Struck(ops[..n], gone) + (if n in gone then [] else [ops[n]])
  }

  lemma RepeatIsVoid(opening: map<Id, Stock>, t: Tables, ops: seq<Op>, i: nat)
    requires Sound(opening, t) && i in RepeatsIn(t, ops)
    ensures Apply(Run(t, ops[..i]), ops[i]) == Run(t, ops[..i])
  {
    RunsAreSound(opening, t, ops[..i]);
    RepeatsAreVoid(Run(t, ops[..i]), ops[i]);
  }

  lemma RepeatsOfPrefix(t: Tables, ops: seq<Op>, n: nat, gone: set<nat>)
    requires n < |ops| && gone <= RepeatsIn(t, ops)
    ensures forall i: nat | i in gone && i < n :: i in RepeatsIn(t, ops[..n])
  {
    assert forall i: nat | i < n :: ops[..n][..i] == ops[..i];
  }

  lemma {:induction false} StruckRun(opening: map<Id, Stock>, t: Tables, ops: seq<Op>, gone: set<nat>)
    requires Sound(opening, t) && forall i: nat | i in gone && i < |ops| :: i in RepeatsIn(t, ops)
    ensures Run(t, Struck(ops, gone)) == Run(t, ops)
  {
    if ops != [] {
      var n := |ops| - 1;
      var left := Struck(ops[..n], gone);
      RepeatsOfPrefix(t, ops, n, set i | i in gone && i < |ops|);
      StruckRun(opening, t, ops[..n], gone);
      if n in gone {
        RepeatIsVoid(opening, t, ops, n);
        assert Struck(ops, gone) == left;
      } else {
        assert (left + [ops[n]])[..|left|] == left;
      }
    }
  }

  /** Replay erasure: striking any repeats out of a run, all of them or only some, leaves the final
      tables as they were. */
  lemma RepeatErasure(opening: map<Id, Stock>, t: Tables, ops: seq<Op>, gone: set<nat>)
    requires Sound(opening, t) && gone <= RepeatsIn(t, ops)
    ensures Run(t, Struck(ops, gone)) == Run(t, ops)
    ensures Run(t, Struck(ops, RepeatsIn(t, ops))) == Run(t, ops)
  {
    StruckRun(opening, t, ops, gone);
    StruckRun(opening, t, ops, RepeatsIn(t, ops));
  }

  // ---------------------------------------------------------------- reading a redemption back

  lemma GrantedRow(t: Tables, r: R.CreateRequest, m: R.Minted, at: int)
    requires R.Grants(t, r, m, at)
    ensures var (t1, reply) := R.CreateTx(t, r, m, at); var row := R.NewRow(r, m, t.offers[r.offer].cost);
      m.redemption in t1.redemptions && t1.redemptions[m.redemption] == row && reply == R.Ok(m.redemption, row)
  {
    R.CreateOutcome(t, r, m, at);
  }

  lemma RowReadsBack(opening: map<Id, Stock>, t: Tables, id: Uuid, ops: seq<Op>)
    requires Sound(opening, t) && id in t.redemptions
    ensures var reply := R.Lookup(Run(t, ops), id);
      && reply.Ok? && reply.id == id && reply.row.(status := t.redemptions[id].status) == t.redemptions[id]
      && Live(reply.row.status)
  {
    RunKeepsRow(t, ops, id);
    RowIsLive(opening, t, ops, id);
  }

  /** `Get`, any run after a granted `Create`, returns the created row with at most its status advanced. */
  lemma CreatedIsReadBack(opening: map<Id, Stock>, t: Tables, r: R.CreateRequest, m: R.Minted, at: int, ops: seq<Op>)
    requires Sound(opening, t) && R.Grants(t, r, m, at)
    ensures var (t1, created) := R.CreateTx(t, r, m, at); var reply := R.Lookup(Run(t1, ops), created.id);
      && reply.Ok? && reply.id == created.id == m.redemption
      && reply.row.(status := Succeeded) == created.row && Live(reply.row.status)
  {
    GrantedRow(t, r, m, at);
    CreateTxKeeps(opening, t, r, m, at);
    RowReadsBack(opening, R.CreateTx(t, r, m, at).0, m.redemption, ops);
  }

  lemma RowIsLive(opening: map<Id, Stock>, t: Tables, ops: seq<Op>, id: Id)
    requires Sound(opening, t) && id in Run(t, ops).redemptions
    ensures Live(Run(t, ops).redemptions[id].status)
  {
    RunsAreSound(opening, t, ops);
    var t' := Run(t, ops);
    assert Evidenced(t'.outbox, id, t'.redemptions[id].status);
  }
}
