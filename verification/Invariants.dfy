/** What holds between the tables in every reachable state, table group by table group, and how each
    kind of write keeps it. */
module Invariants {
  import opened Schema
  import opened OutboxTable
  import opened Feedback
  import opened Journeys
  import opened Analytics

  // ---------------------------------------------------------------- points ledger

  function Sum(es: seq<Entry>): int {
    if es == [] then 0 else Sum(es[..|es| - 1]) + es[|es| - 1].delta
  }

  /** Every `balance_after` is the running sum up to and including its entry. */
  ghost predicate Running(es: seq<Entry>) {
    forall n | 0 < n <= |es| :: es[n - 1].balanceAfter == Sum(es[..n])
  }

  lemma AppendEntry(es: seq<Entry>, e: Entry)
    requires Running(es) && e.balanceAfter == Sum(es) + e.delta
    ensures Running(es + [e]) && Sum(es + [e]) == Sum(es) + e.delta
  {
    var longer := es + [e];
    assert longer[..|es|] == es;
    forall n | 0 < n <= |longer| ensures longer[n - 1].balanceAfter == Sum(longer[..n]) {
      if n <= |es| {
        assert longer[..n] == es[..n];
      } else {
        assert longer[..n] == longer;
      }
    }
  }

  /** Conservation: each balance is the sum of its user's ledger deltas. */
  ghost predicate LedgerOk(users: map<Hash, User>, ledger: map<Hash, seq<Entry>>) {
    && (forall u | u in ledger :: u in users)
    && forall u | u in users :: Running(Entries(ledger, u)) && users[u].balance == Sum(Entries(ledger, u))
  }

  predicate Pays(e: Entry, id: Id) {
    e.redemption == Some(id)
  }

  predicate Paid(es: seq<Entry>, id: Id) {
    exists e | e in es :: Pays(e, id)
  }

  /** A spending entry belongs to a redemption of the same user and amounts to its cost. */
  predicate Honest(rows: map<Id, Redemption>, u: Hash, e: Entry) {
    e.redemption.Some? ==>
        e.redemption.value in rows && rows[e.redemption.value].user == u && e.delta == -rows[e.redemption.value].cost
  }

  predicate PaidOnce(es: seq<Entry>) {
    forall i, j | 0 <= i < j < |es| :: es[i].redemption.Some? ==> es[i].redemption != es[j].redemption
  }

  /** Redemptions and their ledger entries correspond one to one, with the cost as the amount. */
  ghost predicate SpendsOk(rows: map<Id, Redemption>, ledger: map<Hash, seq<Entry>>) {
    && (forall u | u in ledger :: PaidOnce(ledger[u]) && forall e | e in ledger[u] :: Honest(rows, u, e))
    && (forall id | id in rows :: Paid(Entries(ledger, rows[id].user), id))
  }

  /** A ledger entry appended together with the balance it leaves. */
  lemma PostingKeepsLedger(users: map<Hash, User>, ledger: map<Hash, seq<Entry>>, u: Hash, user: User, e: Entry)
    requires LedgerOk(users, ledger)
    requires if u in users then user.balance == users[u].balance + e.delta else user.balance == e.delta
    requires e.balanceAfter == user.balance
    ensures LedgerOk(users[u := user], ledger[u := Entries(ledger, u) + [e]])
  {
    var users', ledger' := users[u := user], ledger[u := Entries(ledger, u) + [e]];
    assert u !in users ==> Entries(ledger, u) == [];
    AppendEntry(Entries(ledger, u), e);
    forall v | v in users' ensures Running(Entries(ledger', v)) && users'[v].balance == Sum(Entries(ledger', v)) {
      if v != u {
        assert Entries(ledger', v) == Entries(ledger, v);
      }
    }
  }

  lemma OpeningKeepsSpends(rows: map<Id, Redemption>, ledger: map<Hash, seq<Entry>>, u: Hash, e: Entry)
    requires SpendsOk(rows, ledger) && e.redemption == None && u !in ledger
    ensures SpendsOk(rows, ledger[u := Entries(ledger, u) + [e]])
  {
    var ledger' := ledger[u := Entries(ledger, u) + [e]];
    assert ledger'[u] == [e];
    forall id | id in rows ensures Paid(Entries(ledger', rows[id].user), id) {
      assert Paid(Entries(ledger, rows[id].user), id);
    }
  }

  lemma PaidAppend(es: seq<Entry>, e: Entry, id: Id)
    ensures Paid(es + [e], id) <==> Paid(es, id) || Pays(e, id)
  {
    assert e in es + [e];
    assert forall x | x in es :: x in es + [e];
  }

  lemma SpendingKeepsSpends(rows: map<Id, Redemption>, ledger: map<Hash, seq<Entry>>, id: Id, row: Redemption, e: Entry)
    requires SpendsOk(rows, ledger) && id !in rows && e.redemption == Some(id) && e.delta == -row.cost
    ensures SpendsOk(rows[id := row], ledger[row.user := Entries(ledger, row.user) + [e]])
  {
    var u, es := row.user, Entries(ledger, row.user);
    var rows', ledger' := rows[id := row], ledger[u := es + [e]];
    forall x | x in es ensures !Pays(x, id) {
      assert Honest(rows, u, x);
    }
    assert forall i | 0 <= i < |es| :: es[i] in es && !Pays(es[i], id);
    assert PaidOnce(es);
    forall v, x | v in ledger' && x in ledger'[v] ensures Honest(rows', v, x) {
      if v != u || x in es {
        assert Honest(rows, v, x);
      }
    }
    forall k | k in rows' ensures Paid(Entries(ledger', rows'[k].user), k) {
      if rows'[k].user == u {
        PaidAppend(es, e, k);
      }
    }
  }

  lemma VerifyingKeepsSpends(rows: map<Id, Redemption>, ledger: map<Hash, seq<Entry>>, id: Id)
    requires SpendsOk(rows, ledger) && id in rows
    ensures SpendsOk(rows[id := rows[id].(status := Verified)], ledger)
  {
    var rows' := rows[id := rows[id].(status := Verified)];
    forall v, x | v in ledger && x in ledger[v] ensures Honest(rows', v, x) {
      assert Honest(rows, v, x);
    }
    forall k | k in rows' ensures Paid(Entries(ledger, rows'[k].user), k) {
      assert rows'[k].user == rows[k].user;
    }
  }

  // ---------------------------------------------------------------- stock

  function Redeemed(rows: map<Id, Redemption>, offer: Id): set<Id> {
    set id | id in rows && rows[id].offer == offer && Live(rows[id].status)
  }

  /** Conservation against the opening inventory, with the version counting redemptions. */
  ghost predicate StockOk(opening: map<Id, Stock>, inventory: map<Id, Stock>, rows: map<Id, Redemption>) {
    && inventory.Keys == opening.Keys
    && forall o | o in inventory ::
      && inventory[o].available + |Redeemed(rows, o)| == opening[o].available
      && inventory[o].version == opening[o].version + |Redeemed(rows, o)|
  }

  lemma RedeemedInsert(rows: map<Id, Redemption>, id: Id, row: Redemption, offer: Id)
    requires id !in rows && Live(row.status)
    ensures |Redeemed(rows[id := row], offer)| == |Redeemed(rows, offer)| + (if row.offer == offer then 1 else 0)
  {
    if row.offer == offer {
      assert Redeemed(rows[id := row], offer) == Redeemed(rows, offer) + {id};
    } else {
      assert Redeemed(rows[id := row], offer) == Redeemed(rows, offer);
    }
  }

  lemma RedeemingKeepsStock(opening: map<Id, Stock>, inventory: map<Id, Stock>, rows: map<Id, Redemption>, id: Id,
      row: Redemption)
    requires StockOk(opening, inventory, rows) && id !in rows && Live(row.status) && row.offer in inventory
    ensures var stock := inventory[row.offer];
      StockOk(opening, inventory[row.offer := Stock(stock.available - 1, stock.version + 1)], rows[id := row])
  {
    var inventory' := inventory[row.offer := Stock(inventory[row.offer].available - 1, inventory[row.offer].version
        + 1)];
    var rows' := rows[id := row];
    forall o | o in inventory'
      ensures inventory'[o].available + |Redeemed(rows', o)| == opening[o].available
      ensures inventory'[o].version == opening[o].version + |Redeemed(rows', o)|
    {
      RedeemedInsert(rows, id, row, o);
    }
  }

  lemma VerifyingKeepsStock(opening: map<Id, Stock>, inventory: map<Id, Stock>, rows: map<Id, Redemption>, id: Id)
    requires StockOk(opening, inventory, rows) && id in rows && rows[id].status == Succeeded
    ensures StockOk(opening, inventory, rows[id := rows[id].(status := Verified)])
  {
    var rows' := rows[id := rows[id].(status := Verified)];
    forall o | o in inventory
      ensures inventory[o].available + |Redeemed(rows', o)| == opening[o].available
      ensures inventory[o].version == opening[o].version + |Redeemed(rows', o)|
    {
      assert Redeemed(rows', o) == Redeemed(rows, o);
    }
  }

  // ---------------------------------------------------------------- keys and uniqueness

  lemma GrowingKeepsReferences(users: map<Hash, User>, users': map<Hash, User>, journeys: map<Id, Journey>,
      journeys': map<Id, Journey>, offers: map<Id, Offer>, rows: map<Id, Redemption>,
      recommendations: map<Id, Recommendation>)
    requires users.Keys <= users'.Keys && journeys.Keys <= journeys'.Keys
    requires RedemptionsOk(users, journeys, offers, rows) && RecommendationsOk(journeys, offers, recommendations)
    ensures RedemptionsOk(users', journeys', offers, rows) && RecommendationsOk(journeys', offers, recommendations)
  {
  }

  lemma GrowingKeepsOwners(users: map<Hash, User>, users': map<Hash, User>, stations: map<Id, Station>,
    journeys: map<Id, Journey>)
    requires users.Keys <= users'.Keys && JourneysOk(users, stations, journeys)
    ensures JourneysOk(users', stations, journeys)
  {
  }

  lemma JourneyKeepsOwners(users: map<Hash, User>, stations: map<Id, Station>, journeys: map<Id, Journey>, id: Id,
    journey: Journey)
    requires JourneysOk(users, stations, journeys) && Storable(id) && journey.user in users
      && journey.station in stations
    ensures JourneysOk(users, stations, journeys[id := journey])
  {
  }

  lemma RecommendingKeepsRows(journeys: map<Id, Journey>, offers: map<Id, Offer>, rows: map<Id, Recommendation>,
      id: Id, row: Recommendation)
    requires RecommendationsOk(journeys, offers, rows) && row.journey in journeys && row.offer in offers
        && StorableRow(id, row)
    ensures RecommendationsOk(journeys, offers, rows[id := row])
  {
  }

  lemma PostingKeepsEntries(users: map<Hash, User>, ledger: map<Hash, seq<Entry>>, u: Hash, user: User, e: Entry)
    requires EntriesOk(users, ledger) && e.delta != 0 && e.balanceAfter >= 0
    ensures EntriesOk(users[u := user], ledger[u := Entries(ledger, u) + [e]])
  {
  }

  lemma InsertingKeepsUnique(rows: map<Id, Redemption>, id: Id, row: Redemption)
    requires UniqueRedemptions(rows) && id !in rows
    requires forall i | i in rows ::
        !Matches(rows[i], row.user, row.key) && rows[i].code != row.code && !Redeems(rows[i], row.user, row.offer)
    ensures UniqueRedemptions(rows[id := row])
  {
    var rows' := rows[id := row];
    forall i, j | i in rows' && j in rows' && i != j
      ensures !Matches(rows'[i], rows'[j].user, rows'[j].key) && rows'[i].code != rows'[j].code
      ensures !(Live(rows'[j].status) && Redeems(rows'[i], rows'[j].user, rows'[j].offer))
    {
      if i == id {
        assert !Matches(rows[j], row.user, row.key) && !Redeems(rows[j], row.user, row.offer);
      } else if j == id {
        assert !Matches(rows[i], row.user, row.key);
      }
    }
  }

  lemma VerifyingKeepsRows(users: map<Hash, User>, journeys: map<Id, Journey>, offers: map<Id, Offer>,
      rows: map<Id, Redemption>, id: Id)
    requires UniqueRedemptions(rows) && RedemptionsOk(users, journeys, offers, rows) && id in rows
        && rows[id].status == Succeeded
    ensures var rows' := rows[id := rows[id].(status := Verified)];
      UniqueRedemptions(rows') && RedemptionsOk(users, journeys, offers, rows')
  {
    var rows' := rows[id := rows[id].(status := Verified)];
    forall i, j | i in rows' && j in rows' && i != j
      ensures !Matches(rows'[i], rows'[j].user, rows'[j].key) && rows'[i].code != rows'[j].code
      ensures !(Live(rows'[j].status) && Redeems(rows'[i], rows'[j].user, rows'[j].offer))
    {
      assert !Matches(rows[i], rows[j].user, rows[j].key);
      assert !(Live(rows[j].status) && Redeems(rows[i], rows[j].user, rows[j].offer));
    }
  }

  // ---------------------------------------------------------------- events in the outbox

  /** The row an event is about. */
  function Subject(m: Envelope): Id {
    if !m.payload.Object? then ""
    else if m.topic == RedemptionSucceeded || m.topic == MerchantVerified then m.payload.redemption
    else m.payload.notification
  }

  predicate About(m: Envelope, topic: Topic, subject: Id) {
    m.topic == topic && Subject(m) == subject
  }

  function Emitted(outbox: map<Id, OutboxRow>, topic: Topic, subject: Id): set<Id> {
    set e | e in outbox && About(outbox[e].message, topic, subject)
  }

  lemma EmittedInsert(outbox: map<Id, OutboxRow>, e: Id, row: OutboxRow, topic: Topic, subject: Id)
    requires e !in outbox
    ensures Emitted(outbox[e := row], topic, subject) ==
        Emitted(outbox, topic, subject) + (if About(row.message, topic, subject) then {e} else {})
  {
  }

  lemma EmittedCount(outbox: map<Id, OutboxRow>, e: Id, row: OutboxRow, topic: Topic, subject: Id)
    requires e !in outbox
    ensures |Emitted(outbox[e := row], topic, subject)| ==
        |Emitted(outbox, topic, subject)| + (if About(row.message, topic, subject) then 1 else 0)
  {
    EmittedInsert(outbox, e, row, topic, subject);
  }

  /** Exactly one succeeded event, and exactly one verified event iff the row is verified. */
  predicate Evidenced(outbox: map<Id, OutboxRow>, id: Id, status: Status) {
    && Live(status)
    && |Emitted(outbox, RedemptionSucceeded, id)| == 1
    && |Emitted(outbox, MerchantVerified, id)| == (if status == Verified then 1 else 0)
  }

  predicate OfRedemption(topic: Topic) {
    topic == RedemptionSucceeded || topic == MerchantVerified
  }

  /** Every redemption has its events, and those events say what the rows say. */
  ghost predicate EventsOk(offers: map<Id, Offer>, rows: map<Id, Redemption>, outbox: map<Id, OutboxRow>) {
    && (forall id | id in rows :: Evidenced(outbox, id, rows[id].status))
    && (forall e | e in outbox :: OfRedemption(outbox[e].message.topic) ==> Reports(offers, rows, outbox[e].message))
  }

  predicate Reports(offers: map<Id, Offer>, rows: map<Id, Redemption>, m: Envelope) {
    && m.payload.Object? && m.payload.redemption in rows
    && var row := rows[m.payload.redemption];
    && m.user == row.user && m.journey == row.journey
    && (m.topic == RedemptionSucceeded ==> m.payload.offer == row.offer)
    && (m.topic == MerchantVerified ==> row.offer in offers && m.payload.merchant == offers[row.offer].merchant)
  }

  lemma NeutralEventKeepsEvents(offers: map<Id, Offer>, rows: map<Id, Redemption>, outbox: map<Id, OutboxRow>, e: Id,
      row: OutboxRow)
    requires EventsOk(offers, rows, outbox) && e !in outbox && !OfRedemption(row.message.topic)
    ensures EventsOk(offers, rows, outbox[e := row])
  {
    var outbox' := outbox[e := row];
    forall id | id in rows ensures Evidenced(outbox', id, rows[id].status) {
      EmittedCount(outbox, e, row, RedemptionSucceeded, id);
      EmittedCount(outbox, e, row, MerchantVerified, id);
    }
  }

  lemma NoEventsBeforeInsert(offers: map<Id, Offer>, rows: map<Id, Redemption>, outbox: map<Id, OutboxRow>, id: Id)
    requires EventsOk(offers, rows, outbox) && id !in rows
    ensures Emitted(outbox, RedemptionSucceeded, id) == {} && Emitted(outbox, MerchantVerified, id) == {}
  {
  }

  /** A new redemption and its succeeded event. */
  lemma SucceedingKeepsEvents(offers: map<Id, Offer>, rows: map<Id, Redemption>, outbox: map<Id, OutboxRow>, id: Id,
      r: Redemption, e: Id, row: OutboxRow)
    requires EventsOk(offers, rows, outbox) && id !in rows && e !in outbox && r.status == Succeeded
    requires row.message.topic == RedemptionSucceeded && row.message.payload.Object?
        && row.message.payload.redemption == id
    requires row.message.user == r.user && row.message.journey == r.journey && row.message.payload.offer == r.offer
    ensures EventsOk(offers, rows[id := r], outbox[e := row])
  {
    var rows', outbox' := rows[id := r], outbox[e := row];
    NoEventsBeforeInsert(offers, rows, outbox, id);
    forall k | k in rows' ensures Evidenced(outbox', k, rows'[k].status) {
      EmittedCount(outbox, e, row, RedemptionSucceeded, k);
      EmittedCount(outbox, e, row, MerchantVerified, k);
    }
    forall x | x in outbox' && OfRedemption(outbox'[x].message.topic)
        ensures Reports(offers, rows', outbox'[x].message) {
      assert x != e ==> Reports(offers, rows, outbox[x].message);
    }
  }

  /** A redemption turned verified and its verified event. */
  lemma VerifyingKeepsEvents(offers: map<Id, Offer>, rows: map<Id, Redemption>, outbox: map<Id, OutboxRow>, id: Id,
      e: Id, row: OutboxRow)
    requires EventsOk(offers, rows, outbox) && id in rows && e !in outbox && rows[id].status == Succeeded
    requires row.message.topic == MerchantVerified && row.message.payload.Object?
        && row.message.payload.redemption == id
    requires row.message.user == rows[id].user && row.message.journey == rows[id].journey
    requires rows[id].offer in offers && row.message.payload.merchant == offers[rows[id].offer].merchant
    ensures EventsOk(offers, rows[id := rows[id].(status := Verified)], outbox[e := row])
  {
    var rows', outbox' := rows[id := rows[id].(status := Verified)], outbox[e := row];
    forall k | k in rows' ensures Evidenced(outbox', k, rows'[k].status) {
      assert Evidenced(outbox, k, rows[k].status);
      EmittedCount(outbox, e, row, RedemptionSucceeded, k);
      EmittedCount(outbox, e, row, MerchantVerified, k);
    }
    forall x | x in outbox' && OfRedemption(outbox'[x].message.topic)
        ensures Reports(offers, rows', outbox'[x].message) {
      assert x != e ==> Reports(offers, rows, outbox[x].message);
    }
  }

  /** Analytics will accept every row, under its own id. */
  predicate Projectable(e: Id, row: OutboxRow) {
    && row.message.event == e && row.topic == row.message.topic
    && DecodeEvent(Some(row.message)).Some?
    && row.key != ""
  }

  ghost predicate OutboxOk(outbox: map<Id, OutboxRow>) {
    forall e | e in outbox :: Projectable(e, outbox[e])
  }

  lemma InsertKeepsOutbox(outbox: map<Id, OutboxRow>, e: Id, row: OutboxRow)
    requires OutboxOk(outbox) && Projectable(e, row)
    ensures OutboxOk(outbox[e := row])
  {
  }

  // ---------------------------------------------------------------- learned weights

  predicate Feeds(offers: map<Id, Offer>, m: Envelope, topic: Topic, u: Hash, category: string) {
    m.topic == topic && m.user == u && m.payload.Object? && m.payload.offer in offers
        && offers[m.payload.offer].category == category
  }

  /** The events of one type that count for a user and category. */
  function Sources(offers: map<Id, Offer>, outbox: map<Id, OutboxRow>, topic: Topic, u: Hash,
      category: string): set<Id>
  {
    set e | e in outbox && Feeds(offers, outbox[e].message, topic, u, category)
  }

  lemma SourcesInsert(offers: map<Id, Offer>, outbox: map<Id, OutboxRow>, e: Id, row: OutboxRow, topic: Topic,
      u: Hash, category: string)
    requires e !in outbox
    ensures Sources(offers, outbox[e := row], topic, u, category)
      == Sources(offers, outbox, topic, u, category)
          + (if Feeds(offers, row.message, topic, u, category) then {e} else {})
  {
  }

  const NO_WEIGHT := Weight(0, 0, 0, 0)

  function Counters(weights: map<(Hash, string), Weight>, u: Hash, category: string): Weight {
    if (u, category) in weights then weights[(u, category)] else NO_WEIGHT
  }

  /** Each counter is the number of distinct committed events of its type, and the weight lies
      within [-5, 5] and within what those events alone could make it. */
  ghost predicate Weighted(offers: map<Id, Offer>, weights: map<(Hash, string), Weight>, outbox: map<Id, OutboxRow>,
      u: Hash, category: string)
  {
    var w := Counters(weights, u, category);
    && w.clicks == |Sources(offers, outbox, RecommendationClicked, u, category)|
    && w.dismissals == |Sources(offers, outbox, RecommendationDismissed, u, category)|
    && w.redemptions == |Sources(offers, outbox, RedemptionSucceeded, u, category)|
    && InRange(w.quarters) && -3 * w.dismissals <= w.quarters <= 2 * w.clicks + 6 * w.redemptions
  }

  ghost predicate WeightsOk(offers: map<Id, Offer>, weights: map<(Hash, string), Weight>, outbox: map<Id, OutboxRow>) {
    forall u: Hash, category: string :: Weighted(offers, weights, outbox, u, category)
  }

  lemma CountersInsert(offers: map<Id, Offer>, outbox: map<Id, OutboxRow>, e: Id, row: OutboxRow, topic: Topic,
      u: Hash, category: string)
    requires e !in outbox
    ensures |Sources(offers, outbox[e := row], topic, u, category)|
      == |Sources(offers, outbox, topic, u, category)|
          + (if Feeds(offers, row.message, topic, u, category) then 1 else 0)
  {
    SourcesInsert(offers, outbox, e, row, topic, u, category);
  }

  /** A new event that carries no signal leaves the weights in step with the outbox. */
  lemma NeutralEventKeepsWeights(offers: map<Id, Offer>, weights: map<(Hash, string), Weight>,
      outbox: map<Id, OutboxRow>, e: Id, row: OutboxRow)
    requires WeightsOk(offers, weights, outbox) && e !in outbox && !Signals(row.message.topic)
    ensures WeightsOk(offers, weights, outbox[e := row])
  {
    var outbox' := outbox[e := row];
    forall u: Hash, category: string ensures Weighted(offers, weights, outbox', u, category) {
      assert Weighted(offers, weights, outbox, u, category);
      CountersInsert(offers, outbox, e, row, RecommendationClicked, u, category);
      CountersInsert(offers, outbox, e, row, RecommendationDismissed, u, category);
      CountersInsert(offers, outbox, e, row, RedemptionSucceeded, u, category);
    }
  }

  function One(b: bool): nat {
    if b then 1 else 0
  }

  /** One more signal: its counter moves by one, and the weight stays within its bounds. */
  lemma SignalMoves(weights: map<(Hash, string), Weight>, u: Hash, category: string, topic: Topic)
    requires Signals(topic)
    requires var w := Counters(weights, u, category);
      InRange(w.quarters) && -3 * w.dismissals <= w.quarters <= 2 * w.clicks + 6 * w.redemptions
    ensures var w, w' := Counters(weights, u, category), Accumulate(Row(weights, u, category), topic);
      && w'.clicks == w.clicks + One(topic == RecommendationClicked)
      && w'.dismissals == w.dismissals + One(topic == RecommendationDismissed)
      && w'.redemptions == w.redemptions + One(topic == RedemptionSucceeded)
      && InRange(w'.quarters) && -3 * w'.dismissals <= w'.quarters <= 2 * w'.clicks + 6 * w'.redemptions
  {
  }

  /** One upsert moves the weight of its own user and category, by one event. */
  lemma SignalKeepsWeight(offers: map<Id, Offer>, weights: map<(Hash, string), Weight>, outbox: map<Id, OutboxRow>,
      e: Id, row: OutboxRow, own: string, u: Hash, category: string)
    requires Weighted(offers, weights, outbox, u, category) && e !in outbox && Signals(row.message.topic)
    requires row.message.payload.Object? && row.message.payload.offer in offers
        && offers[row.message.payload.offer].category == own
    ensures Weighted(offers, weights[(row.message.user, own) := Accumulate(Row(weights, row.message.user, own),
        row.message.topic)],
      outbox[e := row], u, category)
  {
    var m := row.message;
    var weights' := weights[(m.user, own) := Accumulate(Row(weights, m.user, own), m.topic)];
    CountersInsert(offers, outbox, e, row, RecommendationClicked, u, category);
    CountersInsert(offers, outbox, e, row, RecommendationDismissed, u, category);
    CountersInsert(offers, outbox, e, row, RedemptionSucceeded, u, category);
    if (u, category) == (m.user, own) {
      SignalMoves(weights, u, category, m.topic);
      assert Counters(weights', u, category) == Accumulate(Row(weights, u, category), m.topic);
    } else {
      assert Counters(weights', u, category) == Counters(weights, u, category);
    }
  }

  /** So does a signalling event recorded together with its upsert. */
  lemma SignalKeepsWeights(offers: map<Id, Offer>, weights: map<(Hash, string), Weight>, outbox: map<Id, OutboxRow>,
      e: Id, row: OutboxRow, own: string)
    requires WeightsOk(offers, weights, outbox) && e !in outbox && Signals(row.message.topic)
    requires row.message.payload.Object? && row.message.payload.offer in offers
        && offers[row.message.payload.offer].category == own
    ensures WeightsOk(offers, weights[(row.message.user, own) := Accumulate(Row(weights, row.message.user, own),
        row.message.topic)], outbox[e := row])
  {
    var weights' := weights[(row.message.user, own) := Accumulate(Row(weights, row.message.user, own),
        row.message.topic)];
    var outbox' := outbox[e := row];
    forall u: Hash, category: string ensures Weighted(offers, weights', outbox', u, category) {
      SignalKeepsWeight(offers, weights, outbox, e, row, own, u, category);
    }
  }

  // ---------------------------------------------------------------- feedback claims

  /** A feedback event is stored under the identity of what it says. */
  ghost predicate Identified(e: Id, m: Envelope) {
    && m.payload.Object? && Storable(m.user) && Storable(m.journey) && Storable(m.recommendation)
    && Storable(m.payload.offer)
    && e == FeedbackEventId(m.user, m.journey, m.recommendation, m.payload.offer, m.topic)
  }

  /** Claims and feedback events are the same thing, and a dismissal event has its dismissal row. */
  ghost predicate ClaimsOk(claims: set<Claim>, dismissals: set<Dismissal>, outbox: map<Id, OutboxRow>) {
    && (forall e | e in outbox && Recordable(outbox[e].message.topic) ::
      var m := outbox[e].message;
      && Claim(GatewayFeedback, e) in claims && Identified(e, m)
      && (m.topic == RecommendationDismissed ==>
        Dismissal(m.user, m.journey, m.recommendation, m.payload.offer) in dismissals))
    && (forall c | c in claims && c.consumer == GatewayFeedback ::
      c.event in outbox && Recordable(outbox[c.event].message.topic))
  }

  // ---------------------------------------------------------------- deliveries

  /** How many events of a type a delivery row of a given status has. */
  function Announced(status: DeliveryStatus, topic: Topic): nat {
    match topic
    case NotificationSent => if status == Failed then 0 else 1
    case NotificationDelivered => if status == Delivered then 1 else 0
    case NotificationFailed => if status == Failed then 1 else 0
    case _ => 0
  }

  predicate Notification(topic: Topic) {
    topic == NotificationSent || topic == NotificationDelivered || topic == NotificationFailed
  }

  /** Delivery rows have distinct notification ids, and their events match their status exactly. */
  ghost predicate DeliveriesOk(deliveries: map<(Id, Id), Delivery>, outbox: map<Id, OutboxRow>) {
    && (forall k, k' | k in deliveries && k' in deliveries && k != k' ::
      deliveries[k].notification != deliveries[k'].notification)
    && (forall k, topic | k in deliveries && Notification(topic) ::
      |Emitted(outbox, topic, deliveries[k].notification)| == Announced(deliveries[k].status, topic))
    && (forall e | e in outbox && Notification(outbox[e].message.topic) :: Reported(deliveries, outbox[e].message))
  }

  /** The event speaks of this delivery row. */
  predicate Announces(key: (Id, Id), d: Delivery, m: Envelope) {
    d.notification == Subject(m) && key.1 == m.recommendation && d.user == m.user && d.journey == m.journey
  }

  predicate Reported(deliveries: map<(Id, Id), Delivery>, m: Envelope) {
    exists k | k in deliveries :: Announces(k, deliveries[k], m)
  }

  lemma OtherEventKeepsDeliveries(deliveries: map<(Id, Id), Delivery>, outbox: map<Id, OutboxRow>, e: Id,
      row: OutboxRow)
    requires DeliveriesOk(deliveries, outbox) && e !in outbox && !Notification(row.message.topic)
    ensures DeliveriesOk(deliveries, outbox[e := row])
  {
    var outbox' := outbox[e := row];
    forall k, topic | k in deliveries && Notification(topic)
      ensures |Emitted(outbox', topic, deliveries[k].notification)| == Announced(deliveries[k].status, topic)
    {
      EmittedInsert(outbox, e, row, topic, deliveries[k].notification);
    }
  }

  lemma OtherEventKeepsClaims(claims: set<Claim>, dismissals: set<Dismissal>, outbox: map<Id, OutboxRow>, e: Id,
      row: OutboxRow)
    requires ClaimsOk(claims, dismissals, outbox) && e !in outbox && !Recordable(row.message.topic)
    ensures ClaimsOk(claims, dismissals, outbox[e := row])
  {
  }

  lemma ForeignClaimKeepsClaims(claims: set<Claim>, dismissals: set<Dismissal>, outbox: map<Id, OutboxRow>, c: Claim)
    requires ClaimsOk(claims, dismissals, outbox) && c.consumer != GatewayFeedback
    ensures ClaimsOk(claims + {c}, dismissals, outbox)
  {
  }

  /** A feedback event recorded together with its claim and, for a dismissal, its row. */
  lemma RecordingKeepsClaims(claims: set<Claim>, dismissals: set<Dismissal>, dismissals': set<Dismissal>,
      outbox: map<Id, OutboxRow>, e: Id, row: OutboxRow)
    requires ClaimsOk(claims, dismissals, outbox) && e !in outbox && dismissals <= dismissals'
    requires Recordable(row.message.topic) && Identified(e, row.message)
    requires row.message.topic == RecommendationDismissed ==>
      Dismissal(row.message.user, row.message.journey, row.message.recommendation,
          row.message.payload.offer) in dismissals'
    ensures ClaimsOk(claims + {Claim(GatewayFeedback, e)}, dismissals', outbox[e := row])
  {
  }

  lemma NoEventsBeforeDelivery(deliveries: map<(Id, Id), Delivery>, outbox: map<Id, OutboxRow>, n: Id, topic: Topic)
    requires DeliveriesOk(deliveries, outbox) && (forall k | k in deliveries :: deliveries[k].notification != n)
        && Notification(topic)
    ensures Emitted(outbox, topic, n) == {}
  {
  }

  /** A delivery row and its first event. */
  lemma FirstEventKeepsDeliveries(deliveries: map<(Id, Id), Delivery>, outbox: map<Id, OutboxRow>, key: (Id, Id),
      d: Delivery, e: Id, row: OutboxRow)
    requires DeliveriesOk(deliveries, outbox) && key !in deliveries && e !in outbox && d.status != Delivered
    requires forall k | k in deliveries :: deliveries[k].notification != d.notification
    requires row.message.topic == (if d.status == Failed then NotificationFailed else NotificationSent)
    requires Announces(key, d, row.message)
    ensures DeliveriesOk(deliveries[key := d], outbox[e := row])
  {
    var deliveries', outbox' := deliveries[key := d], outbox[e := row];
    forall k, topic | k in deliveries' && Notification(topic)
      ensures |Emitted(outbox', topic, deliveries'[k].notification)| == Announced(deliveries'[k].status, topic)
    {
      EmittedCount(outbox, e, row, topic, deliveries'[k].notification);
      if k == key {
        NoEventsBeforeDelivery(deliveries, outbox, d.notification, topic);
      }
    }
    forall x | x in outbox' && Notification(outbox'[x].message.topic)
        ensures Reported(deliveries', outbox'[x].message) {
      if x == e {
        assert Announces(key, deliveries'[key], row.message);
      } else {
        var k :| k in deliveries && Announces(k, deliveries[k], outbox[x].message);
        assert Announces(k, deliveries'[k], outbox'[x].message);
      }
    }
  }

  /** A delivered acknowledgement turns a sent row with its event into a delivered row with two. */
  lemma SecondEventKeepsDeliveries(deliveries: map<(Id, Id), Delivery>, outbox: map<Id, OutboxRow>, key: (Id, Id),
      e: Id, row: OutboxRow)
    requires DeliveriesOk(deliveries, outbox) && key in deliveries && deliveries[key].status == Sent && e !in outbox
    requires row.message.topic == NotificationDelivered && Announces(key, deliveries[key], row.message)
    ensures DeliveriesOk(deliveries[key := deliveries[key].(status := Delivered)], outbox[e := row])
  {
    var deliveries', outbox' := deliveries[key := deliveries[key].(status := Delivered)], outbox[e := row];
    forall k, topic | k in deliveries' && Notification(topic)
      ensures |Emitted(outbox', topic, deliveries'[k].notification)| == Announced(deliveries'[k].status, topic)
    {
      assert |Emitted(outbox, topic, deliveries[k].notification)| == Announced(deliveries[k].status, topic);
      EmittedCount(outbox, e, row, topic, deliveries'[k].notification);
    }
    forall x | x in outbox' && Notification(outbox'[x].message.topic)
        ensures Reported(deliveries', outbox'[x].message) {
      if x == e {
        assert Announces(key, deliveries'[key], row.message);
      } else {
        var k :| k in deliveries && Announces(k, deliveries[k], outbox[x].message);
        assert Announces(k, deliveries'[k], outbox'[x].message);
      }
    }
  }

  // ---------------------------------------------------------------- everything that follows the outbox

  ghost predicate Followed(offers: map<Id, Offer>, rows: map<Id, Redemption>, weights: map<(Hash, string), Weight>,
      claims: set<Claim>, dismissals: set<Dismissal>, deliveries: map<(Id, Id), Delivery>, outbox: map<Id, OutboxRow>)
  {
    && EventsOk(offers, rows, outbox) && OutboxOk(outbox)
    && WeightsOk(offers, weights, outbox) && ClaimsOk(claims, dismissals, outbox) && DeliveriesOk(deliveries, outbox)
  }

  /** A notification event together with the delivery rows it completes. */
  lemma NotificationEventKeeps(offers: map<Id, Offer>, rows: map<Id, Redemption>,
      weights: map<(Hash, string), Weight>, claims: set<Claim>, dismissals: set<Dismissal>,
      outbox: map<Id, OutboxRow>, e: Id, row: OutboxRow)
    requires EventsOk(offers, rows, outbox) && OutboxOk(outbox) && WeightsOk(offers, weights, outbox)
        && ClaimsOk(claims, dismissals, outbox)
    requires e !in outbox && Notification(row.message.topic) && Projectable(e, row)
    ensures var outbox' := outbox[e := row];
      EventsOk(offers, rows, outbox') && OutboxOk(outbox') && WeightsOk(offers, weights, outbox')
          && ClaimsOk(claims, dismissals, outbox')
  {
    NeutralEventKeepsEvents(offers, rows, outbox, e, row);
    OtherEventKeepsClaims(claims, dismissals, outbox, e, row);
    NeutralEventKeepsWeights(offers, weights, outbox, e, row);
    InsertKeepsOutbox(outbox, e, row);
  }

  lemma FirstEventKeeps(offers: map<Id, Offer>, rows: map<Id, Redemption>, weights: map<(Hash, string), Weight>,
      claims: set<Claim>, dismissals: set<Dismissal>, deliveries: map<(Id, Id), Delivery>, outbox: map<Id, OutboxRow>,
      key: (Id, Id), d: Delivery, e: Id, row: OutboxRow)
    requires Followed(offers, rows, weights, claims, dismissals, deliveries, outbox)
    requires key !in deliveries && e !in outbox && d.status != Delivered && Projectable(e, row)
    requires forall k | k in deliveries :: deliveries[k].notification != d.notification
    requires row.message.topic == (if d.status == Failed then NotificationFailed else NotificationSent)
    requires Announces(key, d, row.message)
    ensures Followed(offers, rows, weights, claims, dismissals, deliveries[key := d], outbox[e := row])
  {
    FirstEventKeepsDeliveries(deliveries, outbox, key, d, e, row);
    NotificationEventKeeps(offers, rows, weights, claims, dismissals, outbox, e, row);
  }

  lemma SecondEventKeeps(offers: map<Id, Offer>, rows: map<Id, Redemption>, weights: map<(Hash, string), Weight>,
      claims: set<Claim>, dismissals: set<Dismissal>, deliveries: map<(Id, Id), Delivery>, outbox: map<Id, OutboxRow>,
      key: (Id, Id), e: Id, row: OutboxRow)
    requires Followed(offers, rows, weights, claims, dismissals, deliveries, outbox)
    requires key in deliveries && deliveries[key].status == Sent && e !in outbox && Projectable(e, row)
    requires row.message.topic == NotificationDelivered && Announces(key, deliveries[key], row.message)
    ensures Followed(offers, rows, weights, claims, dismissals,
        deliveries[key := deliveries[key].(status := Delivered)], outbox[e := row])
  {
    SecondEventKeepsDeliveries(deliveries, outbox, key, e, row);
    NotificationEventKeeps(offers, rows, weights, claims, dismissals, outbox, e, row);
  }

  /** A delivered row with its two events. */
  lemma TwoEventsKeep(offers: map<Id, Offer>, rows: map<Id, Redemption>, weights: map<(Hash, string), Weight>,
      claims: set<Claim>, dismissals: set<Dismissal>, deliveries: map<(Id, Id), Delivery>, outbox: map<Id, OutboxRow>,
      key: (Id, Id), d: Delivery, e: Id, row: OutboxRow, e': Id, row': OutboxRow)
    requires Followed(offers, rows, weights, claims, dismissals, deliveries, outbox)
    requires key !in deliveries && d.status == Sent && forall k | k in deliveries ::
        deliveries[k].notification != d.notification
    requires e !in outbox && Projectable(e, row) && row.message.topic == NotificationSent
        && Announces(key, d, row.message)
    requires e' !in outbox && e' != e && Projectable(e', row') && row'.message.topic == NotificationDelivered
        && Announces(key, d, row'.message)
    ensures Followed(offers, rows, weights, claims, dismissals, deliveries[key := d][key := d.(status := Delivered)],
        outbox[e := row][e' := row'])
  {
    FirstEventKeeps(offers, rows, weights, claims, dismissals, deliveries, outbox, key, d, e, row);
    SecondEventKeeps(offers, rows, weights, claims, dismissals, deliveries[key := d], outbox[e := row], key, e', row');
  }

  lemma VerifiedEventKeeps(offers: map<Id, Offer>, rows: map<Id, Redemption>, weights: map<(Hash, string), Weight>,
      claims: set<Claim>, dismissals: set<Dismissal>, deliveries: map<(Id, Id), Delivery>, outbox: map<Id, OutboxRow>,
      id: Id, e: Id, row: OutboxRow)
    requires Followed(offers, rows, weights, claims, dismissals, deliveries, outbox)
    requires id in rows && e !in outbox && rows[id].status == Succeeded && Projectable(e, row)
    requires row.message.topic == MerchantVerified && row.message.payload.Object?
        && row.message.payload.redemption == id
    requires row.message.user == rows[id].user && row.message.journey == rows[id].journey
    requires rows[id].offer in offers && row.message.payload.merchant == offers[rows[id].offer].merchant
    ensures Followed(offers, rows[id := rows[id].(status := Verified)], weights, claims, dismissals, deliveries,
        outbox[e := row])
  {
    VerifyingKeepsEvents(offers, rows, outbox, id, e, row);
    OtherEventKeepsDeliveries(deliveries, outbox, e, row);
    OtherEventKeepsClaims(claims, dismissals, outbox, e, row);
    NeutralEventKeepsWeights(offers, weights, outbox, e, row);
    InsertKeepsOutbox(outbox, e, row);
  }

  lemma SameMessagesCount(offers: map<Id, Offer>, weights: map<(Hash, string), Weight>, outbox: map<Id, OutboxRow>,
      outbox': map<Id, OutboxRow>)
    requires SameMessages(outbox, outbox')
    ensures forall topic, s :: Emitted(outbox', topic, s) == Emitted(outbox, topic, s)
    ensures WeightsOk(offers, weights, outbox) ==> WeightsOk(offers, weights, outbox')
  {
    forall topic, u, category
        ensures Sources(offers, outbox', topic, u, category) == Sources(offers, outbox, topic, u, category) {
    }
    if WeightsOk(offers, weights, outbox) {
      forall u: Hash, category: string ensures Weighted(offers, weights, outbox', u, category) {
        assert Weighted(offers, weights, outbox, u, category);
      }
    }
  }

  lemma SameMessagesReported(deliveries: map<(Id, Id), Delivery>, outbox: map<Id, OutboxRow>,
      outbox': map<Id, OutboxRow>)
    requires SameMessages(outbox, outbox') && DeliveriesOk(deliveries, outbox)
    requires forall topic, s :: Emitted(outbox', topic, s) == Emitted(outbox, topic, s)
    ensures DeliveriesOk(deliveries, outbox')
  {
  }

  /** Publishing state is invisible to every table that follows the outbox. */
  lemma RemarkKeeps(offers: map<Id, Offer>, rows: map<Id, Redemption>, weights: map<(Hash, string), Weight>,
      claims: set<Claim>, dismissals: set<Dismissal>, deliveries: map<(Id, Id), Delivery>, outbox: map<Id, OutboxRow>,
      outbox': map<Id, OutboxRow>)
    requires Followed(offers, rows, weights, claims, dismissals, deliveries, outbox) && SameMessages(outbox, outbox')
    ensures Followed(offers, rows, weights, claims, dismissals, deliveries, outbox')
  {
    SameMessagesCount(offers, weights, outbox, outbox');
    SameMessagesReported(deliveries, outbox, outbox');
    forall id | id in rows ensures Evidenced(outbox', id, rows[id].status) {
      assert Evidenced(outbox, id, rows[id].status);
    }
  }
}
