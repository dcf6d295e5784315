/** `Create`, `Verify` and `Get` statement by statement, proved to be the atomic transactions. */
module RedemptionService {
  import opened Schema
  import opened DatabaseState
  import opened Feedback
  import opened Redemptions

  /** The feedback upsert, inside the caller's transaction. */
  method ApplyPreferenceFeedback(tx: Transaction, u: Hash, offer: Id, topic: Topic) returns (ok: bool)
    modifies tx
    ensures ok <==> Learned(old(tx.view), u, offer, topic).Some?
    ensures tx.view == if ok then old(tx.view).(weights := Learned(old(tx.view), u, offer, topic).value)
        else old(tx.view)
  {
    if u == "" || offer == "" {
      return false;
    }
    var d := FeedbackDelta(topic);
    if d.quarters == 0 && d.clicks == 0 && d.dismissals == 0 && d.redemptions == 0 {
      return true;
    }
    if u !in tx.view.users || offer !in tx.view.offers {
      return false;
    }
    var key := (u, tx.view.offers[offer].category);
    var row := Weight(d.quarters, d.clicks, d.dismissals, d.redemptions);
    if key in tx.view.weights {
      var w := tx.view.weights[key];
      row := Weight(Clamp(w.quarters + d.quarters), w.clicks + d.clicks, w.dismissals + d.dismissals, w.redemptions
          + d.redemptions);
    }
    tx.view := tx.view.(weights := tx.view.weights[key := row]);
    ok := true;
  }

  /** SELECT by (user_id, idempotency_key). */
  method ExistingRedemption(tx: Transaction, u: Hash, key: string) returns (id: Option<Id>)
    requires UniqueRedemptions(tx.view.redemptions)
    ensures id == RowUnder(tx.view.redemptions, u, key)
  {
    var rows := tx.view.redemptions;
    if exists i :: i in rows && Matches(rows[i], u, key) {
      var i :| i in rows && Matches(rows[i], u, key);
      id := Some(i);
    } else {
      id := None;
    }
  }

  /** The tables after the redemption, balance, stock and ledger writes. */
  function Booked(t: Tables, r: CreateRequest, m: Minted, cost: int, newBalance: int): Tables
    requires r.user in t.users && r.offer in t.inventory
  {
    var stock := t.inventory[r.offer];
    t.(redemptions := t.redemptions[m.redemption := NewRow(r, m, cost)],
      users := t.users[r.user := t.users[r.user].(balance := newBalance)],
      inventory := t.inventory[r.offer := Stock(stock.available - 1, stock.version + 1)],
      ledger := t.ledger[r.user := Spent(Entries(t.ledger, r.user), m.redemption, cost, newBalance)])
  }

  /** Of the unique constraints only the code's can still refuse the row of a call that has cleared its
      checks. */
  method InsertCleared(tx: Transaction, r: CreateRequest, m: Minted, cost: int) returns (ok: bool)
    requires Cleared(tx.view, r)
    modifies tx
    ensures ok <==>
      && m.redemption !in old(tx.view.redemptions) && Indexable(r.key, m.packed)
      && forall id | id in old(tx.view.redemptions) :: old(tx.view.redemptions)[id].code != m.code
    ensures var t := old(tx.view);
      tx.view == if ok then t.(redemptions := t.redemptions[m.redemption := NewRow(r, m, cost)]) else t
  {
    ok := tx.InsertRedemption(m.redemption, NewRow(r, m, cost), m.packed);
  }

  /** The redemption, balance, stock and ledger writes of a granted `Create`. */
  method WriteBooks(tx: Transaction, r: CreateRequest, m: Minted, cost: int, newBalance: int) returns (ok: bool)
    requires Cleared(tx.view, r) && CatalogOk(tx.view.offers, tx.view.inventory)
    requires cost == tx.view.offers[r.offer].cost && newBalance == tx.view.users[r.user].balance - cost
    modifies tx
    ensures ok <==>
      && m.redemption !in old(tx.view.redemptions) && Indexable(r.key, m.packed) && cost != 0
      && forall id | id in old(tx.view.redemptions) :: old(tx.view.redemptions)[id].code != m.code
    ensures ok ==> tx.view == Booked(old(tx.view), r, m, cost, newBalance)
  {
    ok := InsertCleared(tx, r, m, cost);
    if !ok {
      return;
    }
    ok := tx.SetBalance(r.user, newBalance);
    if !ok {
      return;
    }
    ok := tx.TakeOne(r.offer);
    if !ok {
      return;
    }
    ok := tx.AppendEntry(r.user, Entry(Some(m.redemption), -cost, newBalance, RedemptionReason));
  }

  /** The weight and event writes of a granted `Create`. */
  method WriteSignals(tx: Transaction, r: CreateRequest, m: Minted, now: int) returns (ok: bool)
    requires r.user in tx.view.users && r.offer in tx.view.offers && r.user != "" && r.offer != ""
    requires Storable(r.user) && Storable(r.journey) && Storable(r.offer)
    modifies tx
    ensures ok <==> m.event !in old(tx.view.outbox) && Storable(r.trace)
    ensures ok ==> var t := old(tx.view);
      tx.view == t.(weights := Learned(t, r.user, r.offer, RedemptionSucceeded).value,
          outbox := t.outbox[m.event := SucceededRow(r, m, now)])
  {
    ok := ApplyPreferenceFeedback(tx, r.user, r.offer, RedemptionSucceeded);
    if ok {
      ok := tx.Enqueue(SucceededRow(r, m, now));
    }
  }

  lemma GrantedInTwo(t: Tables, r: CreateRequest, m: Minted, now: int)
    requires Cleared(t, r)
    ensures var cost := t.offers[r.offer].cost; var b := Booked(t, r, m, cost, t.users[r.user].balance - cost);
      && Learned(b, r.user, r.offer, RedemptionSucceeded).Some?
      && Granted(t, r, m, now) == b.(weights := Learned(b, r.user, r.offer, RedemptionSucceeded).value,
        outbox := b.outbox[m.event := SucceededRow(r, m, now)])
  {
  }

  /** The six writes of a granted `Create`, up to the first one the schema refuses. */
  method WriteRedemption(tx: Transaction, r: CreateRequest, m: Minted, cost: int, newBalance: int, now: int)
    returns (ok: bool)
    requires Cleared(tx.view, r) && CatalogOk(tx.view.offers, tx.view.inventory)
    requires cost == tx.view.offers[r.offer].cost && newBalance == tx.view.users[r.user].balance - cost
    modifies tx
    ensures ok <==> Insertable(old(tx.view), r, m)
    ensures ok ==> tx.view == Granted(old(tx.view), r, m, now)
  {
    GrantedInTwo(tx.view, r, m, now);
    ok := WriteBooks(tx, r, m, cost, newBalance);
    if ok {
      ok := WriteSignals(tx, r, m, now);
    }
  }

  method Create(db: Database, r: CreateRequest, m: Minted, now: int) returns (reply: Reply)
    requires UniqueRedemptions(db.committed.redemptions) && CatalogOk(db.committed.offers, db.committed.inventory)
    modifies db
    ensures (db.committed, reply) == CreateTx(old(db.committed), r, m, now)
  {
    if r.user == "" || r.journey == "" || r.offer == "" || r.key == "" || r.trace == "" {
      return Err(InvalidRequest);
    }
    var tx := new Transaction(db);
    if !Storable(r.user) {
      return Err(Error.Database);
    }
    if r.user !in tx.view.users {
      return Err(UserNotFound);
    }
    var balance := tx.view.users[r.user].balance;
    if !Storable(r.key) {
      return Err(Error.Database);
    }
    var existing := ExistingRedemption(tx, r.user, r.key);
    if existing.Some? {
      var row := tx.view.redemptions[existing.value];
      if row.journey != r.journey || row.offer != r.offer {
        return Err(IdempotencyKeyConflict);
      }
      db.Commit(tx);
      return Ok(existing.value, row);
    }
    if !Storable(r.journey) {
      return Err(Error.Database);
    }
    if !(r.journey in tx.view.journeys && tx.view.journeys[r.journey].user == r.user) {
      return Err(JourneyNotFound);
    }
    if !Storable(r.offer) {
      return Err(Error.Database);
    }
    if exists i :: i in tx.view.redemptions && Redeems(tx.view.redemptions[i], r.user, r.offer) {
      return Err(OfferAlreadyRedeemed);
    }
    if !Open(tx.view, r.offer, now) || tx.view.inventory[r.offer].available == 0 {
      return Err(OfferUnavailable);
    }
    var cost := tx.view.offers[r.offer].cost;
    if balance < cost {
      return Err(InsufficientPoints);
    }
    var newBalance := balance - cost;
    GrantIsCleared(tx.view, r, now);
    var written := WriteRedemption(tx, r, m, cost, newBalance, now);
    if !written {
      return Err(Database);
    }
    db.Commit(tx);
    reply := Ok(m.redemption, NewRow(r, m, cost));
  }

  /** Reads one row of the committed tables, outside any transaction. */
  method Get(db: Database, id: Id) returns (reply: Reply)
    ensures reply == Lookup(db.committed, id)
    ensures reply == Err(InvalidRequest) <==> id == ""
    ensures reply == Err(RedemptionNotFound) <==> id != "" && '\0' !in id && id !in db.committed.redemptions
    ensures id != "" && '\0' !in id && id in db.committed.redemptions ==> reply == Ok(id, db.committed.redemptions[id])
  {
    if id == "" {
      return Err(InvalidRequest);
    }
    if !Storable(id) {
      return Err(Error.Database);
    }
    if id !in db.committed.redemptions {
      return Err(RedemptionNotFound);
    }
    reply := Ok(id, db.committed.redemptions[id]);
  }

  method Verify(db: Database, r: VerifyRequest, event: Uuid, at: int) returns (reply: Reply)
    modifies db
    ensures (db.committed, reply) == VerifyTx(old(db.committed), r, event, at)
  {
    if r.redemption == "" || r.merchant == "" || r.code == "" || r.trace == "" {
      return Err(InvalidRequest);
    }
    if !Storable(r.redemption) {
      return Err(Error.Database);
    }
    var tx := new Transaction(db);
    if r.redemption !in tx.view.redemptions || tx.view.redemptions[r.redemption].offer !in tx.view.offers {
      return Err(RedemptionNotFound);
    }
    var row := tx.view.redemptions[r.redemption];
    if tx.view.offers[row.offer].merchant != r.merchant || row.code != r.code {
      return Err(VerificationFailed);
    }
    if row.status == Verified {
      db.Commit(tx);
      return Ok(r.redemption, row);
    }
    if row.status != Succeeded {
      return Err(RedemptionNotVerifiable);
    }
    tx.SetStatus(r.redemption, Verified);
    var enqueued := tx.Enqueue(VerifiedRow(r, event, row.journey, row.user, at));
    if !enqueued {
      return Err(Database);
    }
    db.Commit(tx);
    reply := Ok(r.redemption, row.(status := Verified));
  }
}
