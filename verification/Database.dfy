/** The database the services write to. A transaction works on its own view of the tables, one method
    per SQL statement; a statement that would break a constraint reports failure and changes nothing.
    Committing publishes the view, and dropping the transaction without a commit is the rollback. */
module DatabaseState {
  import opened Schema

  class Database {
    var committed: Tables

    constructor (t: Tables)
      ensures committed == t
    {
      committed := t;
    }

    method Commit(tx: Transaction)
      modifies this
      ensures committed == tx.view
    {
      committed := tx.view;
    }
  }

  class Transaction {
    var view: Tables

    constructor (db: Database)
      ensures view == db.committed
    {
      view := db.committed;
    }

    /** INSERT INTO redemptions, with the primary key and the three unique constraints, one of which
        limits the size of the key. */
    method InsertRedemption(id: Id, row: Redemption, packed: nat) returns (ok: bool)
      modifies this
      ensures ok <==>
        && id !in old(view.redemptions) && Indexable(row.key, packed)
        && forall i | i in old(view.redemptions) ::
          && !Matches(old(view.redemptions)[i], row.user, row.key) && old(view.redemptions)[i].code != row.code
          && !(Live(row.status) && Redeems(old(view.redemptions)[i], row.user, row.offer))
      ensures view == if ok then old(view).(redemptions := old(view.redemptions)[id := row]) else old(view)
    {
      var rows := view.redemptions;
      ok := id !in rows && Indexable(row.key, packed) && forall i | i in rows ::
        && !Matches(rows[i], row.user, row.key) && rows[i].code != row.code
        && !(Live(row.status) && Redeems(rows[i], row.user, row.offer));
      if ok {
        view := view.(redemptions := rows[id := row]);
      }
    }

    /** UPDATE redemptions SET status. */
    method SetStatus(id: Id, status: Status)
      requires id in view.redemptions
      modifies this
      ensures view ==
          old(view).(redemptions := old(view.redemptions)[id := old(view.redemptions)[id].(status := status)])
    {
      view := view.(redemptions := view.redemptions[id := view.redemptions[id].(status := status)]);
    }

    /** UPDATE users SET point_balance, an absolute value, under CHECK (point_balance >= 0). */
    method SetBalance(u: Hash, balance: int) returns (ok: bool)
      requires u in view.users
      modifies this
      ensures ok <==> balance >= 0
      ensures view == if ok then old(view).(users := old(view.users)[u := old(view.users)[u].(balance := balance)])
          else old(view)
    {
      ok := balance >= 0;
      if ok {
        view := view.(users := view.users[u := view.users[u].(balance := balance)]);
      }
    }

    /** UPDATE inventory, one item fewer and one version more, under CHECK (available_quantity >= 0). */
    method TakeOne(offer: Id) returns (ok: bool)
      requires offer in view.inventory
      modifies this
      ensures ok <==> old(view.inventory)[offer].available >= 1
      ensures var stock := old(view.inventory)[offer];
        view == if ok then old(view).(inventory := old(view.inventory)[offer := Stock(stock.available - 1,
            stock.version + 1)]) else old(view)
    {
      var stock := view.inventory[offer];
      ok := stock.available - 1 >= 0;
      if ok {
        view := view.(inventory := view.inventory[offer := Stock(stock.available - 1, stock.version + 1)]);
      }
    }

    /** INSERT INTO points_ledger, under CHECK (delta <> 0) and CHECK (balance_after >= 0). */
    method AppendEntry(u: Hash, e: Entry) returns (ok: bool)
      modifies this
      ensures ok <==> e.delta != 0 && e.balanceAfter >= 0
      ensures view == if ok then old(view).(ledger := old(view.ledger)[u := Entries(old(view.ledger), u) + [e]])
          else old(view)
    {
      ok := e.delta != 0 && e.balanceAfter >= 0;
      if ok {
        view := view.(ledger := view.ledger[u := Entries(view.ledger, u) + [e]]);
      }
    }

    /** INSERT INTO processed_events ... ON CONFLICT DO NOTHING, with RowsAffected() > 0. */
    method InsertClaim(c: Claim) returns (inserted: bool)
      modifies this
      ensures inserted <==> c !in old(view.claims)
      ensures view == old(view).(claims := old(view.claims) + {c})
    {
      inserted := c !in view.claims;
      view := view.(claims := view.claims + {c});
    }

    /** INSERT INTO outbox_events, behind `outbox.Enqueue`'s own checks. */
    method Enqueue(row: OutboxRow) returns (ok: bool)
      modifies this
      ensures ok <==>
          row.message.event != "" && row.key != "" && row.message.event !in old(view.outbox)
              && StorableMessage(row.message)
      ensures view == if ok then old(view).(outbox := old(view.outbox)[row.message.event := row]) else old(view)
    {
      ok := row.message.event != "" && row.key != "" && row.message.event !in view.outbox
          && StorableMessage(row.message);
      if ok {
        view := view.(outbox := view.outbox[row.message.event := row]);
      }
    }

    /** INSERT INTO users ... ON CONFLICT DO NOTHING. */
    method InsertUser(u: Hash, user: User) returns (inserted: bool)
      modifies this
      ensures inserted <==> u !in old(view.users)
      ensures view == if inserted then old(view).(users := old(view.users)[u := user]) else old(view)
    {
      inserted := u !in view.users;
      if inserted {
        view := view.(users := view.users[u := user]);
      }
    }

    /** INSERT INTO journeys, with the line and position texts the row also takes. */
    method InsertJourney(id: Id, journey: Journey, line: string, position: string) returns (ok: bool)
      modifies this
      ensures ok <==> id !in old(view.journeys) && Storable(id) && Storable(line) && Storable(position)
      ensures view == if ok then old(view).(journeys := old(view.journeys)[id := journey]) else old(view)
    {
      ok := id !in view.journeys && Storable(id) && Storable(line) && Storable(position);
      if ok {
        view := view.(journeys := view.journeys[id := journey]);
      }
    }

    /** INSERT INTO recommendations, whose score column is NUMERIC(8, 4). */
    method InsertRecommendation(id: Id, row: Recommendation) returns (ok: bool)
      modifies this
      ensures ok <==>
        && id !in old(view.recommendations) && row.journey in old(view.journeys) && row.offer in old(view.offers)
        && StorableRow(id, row) && Storable(row.title) && Storable(row.body) && ScoreFits(row.score)
      ensures view == if ok then old(view).(recommendations := old(view.recommendations)[id := row]) else old(view)
    {
      ok := id !in view.recommendations && row.journey in view.journeys && row.offer in view.offers
        && StorableRow(id, row) && Storable(row.title) && Storable(row.body) && ScoreFits(row.score);
      if ok {
        view := view.(recommendations := view.recommendations[id := row]);
      }
    }

    /** INSERT INTO recommendation_dismissals ... ON CONFLICT DO NOTHING. */
    method InsertDismissal(d: Dismissal)
      modifies this
      ensures view == old(view).(dismissals := old(view.dismissals) + {d})
    {
      view := view.(dismissals := view.dismissals + {d});
    }

    /** INSERT INTO notification_deliveries ... ON CONFLICT (subscription_id, recommendation_id) DO
        NOTHING; `ok` is false when the primary key or the journey reference fails. */
    method InsertDelivery(key: (Id, Id), d: Delivery) returns (ok: bool, inserted: bool)
      modifies this
      ensures ok <==> d.journey in old(view.journeys) && forall k | k in old(view.deliveries) ::
          old(view.deliveries)[k].notification != d.notification
      ensures inserted <==> ok && key !in old(view.deliveries)
      ensures view == if inserted then old(view).(deliveries := old(view.deliveries)[key := d]) else old(view)
    {
      var rows := view.deliveries;
      ok := d.journey in view.journeys && forall k | k in rows :: rows[k].notification != d.notification;
      inserted := ok && key !in rows;
      if inserted {
        view := view.(deliveries := rows[key := d]);
      }
    }

    /** UPDATE notification_subscriptions SET active = false. */
    method Deactivate(sub: Id)
      modifies this
      ensures view == old(view).(subscriptions := if sub in old(view.subscriptions)
        then old(view.subscriptions)[sub := old(view.subscriptions)[sub].(active := false)]
            else old(view.subscriptions))
    {
      if sub in view.subscriptions {
        view := view.(subscriptions := view.subscriptions[sub := view.subscriptions[sub].(active := false)]);
      }
    }
  }
}
