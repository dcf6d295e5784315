/** The worker's handling of one message, statement by statement, proved to be the claimed
    transaction. */
module NotificationWorker {
  import opened Schema
  import opened DatabaseState
  import opened Notifications

  /** The loop body for one subscription of the query result. */
  method DeliverToOne(tx: Transaction, source: Envelope, sub: Id, w: World) returns (ok: bool)
    requires ValidSource(source)
    modifies tx
    ensures ok <==> DeliverOne(old(tx.view), source, sub, w).Some?
    ensures ok ==> tx.view == DeliverOne(old(tx.view), source, sub, w).value
  {
    var key := (sub, source.recommendation);
    if key in tx.view.deliveries {
      return true;
    }
    if sub !in w.push || sub !in w.minted {
      return false;
    }
    var push, m := w.push[sub], w.minted[sub];
    if push.Refused? && push.gone {
      tx.Deactivate(sub);
    }
    var inserted;
    ok, inserted := tx.InsertDelivery(key, DeliveryRow(source, push, m));
    if !ok {
      return;
    }
    if push.Refused? {
      ok := tx.Enqueue(NotificationRow(source, NotificationFailed, m.notification, m.first, w.now));
    } else {
      ok := tx.Enqueue(NotificationRow(source, NotificationSent, m.notification, m.first, w.now));
      if ok && push.delivered {
        ok := tx.Enqueue(NotificationRow(source, NotificationDelivered, m.notification, m.second, w.now));
      }
    }
  }

  /** The handler; `rows` is what the subscription query returned. */
  method Deliver(tx: Transaction, source: Envelope, rows: seq<Id>, w: World) returns (ok: bool)
    requires ValidSource(source)
    modifies tx
    ensures ok <==> DeliverTx(old(tx.view), source, rows, w).Some?
    ensures ok ==> tx.view == DeliverTx(old(tx.view), source, rows, w).value
  {
    if !Storable(source.user) || source.user !in tx.view.users {
      return false;
    }
    if !Notifies(tx.view.users[source.user], w) {
      return true;
    }
    if !Storable(source.recommendation) {
      return false;
    }
    for i := 0 to |rows|
      invariant DeliverAll(old(tx.view), source, rows[..i], w) == Some(tx.view)
    {
      assert rows[..i + 1][..i] == rows[..i];
      var delivered := DeliverToOne(tx, source, rows[i], w);
      if !delivered {
        StopsForGood(old(tx.view), source, rows, w, i + 1);
        return false;
      }
    }
    assert rows[..|rows|] == rows;
    ok := true;
  }

  lemma {:induction false} StopsForGood(t: Tables, source: Envelope, rows: seq<Id>, w: World, n: nat)
    requires n <= |rows| && DeliverAll(t, source, rows[..n], w) == None
    ensures DeliverAll(t, source, rows, w) == None
  {
    if n < |rows| {
      var shorter := rows[..|rows| - 1];
      assert shorter[..n] == rows[..n];
      StopsForGood(t, source, shorter, w, n);
    } else {
      assert rows[..n] == rows;
    }
  }

  /** The handler failed, or the event id cannot be stored; everything else is acknowledged. */
  predicate Fails(t: Tables, source: Envelope, rows: seq<Id>, w: World) {
    || !Storable(source.event)
    || (Claim(NotificationWorkerV1, source.event) !in t.claims && DeliverTx(Claimed(t, source), source, rows, w).None?)
  }

  lemma HandledIsClaimed(t: Tables, source: Envelope, rows: seq<Id>, w: World)
    requires ValidSource(source) && !Fails(t, source, rows, w)
    ensures ProcessTx(t, source, rows, w).claims == t.claims + {Claim(NotificationWorkerV1, source.event)}
  {
    var t1 := Claimed(t, source);
    if DeliverAll(t1, source, rows, w).Some? {
      EveryRowServed(t1, source, rows, w);
    }
  }

  /** A call fails exactly when it leaves its event unclaimed, or could not have claimed it. */
  lemma FailsIfUnclaimed(t: Tables, source: Envelope, rows: seq<Id>, w: World)
    requires ValidSource(source)
    ensures var claim := Claim(NotificationWorkerV1, source.event);
      Fails(t, source, rows, w) <==> '\0' in source.event || claim !in ProcessTx(t, source, rows, w).claims
  {
    if !Fails(t, source, rows, w) {
      HandledIsClaimed(t, source, rows, w);
    }
  }

  /** `outbox.Process` for this consumer: claim, run the handler, commit both or neither. */
  method Process(db: Database, source: Envelope, rows: seq<Id>, w: World) returns (failed: bool)
    requires ValidSource(source)
    modifies db
    ensures db.committed == ProcessTx(old(db.committed), source, rows, w)
    ensures failed <==> Fails(old(db.committed), source, rows, w)
  {
    if !Storable(source.event) {
      return true;
    }
    var tx := new Transaction(db);
    var claimed := tx.InsertClaim(Claim(NotificationWorkerV1, source.event));
    if !claimed {
      assert tx.view == db.committed;
      db.Commit(tx);
      return false;
    }
    var ok := Deliver(tx, source, rows, w);
    if !ok {
      return true;
    }
    db.Commit(tx);
    failed := false;
  }

  // ---------------------------------------------------------------- the loop over the topic

  /** None is a message that is not JSON. */
  type Message = Option<Envelope>

  predicate Decodable(m: Message) {
    m.Some? && ValidSource(m.value)
  }

  /** How one turn of the loop goes: whether a message is fetched, what the handler finds, and whether
      the offset is committed. */
  datatype Turn = Turn(fetched: bool, rows: seq<Id>, world: World, acknowledged: bool)

  /** The message needs no more work: it cannot be decoded, or its claim is committed. */
  predicate Settled(t: Tables, m: Message) {
    Decodable(m) ==> Claim(NotificationWorkerV1, m.value.event) in t.claims
  }

  /** The first `n` messages are settled. */
  predicate SettledTo(t: Tables, log: seq<Message>, n: nat)
    requires n <= |log|
  {
    forall i | 0 <= i < n :: Settled(t, log[i])
  }

  function Handled(t: Tables, m: Message, turn: Turn): Tables {
    if Decodable(m) then ProcessTx(t, m.value, turn.rows, turn.world) else t
  }

  /** The tables after the messages, one turn each. */
  function HandledAll(t: Tables, messages: seq<Message>, turns: seq<Turn>): Tables
    requires |messages| <= |turns|
  {
    if messages == [] then t
    else
      var n := |messages| - 1;
      Handled(HandledAll(t, messages[..n], turns), messages[n], turns[n])
  }

  predicate Stuck(t: Tables, m: Message, turn: Turn) {
    Decodable(m) && Fails(t, m.value, turn.rows, turn.world)
  }

  /** One message: skipped if it cannot be decoded, otherwise processed under its claim. */
  method Handle(db: Database, m: Message, turn: Turn) returns (failed: bool)
    modifies db
    ensures db.committed == Handled(old(db.committed), m, turn)
    ensures failed <==> Stuck(old(db.committed), m, turn)
    ensures failed ==> db.committed == old(db.committed)
  {
    failed := false;
    if m.Some? && ValidSource(m.value) {
      failed := Process(db, m.value, turn.rows, turn.world);
    }
  }

  lemma HandledSettles(t: Tables, log: seq<Message>, n: nat, turn: Turn)
    requires n < |log| && SettledTo(t, log, n) && !Stuck(t, log[n], turn)
    ensures SettledTo(Handled(t, log[n], turn), log, n + 1)
  {
    if Decodable(log[n]) {
      HandledIsClaimed(t, log[n].value, turn.rows, turn.world);
    }
    assert t.claims <= Handled(t, log[n], turn).claims;
    assert forall i | 0 <= i < n :: Settled(t, log[i]) ==> Settled(Handled(t, log[n], turn), log[i]);
  }

  lemma HandleOneMore(t: Tables, log: seq<Message>, turns: seq<Turn>, start: nat, n: nat)
    requires start <= n < |log| && n - start < |turns|
    ensures HandledAll(t, log[start..n + 1], turns) ==
        Handled(HandledAll(t, log[start..n], turns), log[n], turns[n - start])
  {
    assert log[start..n + 1][..n - start] == log[start..n];
  }

  /** Messages that are settled already are handled without effect, so a session that starts over
      from an earlier offset repeats nothing. */
  lemma {:induction false} SettledIsVoid(t: Tables, messages: seq<Message>, turns: seq<Turn>)
    requires |messages| <= |turns| && SettledTo(t, messages, |messages|)
    ensures HandledAll(t, messages, turns) == t
  {
    if messages != [] {
      var n := |messages| - 1;
      assert Settled(t, messages[n]);
      assert forall i | 0 <= i < n :: messages[..n][i] == messages[i];
      SettledIsVoid(t, messages[..n], turns);
    }
  }

  /** One partition of the topic as this worker reads it. */
  class Worker {
    const log: seq<Message>
    const db: Database
    var committed: nat

    constructor (log: seq<Message>, db: Database)
      ensures this.log == log && this.db == db && committed == 0 && Valid()
    {
      this.log, this.db, committed := log, db, 0;
    }

    /** Every message before the committed offset is settled. */
    ghost predicate Valid()
      reads this, db
    {
      committed <= |log| && SettledTo(db.committed, log, committed)
    }

    /** The loop, until it fails, the turns are over or the log is. It stops before a message that was
        not fetched or whose handler failed, and after one whose offset was not committed. */
    method Run(turns: seq<Turn>) returns (reached: nat)
      requires Valid()
      modifies this`committed, db
      ensures Valid()
      ensures old(committed) <= committed <= reached <= |log| && reached <= committed + 1
      ensures reached - old(committed) <= |turns|
      ensures db.committed == HandledAll(old(db.committed), log[old(committed)..reached], turns)
      ensures SettledTo(db.committed, log, reached)
      ensures var n := reached - old(committed);
        || n == |turns| || reached == |log|
        || (committed == reached && (!turns[n].fetched || Stuck(db.committed, log[reached], turns[n])))
        || (committed < reached && !turns[n - 1].acknowledged)
    {
      ghost var start, before := committed, db.committed;
      reached := committed;
      for i := 0 to |turns|
        invariant start <= reached == committed <= |log|
        invariant reached - start == i || (reached == |log| && reached - start <= i)
        invariant db.committed == HandledAll(before, log[start..reached], turns)
        invariant SettledTo(db.committed, log, reached)
      {
        if reached == |log| {
          continue;
        }
        if !turns[i].fetched {
          return;
        }
        var message := log[reached];
        HandleOneMore(before, log, turns, start, reached);
        ghost var met := db.committed;
        var failed := Handle(db, message, turns[i]);
        if failed {
          return;
        }
        HandledSettles(met, log, reached, turns[i]);
        reached := reached + 1;
        if !turns[i].acknowledged {
          return;
        }
        committed := reached;
      }
    }
  }
}
