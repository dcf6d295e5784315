/** The services, several outbox publishers, the broker and the analytics consumers together. Any of
    them may crash at any point; messages may be written and fetched more than once. When nothing is
    left to do, the projection holds exactly the outbox. */
module Pipeline {
  import opened Schema
  import opened Analytics
  import opened OutboxTable
  import Outbox
  import Recommending
  import opened Invariants
  import opened System
  import R = Redemptions
  import Journeys
  import Notifications

  datatype Partition = Partition(topic: Topic, number: nat)

  /** A publisher holding row locks on a batch, with the first `written` rows acknowledged and marked
      in its still uncommitted transaction. */
  datatype Publisher = Idle | Working(batch: seq<Id>, written: nat)

  /** A consumer group's committed offset and the position its reader has worked up to. */
  datatype Cursor = Cursor(committed: nat, position: nat)

  /** `order` lists the outbox ids by (occurred_at, event_id), and `limit` is how many rows a publisher
      selects at most. */
  datatype World = World(tables: Tables, order: seq<Id>, limit: nat, logs: map<Partition, seq<Envelope>>,
    publishers: seq<Publisher>, cursors: map<Partition, Cursor>,
    projection: map<Id, ProductEvent>)

  function Log(w: World, p: Partition): seq<Envelope> {
    if p in w.logs then w.logs[p] else []
  }

  function At(w: World, p: Partition): Cursor {
    if p in w.cursors then w.cursors[p] else Cursor(0, 0)
  }

  datatype Move =
    | Serve(op: Op, order: seq<Id>)                      // any service transaction
    | Select(publisher: nat)                             // FOR UPDATE SKIP LOCKED
    | Write(publisher: nat, partition: Partition)        // acknowledged write, row marked
    | Stray(publisher: nat, partition: Partition)        // taken by the broker, never acknowledged
    | Finish(publisher: nat)                             // every row written: commit the marks
    | GiveUp(publisher: nat)                             // a write failed: count the attempt and commit
    | Crash(publisher: nat)                              // rollback
    | Consume(partition: Partition)                      // decode and insert, or skip
    | Acknowledge(partition: Partition)                  // commit the offset
    | Restart(partition: Partition)                      // resume from the committed offset

  /** The rows some publisher has locked. */
  function Locked(publishers: seq<Publisher>): set<Id> {
    set p, e | p in publishers && p.Working? && e in p.batch :: e
  }

  function Unlocked(s: seq<Id>, locked: set<Id>): seq<Id> {
    if s == [] then [] else (if s[0] in locked then [] else [s[0]]) + Unlocked(s[1..], locked)
  }

  /** The waiting rows nobody has locked, oldest first. */
  function Free(w: World): seq<Id> {
    Unlocked(PendingIn(w.tables.outbox, w.order), Locked(w.publishers))
  }

  /** SELECT ... WHERE published_at IS NULL ORDER BY ... LIMIT ... FOR UPDATE SKIP LOCKED. */
  function Oldest(w: World): seq<Id> {
    Free(w)[..Min(w.limit, |Free(w)|)]
  }

  predicate CanWrite(w: World, i: nat, p: Partition) {
    && i < |w.publishers| && w.publishers[i].Working? && w.publishers[i].written < |w.publishers[i].batch|
    && var e := w.publishers[i].batch[w.publishers[i].written];
    e in w.tables.outbox && w.tables.outbox[e].topic == p.topic
  }

  /** Publishing marks belong to the publishers. */
  predicate ServiceOp(op: Op) {
    !op.MarkPublished? && !op.FailPublish?
  }

  /** `occurred_at` is when the enqueuing transaction began, so a service may put its rows anywhere. */
  ghost predicate Enabled(w: World, m: Move) {
    match m
    case Serve(op, order) => ServiceOp(op) && Lists(order, Apply(w.tables, op).outbox) && Extends(order, w.order)
    case Select(i) => i < |w.publishers| && w.publishers[i].Idle?
    case Write(i, p) => CanWrite(w, i, p)
    case Stray(i, p) => CanWrite(w, i, p)
    case Finish(i) => i < |w.publishers| && w.publishers[i].Working?
        && w.publishers[i].written == |w.publishers[i].batch|
    case GiveUp(i) => i < |w.publishers| && w.publishers[i].Working?
        && w.publishers[i].written < |w.publishers[i].batch|
    case Crash(i) => i < |w.publishers|
    case Consume(p) => At(w, p).position < |Log(w, p)|
    case Acknowledge(_) => true
    case Restart(_) => true
  }

  function Append(w: World, p: Partition, m: Envelope): map<Partition, seq<Envelope>> {
    w.logs[p := Log(w, p) + [m]]
  }

  function Head(w: World, i: nat, p: Partition): Envelope
    requires CanWrite(w, i, p)
  {
    w.tables.outbox[w.publishers[i].batch[w.publishers[i].written]].message
  }

  /** An acknowledged write: the message is in the log and the row counts as written. */
  function Written(w: World, i: nat, p: Partition): World
    requires CanWrite(w, i, p)
  {
    w.(logs := Append(w, p, Head(w, i, p)),
      publishers := w.publishers[i := w.publishers[i].(written := w.publishers[i].written + 1)])
  }

  ghost function Next(w: World, m: Move): World
    requires Enabled(w, m)
  {
    match m
    case Serve(op, order) => w.(tables := Apply(w.tables, op), order := order)
    case Select(i) => w.(publishers := w.publishers[i := Working(Oldest(w), 0)])
    case Write(i, p) => Written(w, i, p)
    case Stray(i, p) => w.(logs := Append(w, p, Head(w, i, p)))
    case Finish(i) =>
      w.(tables := w.tables.(outbox := MarkAll(w.tables.outbox, w.publishers[i].batch)),
          publishers := w.publishers[i := Idle])
    case GiveUp(i) =>
      var pub := w.publishers[i];
      w.(tables := w.tables.(outbox := CountAttempt(MarkAll(w.tables.outbox, pub.batch[..pub.written]),
          pub.batch[pub.written])),
        publishers := w.publishers[i := Idle])
    case Crash(i) => w.(publishers := w.publishers[i := Idle])
    case Consume(p) =>
      var at := At(w, p);
      var decoded := DecodeEvent(Some(Log(w, p)[at.position]));
      w.(projection := if decoded.Some? then w.projection[decoded.value.event := decoded.value] else w.projection,
        cursors := w.cursors[p := at.(position := at.position + 1)])
    case Acknowledge(p) => w.(cursors := w.cursors[p := At(w, p).(committed := At(w, p).position)])
    case Restart(p) => w.(cursors := w.cursors[p := At(w, p).(position := At(w, p).committed)])
  }

  // ---------------------------------------------------------------- the invariant

  predicate InLog(logs: map<Partition, seq<Envelope>>, m: Envelope) {
    exists p | p in logs :: m in logs[p]
  }

  /** The log holds only enqueued messages, each in a partition of its own topic. */
  predicate Genuine(outbox: map<Id, OutboxRow>, p: Partition, m: Envelope) {
    m.event in outbox && outbox[m.event].message == m && m.topic == p.topic
  }

  ghost predicate LogsGenuine(outbox: map<Id, OutboxRow>, logs: map<Partition, seq<Envelope>>) {
    forall p | p in logs :: forall m | m in logs[p] :: Genuine(outbox, p, m)
  }

  /** A row marked published is in the log. */
  ghost predicate PublishedLogged(outbox: map<Id, OutboxRow>, logs: map<Partition, seq<Envelope>>) {
    forall e | e in outbox && outbox[e].published :: InLog(logs, outbox[e].message)
  }

  /** So is every row a publisher has had acknowledged. */
  predicate WrittenLogged(outbox: map<Id, OutboxRow>, logs: map<Partition, seq<Envelope>>, pub: Publisher) {
    pub.Working? ==>
      && pub.written <= |pub.batch|
      && (forall i | 0 <= i < |pub.batch| :: pub.batch[i] in outbox)
      && (forall i | 0 <= i < pub.written :: InLog(logs, outbox[pub.batch[i]].message))
  }

  /** Everything before a consumer's position is in the projection. */
  predicate Projected(projection: map<Id, ProductEvent>, m: Envelope) {
    var decoded := DecodeEvent(Some(m));
    decoded.Some? ==> decoded.value.event in projection && projection[decoded.value.event] == decoded.value
  }

  predicate CaughtUp(log: seq<Envelope>, at: Cursor, projection: map<Id, ProductEvent>) {
    && at.committed <= at.position <= |log|
    && forall i | 0 <= i < at.position :: Projected(projection, log[i])
  }

  /** The projection holds nothing but decoded outbox rows. */
  ghost predicate ProjectionGenuine(outbox: map<Id, OutboxRow>, projection: map<Id, ProductEvent>) {
    forall e | e in projection :: e in outbox && DecodeEvent(Some(outbox[e].message)) == Some(projection[e])
  }

  /** The invariant that goes with sound tables. */
  ghost predicate Flow(w: World) {
    && LogsGenuine(w.tables.outbox, w.logs)
    && PublishedLogged(w.tables.outbox, w.logs)
    && (forall pub | pub in w.publishers :: WrittenLogged(w.tables.outbox, w.logs, pub))
    && (forall p :: CaughtUp(Log(w, p), At(w, p), w.projection))
    && ProjectionGenuine(w.tables.outbox, w.projection)
  }

  /** No row waits, and every consumer has committed to the end of its log. */
  ghost predicate Quiet(w: World) {
    && (forall e | e in w.tables.outbox :: w.tables.outbox[e].published)
    && (forall p | p in w.logs :: At(w, p).committed == |w.logs[p]|)
  }

  /** The projection, keyed by event id, is the decoded outbox. */
  ghost predicate MirrorsRows(outbox: map<Id, OutboxRow>, projection: map<Id, ProductEvent>) {
    && projection.Keys == outbox.Keys
    && forall e | e in projection :: DecodeEvent(Some(outbox[e].message)) == Some(projection[e])
  }

  ghost predicate Mirrors(w: World) {
    MirrorsRows(w.tables.outbox, w.projection)
  }

  lemma GenuineMirrors(outbox: map<Id, OutboxRow>, projection: map<Id, ProductEvent>)
    requires ProjectionGenuine(outbox, projection) && forall e | e in outbox :: e in projection
    ensures MirrorsRows(outbox, projection)
  {
  }

  /** In a quiet world a logged message of the outbox has been projected. */
  lemma LoggedIsProjected(w: World, m: Envelope)
    requires Flow(w) && Quiet(w) && InLog(w.logs, m)
    ensures Projected(w.projection, m)
  {
    var p :| p in w.logs && m in w.logs[p];
    var i :| 0 <= i < |w.logs[p]| && w.logs[p][i] == m;
    assert CaughtUp(Log(w, p), At(w, p), w.projection);
    assert Projected(w.projection, Log(w, p)[i]);
  }

  lemma RowIsProjected(w: World, e: Id)
    requires Flow(w) && Quiet(w) && e in w.tables.outbox && Projectable(e, w.tables.outbox[e])
    ensures e in w.projection
  {
    assert InLog(w.logs, w.tables.outbox[e].message);
    LoggedIsProjected(w, w.tables.outbox[e].message);
  }

  lemma QuietMirrors(w: World)
    requires OutboxOk(w.tables.outbox) && Flow(w) && Quiet(w)
    ensures Mirrors(w)
  {
    forall e | e in w.tables.outbox ensures e in w.projection {
      RowIsProjected(w, e);
    }
    GenuineMirrors(w.tables.outbox, w.projection);
  }

  // ---------------------------------------------------------------- service transactions

  /** A service leaves existing outbox rows alone and adds unpublished ones. */
  predicate OnlyAdds(outbox: map<Id, OutboxRow>, outbox': map<Id, OutboxRow>) {
    && (forall e | e in outbox :: e in outbox' && outbox'[e] == outbox[e])
    && (forall e | e in outbox' && e !in outbox :: !outbox'[e].published)
  }

  lemma FreshRowOnlyAdds(outbox: map<Id, OutboxRow>, e: Id, row: OutboxRow)
    requires e !in outbox && !row.published
    ensures OnlyAdds(outbox, outbox[e := row])
  {
  }

  lemma OnlyAddsTransitive(a: map<Id, OutboxRow>, b: map<Id, OutboxRow>, c: map<Id, OutboxRow>)
    requires OnlyAdds(a, b) && OnlyAdds(b, c)
    ensures OnlyAdds(a, c)
  {
  }

  lemma CreateOnlyAdds(t: Tables, r: R.CreateRequest, m: R.Minted, at: int)
    ensures OnlyAdds(t.outbox, R.CreateTx(t, r, m, at).0.outbox)
  {
    R.CreateOutcome(t, r, m, at);
    if R.Grants(t, r, m, at) {
      FreshRowOnlyAdds(t.outbox, m.event, R.SucceededRow(r, m, at));
    }
  }

  lemma VerifyOnlyAdds(t: Tables, r: R.VerifyRequest, event: Uuid, at: int)
    ensures OnlyAdds(t.outbox, R.VerifyTx(t, r, event, at).0.outbox)
  {
    R.VerifyOutcome(t, r, event, at);
    if R.Confirms(t, r, event) {
      FreshRowOnlyAdds(t.outbox, event, R.VerifiedRow(r, event, t.redemptions[r.redemption].journey,
          t.redemptions[r.redemption].user, at));
    }
  }

  lemma EnterOnlyAdds(t: Tables, r: Journeys.EnterRequest, journey: Uuid, event: Uuid, at: int)
    ensures OnlyAdds(t.outbox, Journeys.EnterTx(t, r, journey, event, at).0.outbox)
  {
    Journeys.EnterOutcome(t, r, journey, event, at);
  }

  lemma RecommendOnlyAdds(t: Tables, q: Recommending.Request, s: Recommending.Sources, id: Uuid, event: Uuid, at: int)
    ensures OnlyAdds(t.outbox, Recommending.StoreTx(t, q, s, id, event, at).outbox)
  {
    Recommending.StoreOutcome(t, q, s, id, event, at);
  }

  lemma RecordOnlyAdds(t: Tables, r: Journeys.RecordRequest, trace: TraceId, at: int)
    ensures OnlyAdds(t.outbox, Journeys.RecordTx(t, r, trace, at).0.outbox)
  {
    Journeys.RecordOutcome(t, r, trace, at);
  }

  lemma AnnounceOnlyAdds(outbox: map<Id, OutboxRow>, source: Envelope, push: Notifications.Push,
      m: Notifications.Minted, at: int)
    requires Notifications.Announce(outbox, source, push, m, at).Some?
    ensures OnlyAdds(outbox, Notifications.Announce(outbox, source, push, m, at).value)
  {
    var first := if push.Refused? then NotificationFailed else NotificationSent;
    var row := Notifications.NotificationRow(source, first, m.notification, m.first, at);
    FreshRowOnlyAdds(outbox, m.first, row);
    if push.Accepted? && push.delivered {
      var second := Notifications.NotificationRow(source, NotificationDelivered, m.notification, m.second, at);
      FreshRowOnlyAdds(outbox[m.first := row], m.second, second);
      OnlyAddsTransitive(outbox, outbox[m.first := row], outbox[m.first := row][m.second := second]);
    }
  }

  lemma {:induction false} DeliverAllOnlyAdds(t: Tables, source: Envelope, rows: seq<Id>, w: Notifications.World)
    requires Notifications.DeliverAll(t, source, rows, w).Some?
    ensures OnlyAdds(t.outbox, Notifications.DeliverAll(t, source, rows, w).value.outbox)
  {
    if rows != [] {
      var n := |rows| - 1;
      DeliverAllOnlyAdds(t, source, rows[..n], w);
      var mid, sub := Notifications.DeliverAll(t, source, rows[..n], w).value, rows[n];
      if (sub, source.recommendation) !in mid.deliveries {
        AnnounceOnlyAdds(mid.outbox, source, w.push[sub], w.minted[sub], w.now);
        OnlyAddsTransitive(t.outbox, mid.outbox, Notifications.DeliverAll(t, source, rows, w).value.outbox);
      }
    }
  }

  lemma NotifyOnlyAdds(t: Tables, source: Envelope, rows: seq<Id>, w: Notifications.World)
    ensures OnlyAdds(t.outbox, Notifications.ProcessTx(t, source, rows, w).outbox)
  {
    var t1 := Notifications.Claimed(t, source);
    Notifications.ProcessOutcome(t, source, rows, w);
    if Notifications.DeliverAll(t1, source, rows, w).Some? {
      DeliverAllOnlyAdds(t1, source, rows, w);
    }
  }

  lemma ServiceOnlyAdds(t: Tables, op: Op)
    requires ServiceOp(op)
    ensures OnlyAdds(t.outbox, Apply(t, op).outbox)
  {
    match op
    case Create(r, m, at) => CreateOnlyAdds(t, r, m, at);
    case Verify(r, event, at) => VerifyOnlyAdds(t, r, event, at);
    case Enter(r, journey, event, at) => EnterOnlyAdds(t, r, journey, event, at);
    case Recommend(q, s, id, event, at) => RecommendOnlyAdds(t, q, s, id, event, at);
    case Record(r, trace, at) => RecordOnlyAdds(t, r, trace, at);
    case Notify(source, rows, w) => NotifyOnlyAdds(t, source, rows, w);
    case EnsureUser(u) => assert EnsureTx(t, u).outbox == t.outbox;
    case Subscribe(sub, row) => assert SubscribeTx(t, sub, row).outbox == t.outbox;
    case Configure(u, settings) => assert ConfigureTx(t, u, settings).outbox == t.outbox;
  }

  /** A service can always be served. */
  lemma ServeIsFree(w: World, op: Op) returns (order: seq<Id>)
    requires Lists(w.order, w.tables.outbox) && ServiceOp(op)
    ensures Enabled(w, Serve(op, order))
  {
    ServiceOnlyAdds(w.tables, op);
    order := Appended(w.order, Apply(w.tables, op).outbox.Keys - w.tables.outbox.Keys);
  }

  // ---------------------------------------------------------------- each kind of move keeps the pipeline invariant

  /** Nothing in the flow depends on the outbox beyond what its rows say and which are published. */
  lemma OutboxGrowthKeepsFlow(w: World, t: Tables)
    requires Flow(w)
    requires forall e | e in w.tables.outbox :: e in t.outbox && t.outbox[e].message == w.tables.outbox[e].message
    requires PublishedLogged(t.outbox, w.logs)
    ensures Flow(w.(tables := t))
  {
    var w' := w.(tables := t);
    forall p, m | p in w.logs && m in w.logs[p] ensures Genuine(t.outbox, p, m) {
      assert Genuine(w.tables.outbox, p, m);
    }
    forall pub | pub in w'.publishers ensures WrittenLogged(t.outbox, w'.logs, pub) {
      assert WrittenLogged(w.tables.outbox, w.logs, pub);
    }
    forall p ensures CaughtUp(Log(w', p), At(w', p), w'.projection) {
      assert CaughtUp(Log(w, p), At(w, p), w.projection);
    }
  }

  lemma ServeKeepsFlow(w: World, op: Op)
    requires Flow(w) && ServiceOp(op)
    ensures Flow(w.(tables := Apply(w.tables, op)))
  {
    ServiceOnlyAdds(w.tables, op);
    OutboxGrowthKeepsFlow(w, Apply(w.tables, op));
  }

  lemma PublishersKeepFlow(w: World, i: nat, pub: Publisher)
    requires Flow(w) && i < |w.publishers| && WrittenLogged(w.tables.outbox, w.logs, pub)
    ensures Flow(w.(publishers := w.publishers[i := pub]))
  {
    var w' := w.(publishers := w.publishers[i := pub]);
    forall q | q in w'.publishers ensures WrittenLogged(w'.tables.outbox, w'.logs, q) {
      if q != pub {
        assert q in w.publishers;
      }
    }
    forall p ensures CaughtUp(Log(w', p), At(w', p), w'.projection) {
      assert CaughtUp(Log(w, p), At(w, p), w.projection);
    }
  }

  lemma LoggedStays(w: World, p: Partition, m: Envelope, x: Envelope)
    requires InLog(w.logs, x)
    ensures InLog(Append(w, p, m), x)
  {
    var q :| q in w.logs && x in w.logs[q];
    assert x in Append(w, p, m)[q];
  }

  lemma AppendKeepsFlow(w: World, p: Partition, m: Envelope)
    requires Flow(w) && Genuine(w.tables.outbox, p, m)
    ensures Flow(w.(logs := Append(w, p, m))) && InLog(Append(w, p, m), m)
  {
    var w' := w.(logs := Append(w, p, m));
    assert m in w'.logs[p];
    forall q, x | q in w'.logs && x in w'.logs[q] ensures Genuine(w.tables.outbox, q, x) {
      assert x != m ==> x in Log(w, q);
    }
    forall e | e in w.tables.outbox && w.tables.outbox[e].published ensures InLog(w'.logs, w.tables.outbox[e].message) {
      LoggedStays(w, p, m, w.tables.outbox[e].message);
    }
    forall pub | pub in w'.publishers ensures WrittenLogged(w.tables.outbox, w'.logs, pub) {
      assert WrittenLogged(w.tables.outbox, w.logs, pub);
      if pub.Working? {
        forall i | 0 <= i < pub.written ensures InLog(w'.logs, w.tables.outbox[pub.batch[i]].message) {
          LoggedStays(w, p, m, w.tables.outbox[pub.batch[i]].message);
        }
      }
    }
    forall q ensures CaughtUp(Log(w', q), At(w', q), w'.projection) {
      assert CaughtUp(Log(w, q), At(w, q), w.projection);
    }
  }

  lemma HeadGenuine(w: World, i: nat, p: Partition)
    requires OutboxOk(w.tables.outbox) && CanWrite(w, i, p)
    ensures Genuine(w.tables.outbox, p, Head(w, i, p))
  {
    var e := w.publishers[i].batch[w.publishers[i].written];
    assert Projectable(e, w.tables.outbox[e]);
  }

  lemma AcknowledgedLogged(w: World, i: nat, w': World)
    requires Flow(w) && i < |w.publishers| && w.publishers[i].Working?
        && w.publishers[i].written < |w.publishers[i].batch|
    requires w.publishers[i].batch[w.publishers[i].written] in w.tables.outbox
    requires InLog(w.logs, w.tables.outbox[w.publishers[i].batch[w.publishers[i].written]].message)
    requires w' == w.(publishers := w.publishers[i := w.publishers[i].(written := w.publishers[i].written + 1)])
    ensures Flow(w')
  {
    var pub := w.publishers[i];
    assert WrittenLogged(w.tables.outbox, w.logs, pub);
    PublishersKeepFlow(w, i, pub.(written := pub.written + 1));
  }

  lemma HeadKeepsFlow(w: World, i: nat, p: Partition)
    requires Flow(w) && OutboxOk(w.tables.outbox) && CanWrite(w, i, p)
    ensures Flow(w.(logs := Append(w, p, Head(w, i, p)))) && InLog(Append(w, p, Head(w, i, p)), Head(w, i, p))
  {
    HeadGenuine(w, i, p);
    AppendKeepsFlow(w, p, Head(w, i, p));
  }

  lemma WriteKeepsFlow(w: World, i: nat, p: Partition)
    requires Flow(w) && OutboxOk(w.tables.outbox) && CanWrite(w, i, p)
    ensures Flow(Written(w, i, p))
  {
    HeadKeepsFlow(w, i, p);
    AcknowledgedLogged(w.(logs := Append(w, p, Head(w, i, p))), i, Written(w, i, p));
  }

  lemma MarksKeepFlow(w: World, i: nat, outbox: map<Id, OutboxRow>, marked: nat)
    requires Flow(w) && i < |w.publishers| && w.publishers[i].Working?
        && marked <= w.publishers[i].written <= |w.publishers[i].batch|
    requires SameMessages(w.tables.outbox, outbox)
    requires forall e | e in outbox && outbox[e].published ::
        w.tables.outbox[e].published || e in w.publishers[i].batch[..marked]
    ensures Flow(w.(tables := w.tables.(outbox := outbox), publishers := w.publishers[i := Idle]))
  {
    var pub := w.publishers[i];
    assert WrittenLogged(w.tables.outbox, w.logs, pub);
    forall e | e in outbox && outbox[e].published ensures InLog(w.logs, outbox[e].message) {
      if e in pub.batch[..marked] {
        var j :| 0 <= j < marked && pub.batch[j] == e;
        assert InLog(w.logs, w.tables.outbox[pub.batch[j]].message);
      }
    }
    OutboxGrowthKeepsFlow(w, w.tables.(outbox := outbox));
    PublishersKeepFlow(w.(tables := w.tables.(outbox := outbox)), i, Idle);
  }

  /** Inserting a fetched message, again or for the first time, keeps the projection a decoded part of
      the outbox. */
  lemma InsertKeepsFlow(w: World, p: Partition, m: Envelope, event: ProductEvent)
    requires Flow(w) && Genuine(w.tables.outbox, p, m) && DecodeEvent(Some(m)) == Some(event)
    ensures Flow(w.(projection := w.projection[event.event := event]))
  {
    var w' := w.(projection := w.projection[event.event := event]);
    assert event.event == m.event;
    forall e | e in w'.projection
        ensures e in w.tables.outbox && DecodeEvent(Some(w.tables.outbox[e].message)) == Some(w'.projection[e]) {
      if e != m.event {
        assert e in w.projection;
      }
    }
    forall q ensures CaughtUp(Log(w', q), At(w', q), w'.projection) {
      assert CaughtUp(Log(w, q), At(w, q), w.projection);
      forall i | 0 <= i < At(w, q).position ensures Projected(w'.projection, Log(w, q)[i]) {
        assert Projected(w.projection, Log(w, q)[i]);
        assert event.event in w.projection ==> w.projection[event.event] == event;
      }
    }
  }

  lemma AdvanceKeepsFlow(w: World, p: Partition, at: Cursor, w': World)
    requires Flow(w) && at.committed <= at.position <= |Log(w, p)|
    requires forall i | 0 <= i < at.position :: Projected(w.projection, Log(w, p)[i])
    requires w' == w.(cursors := w.cursors[p := at])
    ensures Flow(w')
  {
    forall q ensures CaughtUp(Log(w', q), At(w', q), w'.projection) {
      assert CaughtUp(Log(w, q), At(w, q), w.projection);
    }
  }

  function Absorbed(w: World, m: Envelope): World {
    var decoded := DecodeEvent(Some(m));
    w.(projection := if decoded.Some? then w.projection[decoded.value.event := decoded.value] else w.projection)
  }

  lemma ProjectingKeepsFlow(w: World, p: Partition, m: Envelope)
    requires Flow(w) && Genuine(w.tables.outbox, p, m)
    ensures Flow(Absorbed(w, m))
  {
    var decoded := DecodeEvent(Some(m));
    if decoded.Some? {
      InsertKeepsFlow(w, p, m, decoded.value);
    } else {
      assert Absorbed(w, m) == w;
    }
  }

  /** What has been fetched and projected counts as caught up. */
  lemma AbsorbedIsCaughtUp(w: World, p: Partition, m: Envelope)
    requires Flow(w) && Flow(Absorbed(w, m)) && At(w, p).position < |Log(w, p)| && m == Log(w, p)[At(w, p).position]
    ensures var w1 := Absorbed(w, m); forall i | 0 <= i < At(w, p).position + 1 ::
        Projected(w1.projection, Log(w1, p)[i])
  {
    var w1 := Absorbed(w, m);
    assert CaughtUp(Log(w1, p), At(w1, p), w1.projection);
  }

  lemma ConsumeKeepsFlow(w: World, p: Partition, m: Envelope, w1: World, w': World)
    requires Flow(w) && Enabled(w, Consume(p)) && m == Log(w, p)[At(w, p).position] && w1 == Absorbed(w, m)
    requires w' == w1.(cursors := w1.cursors[p := At(w, p).(position := At(w, p).position + 1)])
    ensures Flow(w')
  {
    assert Genuine(w.tables.outbox, p, m);
    assert CaughtUp(Log(w, p), At(w, p), w.projection);
    ProjectingKeepsFlow(w, p, m);
    AbsorbedIsCaughtUp(w, p, m);
    AdvanceKeepsFlow(w1, p, At(w, p).(position := At(w, p).position + 1), w');
  }

  lemma {:induction false} UnlockedMembers(s: seq<Id>, locked: set<Id>)
    ensures forall e :: e in Unlocked(s, locked) <==> e in s && e !in locked
  {
    if s != [] {
      UnlockedMembers(s[1..], locked);
      assert s == [s[0]] + s[1..];
    }
  }

  /** What a publisher selects waits and is locked by nobody else. */
  lemma OldestMembers(w: World)
    ensures forall i | 0 <= i < |Oldest(w)| ::
      Waiting(w.tables.outbox, Oldest(w)[i]) && Oldest(w)[i] !in Locked(w.publishers)
  {
    PendingMembers(w.tables.outbox, w.order);
    UnlockedMembers(PendingIn(w.tables.outbox, w.order), Locked(w.publishers));
    assert forall i | 0 <= i < |Oldest(w)| :: Oldest(w)[i] in Free(w);
  }

  lemma {:induction false} UnlockedAll(s: seq<Id>)
    ensures Unlocked(s, {}) == s
  {
    if s != [] {
      UnlockedAll(s[1..]);
      assert s == [s[0]] + s[1..];
    }
  }

  /** A publisher that is alone selects what one call of `PublishPending` does. */
  lemma OldestIsBatch(w: World)
    requires Locked(w.publishers) == {}
    ensures Oldest(w) == Outbox.Batch(w.tables.outbox, w.order, w.limit)
  {
    UnlockedAll(PendingIn(w.tables.outbox, w.order));
  }

  lemma PublisherMovesKeepFlow(w: World, m: Move)
    requires OutboxOk(w.tables.outbox) && Flow(w) && Enabled(w, m)
    requires m.Select? || m.Write? || m.Stray? || m.Crash?
    ensures Flow(Next(w, m))
  {
    match m
    case Select(i) =>
      OldestMembers(w);
      PublishersKeepFlow(w, i, Working(Oldest(w), 0));
    case Write(i, p) => WriteKeepsFlow(w, i, p);
    case Stray(i, p) => HeadKeepsFlow(w, i, p);
    case Crash(i) => PublishersKeepFlow(w, i, Idle);
  }

  lemma ConsumerMovesKeepFlow(w: World, m: Move)
    requires Flow(w) && Enabled(w, m) && (m.Consume? || m.Acknowledge? || m.Restart?)
    ensures Flow(Next(w, m))
  {
    match m
    case Consume(p) =>
      var head := Log(w, p)[At(w, p).position];
      ConsumeKeepsFlow(w, p, head, Absorbed(w, head), Next(w, m));
    case Acknowledge(p) =>
      assert CaughtUp(Log(w, p), At(w, p), w.projection);
      AdvanceKeepsFlow(w, p, At(w, p).(committed := At(w, p).position), Next(w, m));
    case Restart(p) =>
      assert CaughtUp(Log(w, p), At(w, p), w.projection);
      AdvanceKeepsFlow(w, p, At(w, p).(position := At(w, p).committed), Next(w, m));
  }

  lemma FinishKeeps(opening: map<Id, Stock>, w: World, i: nat)
    requires Sound(opening, w.tables) && Flow(w) && Enabled(w, Finish(i))
    ensures Flow(Next(w, Finish(i))) && Sound(opening, Next(w, Finish(i)).tables)
  {
    var pub := w.publishers[i];
    MarksSayTheSame(w.tables.outbox, pub.batch);
    assert pub.batch[..pub.written] == pub.batch;
    MarksKeepFlow(w, i, MarkAll(w.tables.outbox, pub.batch), pub.written);
    RepublishKeeps(opening, w.tables, MarkAll(w.tables.outbox, pub.batch));
  }

  function GivenUp(w: World, i: nat): map<Id, OutboxRow>
    requires Enabled(w, GiveUp(i))
  {
    CountAttempt(MarkAll(w.tables.outbox, w.publishers[i].batch[..w.publishers[i].written]),
        w.publishers[i].batch[w.publishers[i].written])
  }

  lemma GivenUpSaysTheSame(w: World, i: nat)
    requires Enabled(w, GiveUp(i))
    ensures SameMessages(w.tables.outbox, GivenUp(w, i))
    ensures forall e | e in GivenUp(w, i) && GivenUp(w, i)[e].published ::
      w.tables.outbox[e].published || e in w.publishers[i].batch[..w.publishers[i].written]
  {
    var pub := w.publishers[i];
    var marked := MarkAll(w.tables.outbox, pub.batch[..pub.written]);
    MarksSayTheSame(w.tables.outbox, pub.batch[..pub.written]);
    SameMessagesTransitive(w.tables.outbox, marked, GivenUp(w, i));
  }

  lemma GiveUpKeeps(opening: map<Id, Stock>, w: World, i: nat)
    requires Sound(opening, w.tables) && Flow(w) && Enabled(w, GiveUp(i))
    ensures Flow(Next(w, GiveUp(i))) && Sound(opening, Next(w, GiveUp(i)).tables)
  {
    GivenUpSaysTheSame(w, i);
    MarksKeepFlow(w, i, GivenUp(w, i), w.publishers[i].written);
    RepublishKeeps(opening, w.tables, GivenUp(w, i));
  }

  /** Nothing in the flow depends on the order of the rows. */
  lemma OrderKeepsFlow(w: World, order: seq<Id>)
    requires Flow(w)
    ensures Flow(w.(order := order))
  {
    var w' := w.(order := order);
    forall p ensures CaughtUp(Log(w', p), At(w', p), w'.projection) {
      assert CaughtUp(Log(w, p), At(w, p), w.projection);
    }
  }

  lemma ServeKeeps(opening: map<Id, Stock>, w: World, op: Op, order: seq<Id>)
    requires Sound(opening, w.tables) && Flow(w) && ServiceOp(op)
    ensures Sound(opening, Apply(w.tables, op)) && Flow(w.(tables := Apply(w.tables, op), order := order))
  {
    ServeKeepsFlow(w, op);
    OrderKeepsFlow(w.(tables := Apply(w.tables, op)), order);
    OpKeeps(opening, w.tables, op);
  }

  /** `order` goes on listing exactly the outbox. */
  lemma MoveKeepsOrder(w: World, m: Move)
    requires Lists(w.order, w.tables.outbox) && Enabled(w, m)
    ensures Lists(Next(w, m).order, Next(w, m).tables.outbox)
  {
    if m.Finish? {
      MarksSayTheSame(w.tables.outbox, w.publishers[m.publisher].batch);
    } else if m.GiveUp? {
      GivenUpSaysTheSame(w, m.publisher);
    }
  }

  /** Every move, crashes included, keeps the tables sound and the flow intact. */
  lemma MoveKeeps(opening: map<Id, Stock>, w: World, m: Move)
    requires Sound(opening, w.tables) && Flow(w) && Enabled(w, m)
    ensures Sound(opening, Next(w, m).tables) && Flow(Next(w, m))
  {
    if m.Finish? {
      FinishKeeps(opening, w, m.publisher);
    } else if m.GiveUp? {
      GiveUpKeeps(opening, w, m.publisher);
    } else if m.Serve? {
      ServeKeeps(opening, w, m.op, m.order);
    } else if m.Consume? || m.Acknowledge? || m.Restart? {
      ConsumerMovesKeepFlow(w, m);
    } else {
      PublisherMovesKeepFlow(w, m);
    }
  }

  // ---------------------------------------------------------------- whole runs

  ghost predicate Runs(w: World, moves: seq<Move>)
    decreases |moves|
  {
    moves == [] || (Enabled(w, moves[0]) && Runs(Next(w, moves[0]), moves[1..]))
  }

  ghost function Exec(w: World, moves: seq<Move>): World
    requires Runs(w, moves)
    decreases |moves|
  {
    if moves == [] then w else Exec(Next(w, moves[0]), moves[1..])
  }

  lemma {:induction false} RunKeeps(opening: map<Id, Stock>, w: World, moves: seq<Move>)
    requires Sound(opening, w.tables) && Flow(w) && Runs(w, moves)
    ensures Sound(opening, Exec(w, moves).tables) && Flow(Exec(w, moves))
    decreases |moves|
  {
    if moves != [] {
      MoveKeeps(opening, w, moves[0]);
      RunKeeps(opening, Next(w, moves[0]), moves[1..]);
    }
  }

  lemma {:induction false} RunKeepsOrder(w: World, moves: seq<Move>)
    requires Lists(w.order, w.tables.outbox) && Runs(w, moves)
    ensures Lists(Exec(w, moves).order, Exec(w, moves).tables.outbox) && Exec(w, moves).limit == w.limit
    decreases |moves|
  {
    if moves != [] {
      MoveKeepsOrder(w, moves[0]);
      RunKeepsOrder(Next(w, moves[0]), moves[1..]);
    }
  }

  /** `RunPublisher` does nothing with a limit below 1. */
  ghost predicate Initial(w: World) {
    Opening(w.tables) && w.order == [] && w.limit >= 1 && w.logs == map[] && w.cursors == map[] && w.projection == map[]
        && forall p | p in w.publishers :: p == Idle
  }

  lemma InitialFlow(w: World)
    requires Initial(w)
    ensures Flow(w)
  {
  }

  /** The projected events of one type about one redemption. */
  function ProjectedAbout(projection: map<Id, ProductEvent>, topic: Topic, redemption: Id): set<Id> {
    set e | e in projection && projection[e].topic == topic && projection[e].redemption == redemption
  }

  lemma ProjectedIsEmitted(outbox: map<Id, OutboxRow>, projection: map<Id, ProductEvent>, topic: Topic,
      redemption: Id, e: Id)
    requires MirrorsRows(outbox, projection) && e in outbox && outbox[e].message.payload.Object? && OfRedemption(topic)
    ensures e in ProjectedAbout(projection, topic, redemption) <==> e in Emitted(outbox, topic, redemption)
  {
    assert DecodeEvent(Some(outbox[e].message)) == Some(projection[e]);
  }

  lemma ProjectedCount(offers: map<Id, Offer>, rows: map<Id, Redemption>, outbox: map<Id, OutboxRow>,
      projection: map<Id, ProductEvent>, topic: Topic, redemption: Id)
    requires MirrorsRows(outbox, projection) && OfRedemption(topic) && EventsOk(offers, rows, outbox)
    ensures ProjectedAbout(projection, topic, redemption) == Emitted(outbox, topic, redemption)
  {
    forall e ensures e in ProjectedAbout(projection, topic, redemption) <==> e in Emitted(outbox, topic, redemption) {
      if e in outbox && outbox[e].message.topic == topic {
        assert Reports(offers, rows, outbox[e].message);
        ProjectedIsEmitted(outbox, projection, topic, redemption, e);
      } else if e in projection {
        assert DecodeEvent(Some(outbox[e].message)) == Some(projection[e]);
      }
    }
  }

  lemma SoundParts(opening: map<Id, Stock>, t: Tables)
    requires Sound(opening, t)
    ensures EventsOk(t.offers, t.redemptions, t.outbox) && OutboxOk(t.outbox)
  {
  }

  /** End to end, after any run with any crashes and repeats: once no row waits and every offset is at
      the end of its log, the projection is the decoded outbox, and it shows every redemption
      succeeded exactly once and verified exactly once iff it was. */
  lemma EndToEnd(w: World, moves: seq<Move>)
    requires Initial(w) && Runs(w, moves) && Quiet(Exec(w, moves))
    ensures var e := Exec(w, moves);
      && Mirrors(e)
      && forall id | id in e.tables.redemptions ::
        && |ProjectedAbout(e.projection, RedemptionSucceeded, id)| == 1
        && |ProjectedAbout(e.projection, MerchantVerified, id)| ==
          (if e.tables.redemptions[id].status == Verified then 1 else 0)
  {
    var e := Exec(w, moves);
    OpeningIsSound(w.tables);
    InitialFlow(w);
    RunKeeps(w.tables.inventory, w, moves);
    SoundParts(w.tables.inventory, e.tables);
    QuietMirrors(e);
    forall id | id in e.tables.redemptions
      ensures |ProjectedAbout(e.projection, RedemptionSucceeded, id)| == 1
      ensures |ProjectedAbout(e.projection, MerchantVerified, id)| ==
          (if e.tables.redemptions[id].status == Verified then 1 else 0)
    {
      ProjectedCount(e.tables.offers, e.tables.redemptions, e.tables.outbox, e.projection, RedemptionSucceeded, id);
      ProjectedCount(e.tables.offers, e.tables.redemptions, e.tables.outbox, e.projection, MerchantVerified, id);
      assert Evidenced(e.tables.outbox, id, e.tables.redemptions[id].status);
    }
  }

  /** At every moment of every run: a published row is in the log, the log holds only enqueued
      messages under their own topic, and the projection only decoded outbox rows. */
  lemma NothingLostOrInvented(w: World, moves: seq<Move>)
    requires Initial(w) && Runs(w, moves)
    ensures var e := Exec(w, moves);
      PublishedLogged(e.tables.outbox, e.logs) && LogsGenuine(e.tables.outbox, e.logs)
          && ProjectionGenuine(e.tables.outbox, e.projection)
  {
    OpeningIsSound(w.tables);
    InitialFlow(w);
    RunKeeps(w.tables.inventory, w, moves);
  }

  // ---------------------------------------------------------------- the moves of one publisher are its calls

  /** What a publisher's transaction does to the rows is what `PublishPending` does with as many
      acknowledged writes: all of the batch, or up to an error, or nothing when it dies. */
  lemma MovesAreAttempts(w: World, i: nat, log: seq<Envelope>, fate: nat -> Outbox.Fate)
    requires i < |w.publishers| && w.publishers[i].Working? && Outbox.Enqueued(w.tables.outbox, w.publishers[i].batch)
    requires Outbox.Acknowledgements(fate, 0, |w.publishers[i].batch|) == w.publishers[i].written
    ensures var pub := w.publishers[i];
      && (pub.written == |pub.batch| ==>
        && Enabled(w, Finish(i))
        && Next(w, Finish(i)).tables.outbox ==
          Outbox.Attempted(w.tables.outbox, log, pub.batch, fate, true).rows)
      && (pub.written < |pub.batch| && fate(pub.written).Errored? ==>
        && Enabled(w, GiveUp(i))
        && Next(w, GiveUp(i)).tables.outbox ==
          Outbox.Attempted(w.tables.outbox, log, pub.batch, fate, true).rows)
      && (pub.written < |pub.batch| && fate(pub.written).Died? ==>
        && Enabled(w, Crash(i))
        && Next(w, Crash(i)).tables.outbox ==
          Outbox.Attempted(w.tables.outbox, log, pub.batch, fate, true).rows)
  {
  }
}
