/** User provisioning, journey entry and recommendation feedback statement by statement, proved to be
    the atomic transactions. */
module GatewayService {
  import opened Schema
  import opened DatabaseState
  import opened Feedback
  import opened Users
  import opened Journeys
  import RedemptionService

  /** The user insert and the opening ledger entry it feeds; false is an invalid hash. */
  method EnsureDemoUser(tx: Transaction, u: Hash) returns (ok: bool)
    modifies tx
    ensures ok <==> EnsureDemoUserTx(old(tx.view), u).Some?
    ensures tx.view == if ok then EnsureDemoUserTx(old(tx.view), u).value else old(tx.view)
  {
    if !ValidUserHash(u) {
      return false;
    }
    var created := tx.InsertUser(u, NEW_USER);
    if created {
      var posted := tx.AppendEntry(u, OPENING);
    }
    ok := true;
  }

  method CreateEntryEvent(db: Database, r: EnterRequest, journey: Uuid, event: Uuid, at: int) returns (reply: Reply)
    modifies db
    ensures (db.committed, reply) == EnterTx(old(db.committed), r, journey, event, at)
  {
    if !ValidUserHash(r.user) || r.station == "" {
      return InvalidRequest;
    }
    HashStorable(r.user);
    var tx := new Transaction(db);
    var ensured := EnsureDemoUser(tx, r.user);
    if !Storable(r.station) {
      return Database;
    }
    if r.station !in tx.view.stations {
      return InvalidRequest;
    }
    var inserted := tx.InsertJourney(journey, Journey(r.user, r.station), r.line, r.position);
    if !inserted {
      return Database;
    }
    var enqueued := tx.Enqueue(EnteredRow(r, journey, event, at));
    if !enqueued {
      return Database;
    }
    db.Commit(tx);
    reply := Ok(event);
  }

  /** The scan for a requested offer among the stored eligible candidates. */
  method AllowedOffer(candidates: seq<Candidate>, requested: Id) returns (allowed: bool)
    ensures allowed <==> exists c | c in candidates :: c.offer == requested && c.eligible
  {
    allowed := false;
    for i := 0 to |candidates|
      invariant !allowed
      invariant forall j | 0 <= j < i :: !(candidates[j].offer == requested && candidates[j].eligible)
    {
      if candidates[i].offer == requested && candidates[i].eligible {
        return true;
      }
    }
  }

  method RecordRecommendationEvent(db: Database, r: RecordRequest, trace: TraceId, at: int) returns (reply: Reply)
    modifies db
    ensures (db.committed, reply) == RecordTx(old(db.committed), r, trace, at)
  {
    if !ValidRecord(r) {
      return InvalidRequest;
    }
    if !Storable(r.recommendation) || !Storable(r.journey) {
      return Database;
    }
    var tx := new Transaction(db);
    if !Associated(tx.view, r) {
      return NotFound;
    }
    var row := tx.view.recommendations[r.recommendation];
    var offer := row.offer;
    if r.offer != "" && r.offer != row.offer {
      var allowed := AllowedOffer(row.candidates, r.offer);
      if !allowed {
        return InvalidRequest;
      }
      offer := r.offer;
    }
    assert FeedbackOffer(row, r.offer) == Some(offer);
    reply := Settle(db, tx, r, offer, trace, at);
  }

  /** The weight, dismissal and event writes of a newly claimed feedback. */
  method WriteFeedback(tx: Transaction, r: RecordRequest, event: Id, offer: Id, trace: TraceId, at: int)
    returns (ok: bool)
    requires event != "" && r.user != ""
    modifies tx
    ensures ok <==>
      && Learned(old(tx.view), r.user, offer, r.topic).Some? && event !in old(tx.view.outbox)
      && StorableMessage(FeedbackRow(r, event, offer, trace, at).message)
    ensures ok ==> var t := old(tx.view);
      tx.view == t.(
        weights := Learned(t, r.user, offer, r.topic).value,
        dismissals := if r.topic == RecommendationDismissed
          then t.dismissals + {Dismissal(r.user, r.journey, r.recommendation, offer)}
          else t.dismissals,
        outbox := t.outbox[event := FeedbackRow(r, event, offer, trace, at)])
  {
    ok := RedemptionService.ApplyPreferenceFeedback(tx, r.user, offer, r.topic);
    if !ok {
      return;
    }
    if r.topic == RecommendationDismissed {
      tx.InsertDismissal(Dismissal(r.user, r.journey, r.recommendation, offer));
    }
    ok := tx.Enqueue(FeedbackRow(r, event, offer, trace, at));
  }

  method Settle(db: Database, tx: Transaction, r: RecordRequest, offer: Id, trace: TraceId, at: int)
    returns (reply: Reply)
    requires tx.view == db.committed && r.user != ""
    modifies db, tx
    ensures (db.committed, reply) == SettleTx(old(db.committed), r, offer, trace, at)
  {
    var event := EventOf(r, offer);
    JoinNonEmpty(r, offer);
    var claimed := tx.InsertClaim(Claim(GatewayFeedback, event));
    if !claimed {
      assert tx.view == old(tx.view);
      db.Commit(tx);
      return Ok(event);
    }
    var written := WriteFeedback(tx, r, event, offer, trace, at);
    if !written {
      return Database;
    }
    db.Commit(tx);
    reply := Ok(event);
  }

  lemma JoinNonEmpty(r: RecordRequest, offer: Id)
    ensures EventOf(r, offer) != ""
  {
    var parts := Identity(r.user, r.journey, r.recommendation, offer, r.topic);
    assert Join(parts) == parts[0] + NUL + Join(parts[1..]);
  }
}
