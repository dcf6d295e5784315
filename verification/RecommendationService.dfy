/** `Recommend`, `GetLatest` and `GetLatestRecommendation` statement by statement. */
module RecommendationService {
  import opened Schema
  import opened DatabaseState
  import opened Ranking
  import opened ReadPaths
  import opened Recommending

  /** The answer of a read of the newest row of a journey. */
  datatype Read<T> = Found(id: Id, answer: T) | NotReady | InvalidJourney | ReadFailed

  /** The two services with their candidate limits, which the setters keep between 1 and 50. */
  class Service {
    var candidateLimit: int

    constructor ()
      ensures candidateLimit == 10
    {
      candidateLimit := 10;
    }

    ghost predicate Valid()
      reads this
    {
      1 <= candidateLimit <= 50
    }

    /** A limit that is not positive is ignored, a large one is capped. */
    method WithCandidateLimit(limit: int)
      requires Valid()
      modifies this
      ensures Valid()
      ensures candidateLimit == if limit <= 0 then old(candidateLimit) else if limit > 50 then 50 else limit
    {
      if limit > 0 {
        candidateLimit := if limit > 50 then 50 else limit;
      }
    }

    /** The scan for the first eligible evaluation. */
    method Choose(evaluations: seq<Candidate>) returns (chosen: int)
      ensures chosen == if Chosen(evaluations) == |evaluations| then -1 else Chosen(evaluations)
    {
      for i := 0 to |evaluations|
        invariant forall j | 0 <= j < i :: !evaluations[j].eligible
      {
        if evaluations[i].eligible {
          return i;
        }
      }
      chosen := -1;
    }

    /** The loop that lists the offers; the primary one gets the generated copy. */
    method ListOffers(row: Recommendation) returns (offers: seq<Shown>)
      requires Valid()
      ensures offers == Listed(row, false, {}, candidateLimit)
    {
      var cs := row.candidates;
      offers := [];
      for i := 0 to |cs|
        invariant offers == ShowAll(row, First(Kept(false, {}, cs[..i]), candidateLimit))
      {
        assert cs[..i + 1][..i] == cs[..i];
        if cs[i].eligible && |offers| < candidateLimit {
          var offer := OfferOf(row, cs[i]);
          offers := offers + [offer];
        }
      }
      assert cs[..|cs|] == cs;
    }

    /** From the evaluations to the row that will be inserted. */
    method DecideRow(t: Tables, q: Request, s: Sources) returns (d: Decision)
      ensures d == Decide(t, q, s)
    {
      var obstacle := Obstacle(t, q, s);
      if obstacle.Some? {
        return Refused(obstacle.value);
      }
      var evaluations := EvaluateHits(ViewOf(t, q, s), Hits(s.points.value));
      evaluations := Rank(evaluations);
      var index := Choose(evaluations);
      if index < 0 {
        return Refused(NoEligibleOffer);
      }
      var c := evaluations[index];
      var worded := Word(s, FactsOf(t, q, c));
      if worded.0.NoCopy? {
        return Refused(CopyFailed(worded.0.error));
      }
      var o := worded.0.output;
      d := Recommended(Recommendation(q.journey, c.offer, c.score, c.reasons, o.title, o.body, o.tone,
          SourceName(worded.1), evaluations, s.started));
    }

    method Recommend(db: Database, q: Request, s: Sources, id: Uuid, event: Uuid, at: int) returns (reply: Reply)
      requires Valid()
      modifies db
      ensures (db.committed, reply) == RecommendTx(old(db.committed), q, s, candidateLimit, id, event, at)
    {
      var tx := new Transaction(db);
      var d := DecideRow(tx.view, q, s);
      if d.Refused? {
        return Err(d.error);
      }
      StoredRow(tx.view, q, s);
      var inserted := tx.InsertRecommendation(id, d.row);
      if !inserted {
        return Err(Error.Database);
      }
      var enqueued := tx.Enqueue(CreatedRow(q.user, q.trace, id, event, d.row, at));
      if !enqueued {
        return Err(Error.Database);
      }
      db.Commit(tx);
      var offers := ListOffers(d.row);
      reply := Ok(id, d.row, offers);
    }

    /** `GetLatest`: the first `candidateLimit` titled offers of the newest row of the journey. */
    method GetLatest(db: Database, journey: Id) returns (read: Read<seq<Shown>>)
      requires Valid()
      ensures read.InvalidJourney? <==> journey == ""
      ensures read.ReadFailed? <==> journey != "" && !Storable(journey)
      ensures read.NotReady? ==> forall k | k in db.committed.recommendations ::
          db.committed.recommendations[k].journey != journey
      ensures read.Found? ==>
        var rows := db.committed.recommendations;
        Newest(rows, journey, read.id) && read.answer == Listed(rows[read.id], true, {}, candidateLimit)
    {
      if journey == "" {
        return InvalidJourney;
      }
      if !Storable(journey) {
        return ReadFailed;
      }
      var newest := SelectNewest(db.committed.recommendations, journey);
      if newest.None? {
        return NotReady;
      }
      var rebuilt := RebuildOffers(db.committed.recommendations[newest.value], candidateLimit);
      read := Found(newest.value, rebuilt);
    }

    /** `GetLatestRecommendation`: the same without dismissed offers; the answer shows the first offer
        of its list as its own. Every stored row is named, which all runs keep. */
    method GetLatestRecommendation(db: Database, journey: Id) returns (read: Read<Answer>)
      requires Valid() && AllNamed(db.committed.recommendations)
      ensures read.InvalidJourney? <==> journey == ""
      ensures read.ReadFailed? <==> journey != "" && !Storable(journey)
      ensures read.NotReady? ==> forall k | k in db.committed.recommendations ::
          db.committed.recommendations[k].journey != journey
      ensures read.Found? ==>
        var t := db.committed;
        && Newest(t.recommendations, journey, read.id)
        && read.answer.offers ==
          Listed(t.recommendations[read.id], true, DismissedOffers(t.dismissals, journey, read.id), candidateLimit)
        && (if read.answer.offers == [] then NothingLeft(read.answer) else Heads(read.answer, read.answer.offers[0]))
    {
      if journey == "" {
        return InvalidJourney;
      }
      if !Storable(journey) {
        return ReadFailed;
      }
      var newest := SelectNewest(db.committed.recommendations, journey);
      if newest.None? {
        return NotReady;
      }
      var row := db.committed.recommendations[newest.value];
      var hidden := DismissedOffers(db.committed.dismissals, journey, newest.value);
      ListedNamed(row, true, hidden, candidateLimit);
      var answer := ReadAnswer(row, hidden, candidateLimit);
      read := Found(newest.value, answer);
    }
  }
}
