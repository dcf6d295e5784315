/** `Recommend` end to end: recall, rank, choose, word and persist. */
module Recommending {
  import opened Schema
  import opened Ranking
  import opened ReadPaths
  import Copy
  import Redemptions

  datatype Request = Request(user: Hash, journey: Id, station: Id, trace: string, vectored: bool)

  /** What the call gets from elsewhere: preferences and recalled points (None is an error), the time
      its transaction started and the clock it ranks by, the string classifications, and the copy
      generator (None is not configured). */
  datatype Sources = Sources(preference: Option<Preference>, points: Option<seq<Point>>, started: int, now: int,
    norm: Norm, digit: Copy.Digits,
    generator: Option<Copy.CopyFacts -> Option<Copy.CopyOutput>>)

  datatype Error =
    | InvalidRequest
    | PreferencesFailed
    | RecallFailed
    | NoEligibleOffer
    | UserNotFound
    | JourneyNotFound
    | StationMismatch
    | CopyFailed(reason: Copy.CopyError)
    | Database

  datatype Reply = Ok(id: Id, row: Recommendation, offers: seq<Shown>) | Err(error: Error)

  datatype Decision = Refused(error: Error) | Recommended(row: Recommendation)

  predicate AllStorable(hits: seq<Hit>) {
    forall h | h in hits :: Storable(h.offer)
  }

  /** Everything that can stop the call before it ranks. */
  function Obstacle(t: Tables, q: Request, s: Sources): (e: Option<Error>)
    ensures e.None? ==>
        s.preference.Some? && s.points.Some? && q.user in t.users && q.journey in t.journeys && q.station in t.stations
  {
    if q.user == "" || q.journey == "" || q.station == "" || q.trace == "" || !q.vectored then Some(InvalidRequest)
    else if s.preference.None? then Some(PreferencesFailed)
    else if s.points.None? then Some(RecallFailed)
    else if Hits(s.points.value) == [] then Some(NoEligibleOffer)
    else if !Storable(q.user) then Some(Database)
    else if q.user !in t.users then Some(UserNotFound)
    else if !Storable(q.journey) then Some(Database)
    else if !Redemptions.OwnJourney(t, q.journey, q.user) || t.journeys[q.journey].station !in t.stations
        then Some(JourneyNotFound)
    else if t.journeys[q.journey].station != q.station then Some(StationMismatch)
    else if !AllStorable(Hits(s.points.value)) then Some(Database)
    else None
  }

  function ViewOf(t: Tables, q: Request, s: Sources): View
    requires Obstacle(t, q, s).None?
  {
    View(t, q.user, t.users[q.user].balance, q.station, s.preference.value, s.now, s.norm)
  }

  function FactsOf(t: Tables, q: Request, c: Candidate): Copy.CopyFacts
    requires q.station in t.stations
  {
    Copy.CopyFacts(t.stations[q.station].name, c.title, c.cost, c.description, First(c.reasons, 3), "")
  }

  function Word(s: Sources, f: Copy.CopyFacts): (Copy.CopyResult, bool) {
    Copy.GenerateCopy(s.digit, f, s.generator.Some?, if s.generator.Some? then s.generator.value(f) else None)
  }

  function SourceName(generated: bool): string {
    if generated then "llm" else "template"
  }

  function Decide(t: Tables, q: Request, s: Sources): Decision {
    if Obstacle(t, q, s).Some? then Refused(Obstacle(t, q, s).value)
    else
      var cs := Rank(EvaluateAll(ViewOf(t, q, s), Hits(s.points.value)));
      if Chosen(cs) == |cs| then Refused(NoEligibleOffer)
      else
        var c := cs[Chosen(cs)];
        match Word(s, FactsOf(t, q, c))
        case (NoCopy(e), _) => Refused(CopyFailed(e))
        case (Copied(o), generated) =>
          Recommended(Recommendation(q.journey, c.offer, c.score, c.reasons, o.title, o.body, o.tone,
              SourceName(generated), cs, s.started))
  }

  // ---------------------------------------------------------------- the row and its event

  function CreatedRow(u: Hash, trace: string, id: Uuid, event: Uuid, row: Recommendation, at: int): OutboxRow {
    OutboxRow(RecommendationCreated, u,
      Envelope(event, RecommendationCreated, 1, At(at), RecommendationService, trace, row.journey, id, u,
        Object(id, row.offer, "", "", "", row.copySource, NoAttribution)),
      false, 0)
  }

  /** Whether the row and its event can be inserted. */
  predicate Insertable(t: Tables, q: Request, row: Recommendation, id: Uuid, event: Uuid) {
    && id !in t.recommendations && event !in t.outbox && row.journey in t.journeys && row.offer in t.offers
    && StorableRow(id, row) && Storable(row.title) && Storable(row.body) && ScoreFits(row.score)
    && StorableMessage(CreatedRow(q.user, q.trace, id, event, row, 0).message)
  }

  function Stored(t: Tables, q: Request, row: Recommendation, id: Uuid, event: Uuid, at: int): Tables {
    t.(recommendations := t.recommendations[id := row],
      outbox := t.outbox[event := CreatedRow(q.user, q.trace, id, event, row, at)])
  }

  /** What the call leaves behind: the row and its event, or nothing. */
  function StoreTx(t: Tables, q: Request, s: Sources, id: Uuid, event: Uuid, at: int): Tables {
    match Decide(t, q, s)
    case Refused(_) => t
    case Recommended(row) => if Insertable(t, q, row, id, event) then Stored(t, q, row, id, event, at) else t
  }

  /** The whole call; the offer list is cut at the service's own candidate limit. */
  function RecommendTx(t: Tables, q: Request, s: Sources, limit: nat, id: Uuid, event: Uuid, at: int): (Tables, Reply) {
    (StoreTx(t, q, s, id, event, at),
      match Decide(t, q, s)
      case Refused(e) => Err(e)
      case Recommended(row) => if Insertable(t, q, row, id, event)
          then Ok(id, row, Listed(row, false, {}, limit)) else Err(Database))
  }

  // ---------------------------------------------------------------- what a recommendation is

  lemma RankedNamed(v: View, hits: seq<Hit>, c: Candidate)
    requires (forall h | h in hits :: h.offer != "") && c in Rank(EvaluateAll(v, hits))
    ensures c.offer != ""
  {
    Ranked(v, hits, c);
  }

  lemma RankedTitles(v: View, hits: seq<Hit>, a: Candidate, b: Candidate)
    requires a in Rank(EvaluateAll(v, hits)) && b in Rank(EvaluateAll(v, hits)) && a.offer == b.offer
    ensures a.title == b.title
  {
    Ranked(v, hits, a);
    Ranked(v, hits, b);
    var g :| g in hits && a == Evaluate(v, g);
    var h :| h in hits && b == Evaluate(v, h);
    assert g.offer == h.offer;
  }

  lemma RankedConsistently(v: View, hits: seq<Hit>)
    requires forall h | h in hits :: h.offer != ""
    ensures var cs := Rank(EvaluateAll(v, hits)); (forall c | c in cs :: c.offer != "") && Consistent(cs)
  {
    var cs := Rank(EvaluateAll(v, hits));
    forall c | c in cs ensures c.offer != "" {
      RankedNamed(v, hits, c);
    }
    forall a, b | a in cs && b in cs && a.offer == b.offer ensures a.title == b.title {
      RankedTitles(v, hits, a, b);
    }
  }

  lemma DecidedCandidates(t: Tables, q: Request, s: Sources)
    requires Decide(t, q, s).Recommended?
    ensures Decide(t, q, s).row.candidates == Rank(EvaluateAll(ViewOf(t, q, s), Hits(s.points.value)))
  {
  }

  /** The stored candidates are the ranked evaluations of the recalled hits: named, and consistently titled. */
  lemma DecidedRow(t: Tables, q: Request, s: Sources)
    requires Decide(t, q, s).Recommended?
    ensures var row := Decide(t, q, s).row;
      && row.candidates == Rank(EvaluateAll(ViewOf(t, q, s), Hits(s.points.value)))
      && (forall c | c in row.candidates :: c.offer != "")
      && Consistent(row.candidates)
  {
    DecidedCandidates(t, q, s);
    RankedConsistently(ViewOf(t, q, s), Hits(s.points.value));
  }

  lemma {:induction false} LeadsFrom(cs: seq<Candidate>, i: nat)
    requires i < |cs| && cs[i].eligible && forall j | 0 <= j < i :: !cs[j].eligible
    ensures Kept(false, {}, cs) != [] && Kept(false, {}, cs)[0] == cs[i]
  {
    var n := |cs| - 1;
    if i < n {
      LeadsFrom(cs[..n], i);
    } else {
      NoneKept(cs[..n]);
    }
  }

  lemma {:induction false} NoneKept(cs: seq<Candidate>)
    requires forall c | c in cs :: !c.eligible
    ensures Kept(false, {}, cs) == []
  {
    if cs != [] {
      NoneKept(cs[..|cs| - 1]);
    }
  }

  lemma DecidedChoice(t: Tables, q: Request, s: Sources)
    requires Decide(t, q, s).Recommended?
    ensures var row := Decide(t, q, s).row;
      Chosen(row.candidates) < |row.candidates| && row.offer == row.candidates[Chosen(row.candidates)].offer
  {
  }

  /** The recommended offer heads the returned list, with the generated copy. */
  lemma ChosenHeadsTheList(t: Tables, q: Request, s: Sources, limit: nat)
    requires Decide(t, q, s).Recommended? && limit >= 1
    ensures var row := Decide(t, q, s).row; var offers := Listed(row, false, {}, limit);
      offers != [] && offers[0].offer == row.offer && offers[0].title == row.title && offers[0].body == row.body
          && offers[0].reasons == row.reasons
  {
    var row := Decide(t, q, s).row;
    var cs := row.candidates;
    DecidedChoice(t, q, s);
    LeadsFrom(cs, Chosen(cs));
    assert First(Kept(false, {}, cs), limit)[0] == cs[Chosen(cs)];
    assert Listed(row, false, {}, limit)[0] == Show(row, cs[Chosen(cs)]);
  }

  /** What a stored call has established: whose journey it is, and that the row is named. */
  lemma StoredRow(t: Tables, q: Request, s: Sources)
    requires Decide(t, q, s).Recommended?
    ensures var row := Decide(t, q, s).row;
      && q.user != "" && q.trace != "" && q.user in t.users && row.journey == q.journey != ""
      && row.journey in t.journeys && t.journeys[row.journey].user == q.user && Named(row)
  {
    DecidedRow(t, q, s);
  }

  predicate Stores(t: Tables, q: Request, s: Sources, id: Uuid, event: Uuid) {
    Decide(t, q, s).Recommended? && Insertable(t, q, Decide(t, q, s).row, id, event)
  }

  lemma StoreOutcome(t: Tables, q: Request, s: Sources, id: Uuid, event: Uuid, at: int)
    ensures StoreTx(t, q, s, id, event, at) ==
      if Stores(t, q, s, id, event) then Stored(t, q, Decide(t, q, s).row, id, event, at) else t
  {
  }

  // ---------------------------------------------------------------- what callers see, on the rows

  predicate Complete(q: Request) {
    q.user != "" && q.journey != "" && q.station != "" && q.trace != "" && q.vectored
  }

  /** The user is known, and the journey is theirs and at the requested station. */
  predicate AtOwnStation(t: Tables, q: Request) {
    && q.user in t.users && q.journey in t.journeys && t.journeys[q.journey].user == q.user
    && t.journeys[q.journey].station == q.station && q.station in t.stations
  }

  /** What a call that gets that far ranks against. */
  function RankedFor(t: Tables, q: Request, s: Sources): View
    requires q.user in t.users && s.preference.Some?
  {
    View(t, q.user, t.users[q.user].balance, q.station, s.preference.value, s.now, s.norm)
  }

  /** The answers that come before the tables are read. */
  lemma EarlyAnswers(t: Tables, q: Request, s: Sources, limit: nat, id: Uuid, event: Uuid, at: int)
    ensures var reply := RecommendTx(t, q, s, limit, id, event, at).1;
      && (reply == Err(InvalidRequest) <==> !Complete(q))
      && (Complete(q) ==> (reply == Err(PreferencesFailed) <==> s.preference == None))
      && (Complete(q) && s.preference.Some? ==> (reply == Err(RecallFailed) <==> s.points == None))
      && (Complete(q) && s.preference.Some? && s.points.Some? && Hits(s.points.value) == [] ==>
        reply == Err(NoEligibleOffer))
  {
  }

  lemma ObstacleIsAnswered(t: Tables, q: Request, s: Sources, limit: nat, id: Uuid, event: Uuid, at: int, e: Error)
    requires e.UserNotFound? || e.JourneyNotFound? || e.StationMismatch?
    ensures RecommendTx(t, q, s, limit, id, event, at).1 == Err(e) <==> Obstacle(t, q, s) == Some(e)
  {
    var decision := Decide(t, q, s);
    assert decision == Refused(e) <==> Obstacle(t, q, s) == Some(e);
  }

  /** The answers about user, journey and station, in that order. */
  lemma JourneyAnswers(t: Tables, q: Request, s: Sources, limit: nat, id: Uuid, event: Uuid, at: int)
    requires Complete(q) && s.preference.Some? && s.points.Some? && Hits(s.points.value) != []
    requires '\0' !in q.user && '\0' !in q.journey
    ensures var reply := RecommendTx(t, q, s, limit, id, event, at).1;
      && (reply == Err(UserNotFound) <==> q.user !in t.users)
      && (q.user in t.users ==>
        var own := q.journey in t.journeys && t.journeys[q.journey].user == q.user
          && t.journeys[q.journey].station in t.stations;
        && (reply == Err(JourneyNotFound) <==> !own)
        && (own ==> (reply == Err(StationMismatch) <==> t.journeys[q.journey].station != q.station)))
  {
    ObstacleIsAnswered(t, q, s, limit, id, event, at, UserNotFound);
    ObstacleIsAnswered(t, q, s, limit, id, event, at, JourneyNotFound);
    ObstacleIsAnswered(t, q, s, limit, id, event, at, StationMismatch);
  }

  lemma Reaches(t: Tables, q: Request, s: Sources)
    requires Complete(q) && s.preference.Some? && s.points.Some? && Hits(s.points.value) != []
    requires '\0' !in q.user && '\0' !in q.journey && AtOwnStation(t, q)
    requires forall h | h in Hits(s.points.value) :: '\0' !in h.offer
    ensures Obstacle(t, q, s).None? && ViewOf(t, q, s) == RankedFor(t, q, s)
  {
  }

  lemma ChosenIfAnyCanBeTaken(v: View, hits: seq<Hit>)
    ensures var cs := Rank(EvaluateAll(v, hits));
      Chosen(cs) < |cs| <==> exists h :: h in hits && CanTake(v, h.offer)
  {
    var cs := Rank(EvaluateAll(v, hits));
    if Chosen(cs) < |cs| {
      ChosenIsTakeable(v, hits);
    }
    if h :| h in hits && CanTake(v, h.offer) {
      ChosenIsBest(v, hits, h);
    }
  }

  /** Among the recalled offers there is none the user could take exactly when that is the answer. */
  lemma NoneToTake(t: Tables, q: Request, s: Sources, limit: nat, id: Uuid, event: Uuid, at: int)
    requires Complete(q) && s.preference.Some? && s.points.Some? && Hits(s.points.value) != []
    requires '\0' !in q.user && '\0' !in q.journey && AtOwnStation(t, q)
    requires forall h | h in Hits(s.points.value) :: '\0' !in h.offer
    ensures RecommendTx(t, q, s, limit, id, event, at).1 == Err(NoEligibleOffer)
      <==> forall h | h in Hits(s.points.value) :: !CanTake(RankedFor(t, q, s), h.offer)
  {
    Reaches(t, q, s);
    ChosenIfAnyCanBeTaken(RankedFor(t, q, s), Hits(s.points.value));
  }

  /** One of the ranked offers that the user could take, and none of those has a higher score. */
  predicate Best(v: View, hits: seq<Hit>, c: Candidate) {
    && c in Rank(EvaluateAll(v, hits)) && c.eligible && CanTake(v, c.offer)
    && forall h | h in hits && CanTake(v, h.offer) :: c.score >= Evaluate(v, h).score
  }

  lemma ChosenIsABest(v: View, hits: seq<Hit>)
    requires Chosen(Rank(EvaluateAll(v, hits))) < |Rank(EvaluateAll(v, hits))|
    ensures var cs := Rank(EvaluateAll(v, hits)); Best(v, hits, cs[Chosen(cs)])
  {
    ChosenIsTakeable(v, hits);
    var cs := Rank(EvaluateAll(v, hits));
    assert cs[Chosen(cs)] in cs;
    forall h | h in hits && CanTake(v, h.offer) ensures cs[Chosen(cs)].score >= Evaluate(v, h).score {
      ChosenIsBest(v, hits, h);
    }
  }

  /** A recommended row: its candidates are the ranked recalled offers, its offer is one of them that the
      user could take, and none of those has a higher score. */
  lemma RecommendedIsBest(t: Tables, q: Request, s: Sources)
    requires Decide(t, q, s).Recommended?
    ensures Complete(q) && AtOwnStation(t, q) && s.preference.Some? && s.points.Some?
    ensures var row, v := Decide(t, q, s).row, RankedFor(t, q, s);
      && row.candidates == Rank(EvaluateAll(v, Hits(s.points.value)))
      && row.journey == q.journey && row.createdAt == s.started
      && exists c | Best(v, Hits(s.points.value), c) ::
        c.offer == row.offer && c.score == row.score && c.reasons == row.reasons
  {
    DecidedCandidates(t, q, s);
    DecidedChoice(t, q, s);
    var v, hits := ViewOf(t, q, s), Hits(s.points.value);
    ChosenIsABest(v, hits);
    var cs := Rank(EvaluateAll(v, hits));
    assert Best(v, hits, cs[Chosen(cs)]);
  }

  lemma CandidateFacts(v: View, hits: seq<Hit>, c: Candidate)
    requires c in Rank(EvaluateAll(v, hits)) && c.eligible
    ensures c.offer in v.tables.offers
    ensures var o := v.tables.offers[c.offer]; c.title == o.title && c.description == o.description && c.cost == o.cost
  {
    Ranked(v, hits, c);
    var h :| h in hits && c == Evaluate(v, h);
    CandidateOf(v, h);
  }

  lemma DecidedWording(t: Tables, q: Request, s: Sources)
    requires Decide(t, q, s).Recommended?
    ensures q.station in t.stations
    ensures var row := Decide(t, q, s).row; var cs := row.candidates;
      && Chosen(cs) < |cs| && row.offer == cs[Chosen(cs)].offer && row.reasons == cs[Chosen(cs)].reasons
      && (row.copySource == "llm" || row.copySource == "template")
      && (Copy.Copied(Copy.CopyOutput(row.title, row.body, row.tone)), row.copySource == "llm")
        == Word(s, FactsOf(t, q, cs[Chosen(cs)]))
  {
    assert "llm"[0] != "template"[0];
  }

  /** Its wording is about that offer at that station, with the first three reasons. */
  lemma RecommendedIsWorded(t: Tables, q: Request, s: Sources)
    requires Decide(t, q, s).Recommended?
    ensures q.station in t.stations
    ensures var row := Decide(t, q, s).row;
      && row.offer in t.offers
      && var o := t.offers[row.offer];
        var f := Copy.CopyFacts(t.stations[q.station].name, o.title, o.cost, o.description,
          if |row.reasons| > 3 then row.reasons[..3] else row.reasons, "");
        && (Copy.Copied(Copy.CopyOutput(row.title, row.body, row.tone)), row.copySource == "llm") ==
          Copy.GenerateCopy(s.digit, f, s.generator.Some?, if s.generator.Some? then s.generator.value(f) else None)
        && (row.copySource == "llm" || row.copySource == "template")
  {
    DecidedCandidates(t, q, s);
    DecidedWording(t, q, s);
    var cs := Decide(t, q, s).row.candidates;
    CandidateFacts(ViewOf(t, q, s), Hits(s.points.value), cs[Chosen(cs)]);
  }

  /** Once some offer could be taken, a best one is worded, and the call ends as its wording does. */
  lemma OnlyTheCopyFails(t: Tables, q: Request, s: Sources) returns (c: Candidate)
    requires Complete(q) && s.preference.Some? && s.points.Some?
    requires '\0' !in q.user && '\0' !in q.journey && AtOwnStation(t, q)
    requires forall h | h in Hits(s.points.value) :: '\0' !in h.offer
    requires exists h :: h in Hits(s.points.value) && CanTake(RankedFor(t, q, s), h.offer)
    ensures Best(RankedFor(t, q, s), Hits(s.points.value), c) && c.offer in t.offers
    ensures var o := t.offers[c.offer];
      var f := Copy.CopyFacts(t.stations[q.station].name, o.title, o.cost, o.description,
        if |c.reasons| > 3 then c.reasons[..3] else c.reasons, "");
      var copy := Copy.GenerateCopy(s.digit, f, s.generator.Some?,
        if s.generator.Some? then s.generator.value(f) else None).0;
      && (copy.NoCopy? ==> Decide(t, q, s) == Refused(CopyFailed(copy.error)))
      && (copy.Copied? ==> Decide(t, q, s).Recommended? && Decide(t, q, s).row.offer == c.offer)
  {
    Reaches(t, q, s);
    var v, hits := RankedFor(t, q, s), Hits(s.points.value);
    ChosenIfAnyCanBeTaken(v, hits);
    ChosenIsABest(v, hits);
    var cs := Rank(EvaluateAll(v, hits));
    c := cs[Chosen(cs)];
    CandidateFacts(v, hits, c);
  }

  /** When a recommended row can be stored. */
  lemma StoreFits(t: Tables, q: Request, row: Recommendation, id: Uuid, event: Uuid)
    ensures Insertable(t, q, row, id, event) <==>
      && id !in t.recommendations && event !in t.outbox && row.journey in t.journeys && row.offer in t.offers
      && '\0' !in row.offer && '\0' !in row.title && '\0' !in row.body && '\0' !in row.journey
      && '\0' !in row.copySource && '\0' !in q.user && '\0' !in q.trace
      && (forall c | c in row.candidates :: '\0' !in c.offer)
      && -9999.99995 < row.score < 9999.99995
  {
  }

  /** What a successful call leaves: the row and its event, and nothing else. */
  lemma RecommendChanges(t: Tables, q: Request, s: Sources, limit: nat, id: Uuid, event: Uuid, at: int)
    ensures var (t', reply) := RecommendTx(t, q, s, limit, id, event, at);
      && (!reply.Ok? ==> t' == t)
      && (reply.Ok? ==>
        && reply.id == id && Decide(t, q, s) == Recommended(reply.row)
        && t' == t.(recommendations := t.recommendations[id := reply.row],
          outbox := t.outbox[event := OutboxRow(RecommendationCreated, q.user,
            Envelope(event, RecommendationCreated, 1, At(at), RecommendationService, q.trace, reply.row.journey, id,
              q.user, Object(id, reply.row.offer, "", "", "", reply.row.copySource, NoAttribution)), false, 0)]))
  {
  }
}
