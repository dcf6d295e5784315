/** What reads of recommendations return after any run. */
module Reading {
  import opened Schema
  import opened ReadPaths
  import opened Recommending
  import Runs = System
  import Histories
  import Journeys

  /** Every row of every run is named, which is all the gateway's reader asks for. */
  lemma RunsKeepNames(t0: Tables, ops: seq<Runs.Op>)
    requires Runs.Opening(t0)
    ensures AllNamed(Runs.Run(t0, ops).recommendations)
  {
    Runs.OpeningIsSound(t0);
    Runs.RunsAreSound(t0.inventory, t0, ops);
  }

  lemma StoredIsThere(t: Tables, q: Request, s: Sources, limit: nat, id: Uuid, event: Uuid, at: int)
    requires RecommendTx(t, q, s, limit, id, event, at).1.Ok?
    ensures var (t', reply) := RecommendTx(t, q, s, limit, id, event, at);
      && id in t'.recommendations && t'.recommendations[id] == reply.row && reply.row == Decide(t, q, s).row
      && reply.row.journey == q.journey && reply.row.createdAt == s.started
      && reply.offers == Listed(reply.row, false, {}, limit) && Decide(t, q, s).Recommended?
  {
    StoreOutcome(t, q, s, id, event, at);
  }

  lemma StoredStays(t: Tables, id: Id, row: Recommendation, later: seq<Runs.Op>)
    requires id in t.recommendations && t.recommendations[id] == row
    ensures var rows := Runs.Run(t, later).recommendations; id in rows && rows[id] == row
  {
    Histories.RunPersists(t, later);
  }

  lemma NewestAlone(rows: map<Id, Recommendation>, id: Id)
    requires id in rows
    requires forall k | k in rows && k != id && rows[k].journey == rows[id].journey ::
        rows[k].createdAt < rows[id].createdAt
    ensures forall k :: Newest(rows, rows[id].journey, k) <==> k == id
  {
  }

  lemma StoredListAgrees(t: Tables, q: Request, s: Sources, limit: nat)
    requires Decide(t, q, s).Recommended?
    ensures var row := Decide(t, q, s).row;
      (Listed(row, true, {}, limit) == Listed(row, false, {}, limit))
        <==> forall c | c in First(Kept(false, {}, row.candidates), limit) :: c.title != ""
  {
    DecidedRow(t, q, s);
    ReaderAgrees(Decide(t, q, s).row, limit);
  }

  /** However many operations later, the stored row is the one that was recommended. It is the one the
      readers find unless the journey got another at least as new, and the plain reader then returns
      the same offers exactly when none of the listed candidates is untitled. */
  lemma ReadBack(t: Tables, q: Request, s: Sources, limit: nat, id: Uuid, event: Uuid, at: int, later: seq<Runs.Op>)
    requires RecommendTx(t, q, s, limit, id, event, at).1.Ok?
    ensures var (t', reply) := RecommendTx(t, q, s, limit, id, event, at);
      var rows := Runs.Run(t', later).recommendations;
      && id in rows && rows[id] == reply.row
      && ((forall k | k in rows && k != id && rows[k].journey == q.journey :: rows[k].createdAt < s.started) ==>
        forall k :: Newest(rows, q.journey, k) <==> k == id)
      && (Listed(rows[id], true, {}, limit) == reply.offers
          <==> forall c | c in First(Kept(false, {}, reply.row.candidates), limit) :: c.title != "")
  {
    var (t', reply) := RecommendTx(t, q, s, limit, id, event, at);
    StoredIsThere(t, q, s, limit, id, event, at);
    StoredStays(t', id, reply.row, later);
    StoredListAgrees(t, q, s, limit);
    var rows := Runs.Run(t', later).recommendations;
    if forall k | k in rows && k != id && rows[k].journey == q.journey :: rows[k].createdAt < s.started {
      NewestAlone(rows, id);
    }
  }

  /** Once a dismissal has been claimed, no later read of that recommendation offers the offer again. */
  lemma DismissedStaysAway(opening: map<Id, Stock>, t: Tables, u: Hash, journey: Id, r: Id, offer: Id,
      later: seq<Runs.Op>, row: Recommendation, limit: nat)
    requires Runs.Sound(opening, t) && Storable(u) && Storable(journey) && Storable(r) && Storable(offer)
    requires Claim(GatewayFeedback, Journeys.FeedbackEventId(u, journey, r, offer, RecommendationDismissed)) in t.claims
    ensures var hidden := DismissedOffers(Runs.Run(t, later).dismissals, journey, r);
      offer in hidden && forall x | x in Listed(row, true, hidden, limit) :: x.offer != offer
  {
    var e := Journeys.FeedbackEventId(u, journey, r, offer, RecommendationDismissed);
    var m := t.outbox[e].message;
    Journeys.IdentityInjective(u, journey, r, offer, RecommendationDismissed, m.user, m.journey, m.recommendation,
        m.payload.offer, m.topic);
    Histories.RunPersists(t, later);
    var d := Dismissal(u, journey, r, offer);
    assert d in Runs.Run(t, later).dismissals;
    HiddenNotListed(row, true, DismissedOffers(Runs.Run(t, later).dismissals, journey, r), limit);
  }
}
