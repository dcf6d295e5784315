/** The offer list a recommendation returns, and the two readers that rebuild it from the stored
    candidates, one of them without what the user has dismissed. */
module ReadPaths {
  import opened Schema

  datatype Shown = Shown(offer: Id, title: string, body: string, reasons: seq<string>, score: real, cost: int,
      station: Id)

  /** A candidate as an offer; the primary one carries the generated copy. */
  function Show(row: Recommendation, c: Candidate): Shown {
    if c.offer == row.offer then Shown(c.offer, row.title, row.body, row.reasons, c.score, c.cost, c.station)
    else Shown(c.offer, c.title, c.description, c.reasons, c.score, c.cost, c.station)
  }

  predicate Keeps(titled: bool, hidden: set<Id>, c: Candidate) {
    c.eligible && (titled ==> c.title != "") && c.offer !in hidden
  }

  /** The eligible candidates in order, without hidden and, if asked for, untitled ones. */
  function Kept(titled: bool, hidden: set<Id>, cs: seq<Candidate>): (r: seq<Candidate>)
    ensures |r| <= |cs|
  {
    if cs == [] then []
    else
      var n := |cs| - 1;
      Kept(titled, hidden, cs[..n]) + (if Keeps(titled, hidden, cs[n]) then [cs[n]] else [])
  }

  function First<T>(s: seq<T>, limit: nat): seq<T> {
    if |s| <= limit then s else s[..limit]
  }

  function ShowAll(row: Recommendation, cs: seq<Candidate>): (r: seq<Shown>)
    ensures |r| == |cs| && forall i | 0 <= i < |cs| :: r[i] == Show(row, cs[i])
  {
    seq(|cs|, i requires 0 <= i < |cs| => Show(row, cs[i]))
  }

  function Listed(row: Recommendation, titled: bool, hidden: set<Id>, limit: nat): seq<Shown> {
    ShowAll(row, First(Kept(titled, hidden, row.candidates), limit))
  }

  /** The offers of a recommendation the user has dismissed. */
  function DismissedOffers(dismissals: set<Dismissal>, journey: Id, recommendation: Id): set<Id> {
    set d | d in dismissals && d.journey == journey && d.recommendation == recommendation :: d.offer
  }

  function AppendUnique(reasons: seq<string>, reason: string): seq<string> {
    if reason in reasons then reasons else reasons + [reason]
  }

  function Dim(hidden: set<Id>, c: Candidate): Candidate {
    if c.offer in hidden then c.(eligible := false, reasons := AppendUnique(c.reasons, "dismissed_by_user")) else c
  }

  // ---------------------------------------------------------------- which row is read

  /** ORDER BY created_at DESC LIMIT 1 among the rows of the journey; any of them if several are newest. */
  predicate Newest(rows: map<Id, Recommendation>, journey: Id, id: Id) {
    && id in rows && rows[id].journey == journey
    && forall k | k in rows && rows[k].journey == journey :: rows[k].createdAt <= rows[id].createdAt
  }

  lemma {:induction false} LatestOf(rows: map<Id, Recommendation>, ids: set<Id>) returns (id: Id)
    requires ids != {} && forall k | k in ids :: k in rows
    ensures id in ids && forall k | k in ids :: rows[k].createdAt <= rows[id].createdAt
    decreases ids
  {
    id :| id in ids;
    if ids != {id} {
      assert exists k | k in ids :: k != id;
      var rest := LatestOf(rows, ids - {id});
      if rows[id].createdAt < rows[rest].createdAt {
        id := rest;
      }
    }
  }

  /** The query both readers begin with. */
  method SelectNewest(rows: map<Id, Recommendation>, journey: Id) returns (newest: Option<Id>)
    ensures newest.None? ==> forall k | k in rows :: rows[k].journey != journey
    ensures newest.Some? ==> Newest(rows, journey, newest.value)
  {
    var ids := set k | k in rows && rows[k].journey == journey;
    if ids == {} {
      assert forall k | k in rows && rows[k].journey == journey :: k in ids;
      return None;
    }
    ghost var latest := LatestOf(rows, ids);
    assert Newest(rows, journey, latest);
    var id :| id in rows && Newest(rows, journey, id);
    newest := Some(id);
  }

  // ---------------------------------------------------------------- when the readers agree with the writer

  lemma KeptNext(titled: bool, hidden: set<Id>, cs: seq<Candidate>, c: Candidate)
    ensures Kept(titled, hidden, cs + [c]) == Kept(titled, hidden, cs) + if Keeps(titled, hidden, c) then [c] else []
  {
    assert (cs + [c])[..|cs|] == cs;
  }

  lemma {:induction false} KeptMembers(titled: bool, hidden: set<Id>, cs: seq<Candidate>)
    ensures forall c | c in Kept(titled, hidden, cs) :: c in cs && Keeps(titled, hidden, c)
  {
    if cs != [] {
      KeptMembers(titled, hidden, cs[..|cs| - 1]);
    }
  }

  lemma Regroup(a: seq<Candidate>, b: seq<Candidate>, c: seq<Candidate>)
    ensures a + b + c == a + (b + c)
  {
  }

  lemma KeptSplitNext(titled: bool, hidden: set<Id>, a: seq<Candidate>, b: seq<Candidate>, c: Candidate,
      longer: seq<Candidate>)
    requires Kept(titled, hidden, a + b) == Kept(titled, hidden, a) + Kept(titled, hidden, b) && longer == b + [c]
    ensures Kept(titled, hidden, a + longer) == Kept(titled, hidden, a) + Kept(titled, hidden, longer)
  {
    KeptNext(titled, hidden, b, c);
    KeptNext(titled, hidden, a + b, c);
    assert a + (b + [c]) == a + b + [c];
    Regroup(Kept(titled, hidden, a), Kept(titled, hidden, b), if Keeps(titled, hidden, c) then [c] else []);
  }

  lemma {:induction false} KeptSplit(titled: bool, hidden: set<Id>, a: seq<Candidate>, b: seq<Candidate>)
    ensures Kept(titled, hidden, a + b) == Kept(titled, hidden, a) + Kept(titled, hidden, b)
    decreases |b|
  {
    if b == [] {
      assert a + b == a;
    } else {
      var front, c := b[..|b| - 1], b[|b| - 1];
      KeptSplit(titled, hidden, a, front);
      KeptSplitNext(titled, hidden, a, front, c, b);
    }
  }

  /** The same offer is stored with the same title. */
  predicate Consistent(cs: seq<Candidate>) {
    forall a, b | a in cs && b in cs && a.offer == b.offer :: a.title == b.title
  }

  /** Every candidate has an offer id, and an offer has one title. */
  predicate Named(row: Recommendation) {
    (forall c | c in row.candidates :: c.offer != "") && Consistent(row.candidates)
  }

  ghost predicate AllNamed(rows: map<Id, Recommendation>) {
    forall r | r in rows :: Named(rows[r])
  }

  lemma ListedNamed(row: Recommendation, titled: bool, hidden: set<Id>, limit: nat)
    requires Named(row)
    ensures forall s | s in Listed(row, titled, hidden, limit) :: s.offer != ""
  {
    var all := Kept(titled, hidden, row.candidates);
    KeptMembers(titled, hidden, row.candidates);
    forall s | s in Listed(row, titled, hidden, limit) ensures s.offer != "" {
      var i :| 0 <= i < |First(all, limit)| && Show(row, all[i]) == s;
      assert all[i] in all;
    }
  }

  /** The titled candidates, from the eligible ones. */
  lemma {:induction false} TitledOfKept(cs: seq<Candidate>)
    ensures Kept(true, {}, cs) == Kept(true, {}, Kept(false, {}, cs))
  {
    if cs != [] {
      var n := |cs| - 1;
      TitledOfKept(cs[..n]);
      if Keeps(false, {}, cs[n]) {
        var all := Kept(false, {}, cs);
        assert all[..|all| - 1] == Kept(false, {}, cs[..n]);
      } else {
        assert Kept(false, {}, cs) == Kept(false, {}, cs[..n]);
      }
    }
  }

  lemma {:induction false} AllTitledKept(cs: seq<Candidate>)
    requires forall c | c in cs :: Keeps(true, {}, c)
    ensures Kept(true, {}, cs) == cs
  {
    if cs != [] {
      var front, c := cs[..|cs| - 1], cs[|cs| - 1];
      assert cs == front + [c];
      AllTitledKept(front);
      KeptNext(true, {}, front, c);
    }
  }

  /** The titled list begins with the titled ones of the first `limit`. */
  lemma TitledList(cs: seq<Candidate>, limit: nat)
    ensures Kept(true, {}, First(Kept(false, {}, cs), limit)) <= Kept(true, {}, cs)
  {
    var all := Kept(false, {}, cs);
    var first := First(all, limit);
    assert all == first + all[|first|..];
    TitledOfKept(cs);
    KeptSplit(true, {}, first, all[|first|..]);
  }

  lemma AgreesWhenTitled(row: Recommendation, limit: nat)
    requires forall c | c in First(Kept(false, {}, row.candidates), limit) :: c.title != ""
    ensures First(Kept(true, {}, row.candidates), limit) == First(Kept(false, {}, row.candidates), limit)
  {
    var all := Kept(false, {}, row.candidates);
    var first := First(all, limit);
    KeptMembers(false, {}, row.candidates);
    forall c | c in first ensures Keeps(true, {}, c) {
      assert c in all;
    }
    AllTitledKept(first);
    if |all| <= limit {
      TitledOfKept(row.candidates);
    } else {
      TitledList(row.candidates, limit);
    }
  }

  /** With one limit, the plain reader rebuilds the returned list if and only if none of the listed
      candidates is untitled. */
  lemma ReaderAgrees(row: Recommendation, limit: nat)
    requires Consistent(row.candidates)
    ensures Listed(row, true, {}, limit) == Listed(row, false, {}, limit)
      <==> forall c | c in First(Kept(false, {}, row.candidates), limit) :: c.title != ""
  {
    if forall c | c in First(Kept(false, {}, row.candidates), limit) :: c.title != "" {
      AgreesWhenTitled(row, limit);
    } else {
      KeptMembers(false, {}, row.candidates);
      KeptMembers(true, {}, row.candidates);
      UntitledDiffers(row, First(Kept(false, {}, row.candidates), limit), First(Kept(true, {}, row.candidates), limit));
    }
  }

  lemma UntitledDiffers(row: Recommendation, first: seq<Candidate>, titled: seq<Candidate>)
    requires Consistent(row.candidates)
    requires (forall c | c in first :: c in row.candidates)
        && (forall c | c in titled :: c in row.candidates && c.title != "")
    requires exists c | c in first :: c.title == ""
    ensures ShowAll(row, first) != ShowAll(row, titled)
  {
    var c :| c in first && c.title == "";
    var k :| 0 <= k < |first| && first[k] == c;
    if k < |titled| {
      assert titled[k] in titled;
      assert ShowAll(row, first)[k].offer == c.offer && ShowAll(row, titled)[k].offer == titled[k].offer;
    }
  }

  lemma HiddenNotListed(row: Recommendation, titled: bool, hidden: set<Id>, limit: nat)
    ensures forall s | s in Listed(row, titled, hidden, limit) :: s.offer !in hidden
  {
    var cs := First(Kept(titled, hidden, row.candidates), limit);
    var all := Kept(titled, hidden, row.candidates);
    KeptMembers(titled, hidden, row.candidates);
    forall s | s in Listed(row, titled, hidden, limit) ensures s.offer !in hidden {
      var i :| 0 <= i < |cs| && Show(row, cs[i]) == s;
      assert cs[i] == all[i] && all[i] in all;
    }
  }

  // ---------------------------------------------------------------- the plain reader

  /** One more candidate read. */
  lemma ListGrows(row: Recommendation, titled: bool, hidden: set<Id>, i: nat)
    requires i < |row.candidates|
    ensures var cs := row.candidates;
      ShowAll(row, Kept(titled, hidden, cs[..i + 1])) ==
      ShowAll(row, Kept(titled, hidden, cs[..i])) + if Keeps(titled, hidden, cs[i]) then [Show(row, cs[i])] else []
  {
    assert row.candidates[..i + 1][..i] == row.candidates[..i];
  }

  method OfferOf(row: Recommendation, c: Candidate) returns (offer: Shown)
    ensures offer == Show(row, c)
  {
    offer := Shown(c.offer, c.title, c.description, c.reasons, c.score, c.cost, c.station);
    if c.offer == row.offer {
      offer := offer.(title := row.title, body := row.body, reasons := row.reasons);
    }
  }

  /** The loop of `GetLatest`, which stops at the limit. */
  method RebuildOffers(row: Recommendation, limit: nat) returns (offers: seq<Shown>)
    requires limit >= 1
    ensures offers == Listed(row, true, {}, limit)
  {
    var cs := row.candidates;
    offers := [];
    for i := 0 to |cs|
      invariant |offers| < limit && offers == ShowAll(row, Kept(true, {}, cs[..i]))
    {
      ListGrows(row, true, {}, i);
      if !cs[i].eligible || cs[i].title == "" {
        continue;
      }
      var offer := OfferOf(row, cs[i]);
      offers := offers + [offer];
      if |offers| >= limit {
        StopsAtLimit(row, true, {}, i + 1, limit);
        return;
      }
    }
    assert cs[..|cs|] == cs;
  }

  /** Once a prefix has given `limit` offers, the rest cannot matter. */
  lemma StopsAtLimit(row: Recommendation, titled: bool, hidden: set<Id>, n: nat, limit: nat)
    requires n <= |row.candidates| && |Kept(titled, hidden, row.candidates[..n])| == limit
    ensures ShowAll(row, Kept(titled, hidden, row.candidates[..n])) == Listed(row, titled, hidden, limit)
  {
    var a, b := row.candidates[..n], row.candidates[n..];
    assert row.candidates == a + b;
    KeptSplit(titled, hidden, a, b);
    assert First(Kept(titled, hidden, a) + Kept(titled, hidden, b), limit) == Kept(titled, hidden, a);
  }

  // ---------------------------------------------------------------- the gateway's reader

  datatype Answer = Answer(offer: Id, title: string, body: string, reasons: seq<string>, candidates: seq<Candidate>,
      offers: seq<Shown>)

  /** The answer's own offer, title, body and reasons are those of an offer on its list. */
  predicate Heads(a: Answer, s: Shown) {
    a.offer == s.offer && a.title == s.title && a.body == s.body && a.reasons == s.reasons
  }

  predicate NothingLeft(a: Answer) {
    a.offer == "" && a.title == "" && a.body == "" && a.reasons == ["no_eligible_offers_remaining"]
  }

  method AppendUniqueReason(reasons: seq<string>, reason: string) returns (r: seq<string>)
    ensures r == AppendUnique(reasons, reason)
  {
    for i := 0 to |reasons|
      invariant reason !in reasons[..i]
    {
      if reasons[i] == reason {
        return reasons;
      }
    }
    r := reasons + [reason];
  }

  function DimAll(hidden: set<Id>, cs: seq<Candidate>): (r: seq<Candidate>)
    ensures |r| == |cs| && forall i | 0 <= i < |cs| :: r[i] == Dim(hidden, cs[i])
  {
    seq(|cs|, i requires 0 <= i < |cs| => Dim(hidden, cs[i]))
  }

  method Dimmed(hidden: set<Id>, c: Candidate) returns (r: Candidate)
    ensures r == Dim(hidden, c)
  {
    r := c;
    if c.offer in hidden {
      var noted := AppendUniqueReason(c.reasons, "dismissed_by_user");
      r := c.(eligible := false, reasons := noted);
    }
  }

  /** The first listed offer that has an id. */
  function FirstNamed(offers: seq<Shown>): (first: Option<Shown>)
    ensures first.Some? ==> first.value.offer != ""
  {
    if offers == [] then None
    else if offers[0].offer != "" then Some(offers[0])
    else FirstNamed(offers[1..])
  }

  lemma {:induction false} FirstNamedNext(offers: seq<Shown>, s: Shown)
    ensures FirstNamed(offers + [s]) ==
        if FirstNamed(offers).Some? then FirstNamed(offers) else if s.offer != "" then Some(s) else None
  {
    if offers != [] {
      assert (offers + [s])[1..] == offers[1..] + [s];
      FirstNamedNext(offers[1..], s);
    }
  }

  /** What the loop has selected: the first listed candidate that has an id. */
  predicate Selected(row: Recommendation, offers: seq<Shown>, selected: Option<Candidate>) {
    match FirstNamed(offers)
    case None => selected.Some? ==> selected.value.offer == ""
    case Some(first) => selected.Some? && Show(row, selected.value) == first
  }

  /** How many candidates a read reports: all of them, or those up to the one that fills the list. */
  predicate Reported(row: Recommendation, hidden: set<Id>, limit: nat, n: nat)
    requires n <= |row.candidates|
  {
    var cs := row.candidates;
    || (n == |cs| && |Kept(true, hidden, cs)| < limit)
    || (n > 0 && Keeps(true, hidden, cs[n - 1]) && |Kept(true, hidden, cs[..n])| == limit)
  }

  /** One candidate of the loop: listed if it may be, and selected if it is the first. */
  method Take(row: Recommendation, c: Candidate, offers0: seq<Shown>, selected0: Option<Candidate>)
    returns (offers: seq<Shown>, selected: Option<Candidate>)
    requires Selected(row, offers0, selected0)
    ensures offers == offers0 + if c.eligible && c.title != "" then [Show(row, c)] else []
    ensures Selected(row, offers, selected)
  {
    offers, selected := offers0, selected0;
    if !c.eligible || c.title == "" {
      return;
    }
    if selected == None || selected.value.offer == "" {
      selected := Some(c);
    }
    var offer := OfferOf(row, c);
    FirstNamedNext(offers, offer);
    offers := offers + [offer];
  }

  lemma DimKeeps(hidden: set<Id>, c: Candidate)
    ensures var d := Dim(hidden, c);
        (d.eligible && d.title != "" <==> Keeps(true, hidden, c)) && (d.eligible ==> d == c)
  {
  }

  lemma DimNext(hidden: set<Id>, cs: seq<Candidate>, i: nat)
    requires i < |cs|
    ensures DimAll(hidden, cs)[..i] + [Dim(hidden, cs[i])] == DimAll(hidden, cs)[..i + 1]
  {
  }

  /** The loop of `GetLatestRecommendation`: every candidate up to the limit is reported, dismissed
      ones as ineligible, and the first listed one with an id is selected. */
  method Scan(row: Recommendation, hidden: set<Id>, limit: nat)
    returns (candidates: seq<Candidate>, offers: seq<Shown>, selected: Option<Candidate>)
    requires limit >= 1
    ensures offers == Listed(row, true, hidden, limit) && Selected(row, offers, selected)
    ensures exists n | 0 <= n <= |row.candidates| ::
        Reported(row, hidden, limit, n) && candidates == DimAll(hidden, row.candidates)[..n]
  {
    var cs := row.candidates;
    candidates, offers, selected := [], [], None;
    for i := 0 to |cs|
      invariant candidates == DimAll(hidden, cs)[..i]
      invariant |offers| < limit && offers == ShowAll(row, Kept(true, hidden, cs[..i]))
      invariant Selected(row, offers, selected)
    {
      ListGrows(row, true, hidden, i);
      DimKeeps(hidden, cs[i]);
      var c := Dimmed(hidden, cs[i]);
      DimNext(hidden, cs, i);
      candidates := candidates + [c];
      offers, selected := Take(row, c, offers, selected);
      if |offers| >= limit {
        StopsAtLimit(row, true, hidden, i + 1, limit);
        assert Reported(row, hidden, limit, i + 1);
        return;
      }
    }
    assert cs[..|cs|] == cs;
    assert Reported(row, hidden, limit, |cs|);
    assert candidates == DimAll(hidden, cs)[..|cs|];
  }

  /** The whole read, after the row and its dismissals are loaded. */
  method ReadAnswer(row: Recommendation, hidden: set<Id>, limit: nat) returns (a: Answer)
    requires limit >= 1
    ensures a.offers == Listed(row, true, hidden, limit)
    ensures exists n | 0 <= n <= |row.candidates| ::
        Reported(row, hidden, limit, n) && a.candidates == DimAll(hidden, row.candidates)[..n]
    ensures match FirstNamed(a.offers)
      case None => NothingLeft(a)
      case Some(first) => Heads(a, first)
  {
    var candidates, offers, selected := Scan(row, hidden, limit);
    if selected.Some? && selected.value.offer != "" {
      var c := selected.value;
      a := Answer(c.offer, c.title, c.description, c.reasons, candidates, offers);
      if c.offer == row.offer {
        a := a.(title := row.title, body := row.body, reasons := row.reasons);
      }
    } else {
      a := Answer("", "", "", ["no_eligible_offers_remaining"], candidates, offers);
    }
  }

  // ---------------------------------------------------------------- what is shown, field by field

  /** The primary offer is shown with the stored copy, every other one with its own title and description. */
  lemma ShownFields(row: Recommendation, c: Candidate)
    ensures var s := Show(row, c);
      && s.offer == c.offer && s.score == c.score && s.cost == c.cost && s.station == c.station
      && (c.offer == row.offer ==> s.title == row.title && s.body == row.body && s.reasons == row.reasons)
      && (c.offer != row.offer ==> s.title == c.title && s.body == c.description && s.reasons == c.reasons)
  {
  }

  /** Which candidates a list may show. */
  lemma {:induction false} KeptExactly(titled: bool, hidden: set<Id>, cs: seq<Candidate>, c: Candidate)
    ensures c in Kept(titled, hidden, cs)
      <==> c in cs && c.eligible && (titled ==> c.title != "") && c.offer !in hidden
  {
    if cs != [] {
      KeptExactly(titled, hidden, cs[..|cs| - 1], c);
      assert cs == cs[..|cs| - 1] + [cs[|cs| - 1]];
    }
  }

  /** The offers dismissed of one recommendation on one journey. */
  lemma DismissedExactly(dismissals: set<Dismissal>, journey: Id, recommendation: Id, offer: Id)
    ensures offer in DismissedOffers(dismissals, journey, recommendation)
      <==> exists u :: Dismissal(u, journey, recommendation, offer) in dismissals
  {
    if d :| d in dismissals && d.journey == journey && d.recommendation == recommendation && d.offer == offer {
      assert d == Dismissal(d.user, journey, recommendation, offer);
    }
    if u :| Dismissal(u, journey, recommendation, offer) in dismissals {
      var d := Dismissal(u, journey, recommendation, offer);
      assert d.journey == journey && d.recommendation == recommendation && d.offer == offer;
    }
  }

  /** How a candidate is reported to a user who may have dismissed it. */
  lemma DimmedFields(hidden: set<Id>, c: Candidate)
    ensures c.offer !in hidden ==> Dim(hidden, c) == c
    ensures c.offer in hidden ==>
      && Dim(hidden, c) == c.(eligible := false, reasons := Dim(hidden, c).reasons)
      && Dim(hidden, c).reasons ==
        if "dismissed_by_user" in c.reasons then c.reasons else c.reasons + ["dismissed_by_user"]
  {
  }
}
