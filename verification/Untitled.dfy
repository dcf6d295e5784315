/** An untitled offer that `Recommend` returns and the plain reader then drops, on concrete tables. */
module Untitled {
  import opened Schema
  import opened Ranking
  import opened ReadPaths
  import opened Recommending
  import Copy
  import Text
  import Users

  /** A new user at a station with two offers in stock, the second without a title. */
  function Counter(u: Hash): Tables {
    Tables(map[u := Users.NEW_USER], map[u := [Users.OPENING]],
      map["s" := Station("點", "l")], map["j" := Journey(u, "s")],
      map["a" := Offer("m", "c", "s", "點", "點", 80, true, 0, 10),
          "b" := Offer("m", "c", "s", "", "點", 80, true, 0, 10)],
      map["a" := Stock(9, 1), "b" := Stock(9, 1)],
      map[], map[], map[], {}, {}, map[], map[], map[])
  }

  function Asked(u: Hash): Request {
    Request(u, "j", "s", "t", true)
  }

  function Recalled(norm: Norm, digit: Copy.Digits): Sources {
    Sources(Some(Preference("", [], map[], 0, 0)), Some([Point("a", "", 1.0), Point("b", "", 0.0)]), 5, 5, norm, digit,
        None)
  }

  const TITLED := Candidate("a", "點", "點", "s", 80, 1.0, 1.0, true, ["within_points"])
  const NAMELESS := Candidate("b", "", "點", "s", 80, 0.0, 0.0, true, ["within_points"])
  const FACTS := Copy.CopyFacts("點", "點", 80, "點", ["within_points"], "")

  function Written(): Recommendation {
    var o := Copy.TemplateOutput(FACTS);
    Recommendation("j", "a", 1.0, ["within_points"], o.title, o.body, o.tone, "template", [TITLED, NAMELESS], 5)
  }

  lemma CounterIsLegal(u: Hash)
    requires ValidUserHash(u)
    ensures Constraints(Counter(u))
  {
    assert "c"[0] != ' ';
  }

  lemma BothRecalled(norm: Norm, digit: Copy.Digits)
    ensures Hits(Recalled(norm, digit).points.value) == [Hit("a", 1.0), Hit("b", 0.0)]
  {
    var points := Recalled(norm, digit).points.value;
    assert points[1..] == [Point("b", "", 0.0)] && points[1..][1..] == [];
    assert Hits(points[1..]) == [Hit("b", 0.0)];
  }

  lemma InOrder()
    ensures Rank([TITLED, NAMELESS]) == [TITLED, NAMELESS]
  {
    assert [TITLED, NAMELESS][1..] == [NAMELESS] && [NAMELESS][1..] == [];
    assert Rank([NAMELESS]) == [NAMELESS];
  }

  function Seen(u: Hash, norm: Norm): View {
    View(Counter(u), u, 1200, "s", Preference("", [], map[], 0, 0), 5, norm)
  }

  lemma Unhindered(u: Hash, norm: Norm, digit: Copy.Digits)
    requires ValidUserHash(u)
    ensures Obstacle(Counter(u), Asked(u), Recalled(norm, digit)).None?
    ensures ViewOf(Counter(u), Asked(u), Recalled(norm, digit)) == Seen(u, norm)
  {
    HashStorable(u);
    BothRecalled(norm, digit);
  }

  lemma BothEvaluated(u: Hash, norm: Norm)
    ensures Evaluate(Seen(u, norm), Hit("a", 1.0)) == TITLED && Evaluate(Seen(u, norm), Hit("b", 0.0)) == NAMELESS
  {
    assert Visible(Seen(u, norm), "a") && Visible(Seen(u, norm), "b");
  }

  lemma BothRanked(u: Hash, norm: Norm, digit: Copy.Digits)
    ensures Rank(EvaluateAll(Seen(u, norm), Hits(Recalled(norm, digit).points.value))) == [TITLED, NAMELESS]
  {
    BothRecalled(norm, digit);
    BothEvaluated(u, norm);
    InOrder();
    assert EvaluateAll(Seen(u, norm), [Hit("a", 1.0), Hit("b", 0.0)]) == [TITLED, NAMELESS];
  }

  lemma Worded(u: Hash, norm: Norm, digit: Copy.Digits)
    requires ValidUserHash(u) && Copy.Classifies(digit) && Copy.NoDigit(digit, "within_points")
    ensures FactsOf(Counter(u), Asked(u), TITLED) == FACTS
    ensures Word(Recalled(norm, digit), FACTS) == (Copy.Copied(Copy.TemplateOutput(FACTS)), false)
  {
    Copy.PunctuationHasNoDigit(digit);
    assert Copy.AFTER_COST[1] == '點';
    assert Copy.JoinLabels(["within_points"]) == "within_points";
    Copy.TemplateComplete(digit, FACTS);
  }

  lemma BothDecided(u: Hash, norm: Norm, digit: Copy.Digits)
    requires ValidUserHash(u) && Copy.Classifies(digit) && Copy.NoDigit(digit, "within_points")
    ensures Decide(Counter(u), Asked(u), Recalled(norm, digit)) == Recommended(Written())
  {
    Unhindered(u, norm, digit);
    BothRanked(u, norm, digit);
    Worded(u, norm, digit);
    assert Chosen([TITLED, NAMELESS]) == 0;
  }

  lemma JoinStorable(a: string, b: string)
    requires Storable(a) && Storable(b)
    ensures Storable(a + b)
  {
  }

  lemma PiecesStorable()
    ensures Storable("點" + Copy.AFTER_STATION + "點" + Copy.BEFORE_COST) && Storable(Text.Decimal(80))
        && Storable(Copy.AFTER_COST) && Storable(Copy.Closing(FACTS))
  {
    assert Text.Decimal(80) == "80";
  }

  lemma BodyStorable()
    ensures Storable(Copy.TemplateOutput(FACTS).title) && Storable(Copy.TemplateOutput(FACTS).body)
  {
    Copy.BodyIsLeadAndTail(FACTS);
    PiecesStorable();
    var start := "點" + Copy.AFTER_STATION + "點" + Copy.BEFORE_COST;
    JoinStorable(start, Text.Decimal(80));
    JoinStorable(start + Text.Decimal(80), Copy.AFTER_COST);
    JoinStorable(Copy.Lead(FACTS), Copy.Tail(FACTS));
  }

  lemma BothInsertable(u: Hash, id: Uuid, event: Uuid)
    requires ValidUserHash(u)
    ensures Insertable(Counter(u), Asked(u), Written(), id, event)
  {
    BodyStorable();
    HashStorable(u);
  }

  lemma ListedBoth(limit: nat)
    requires limit >= 2
    ensures Listed(Written(), false, {}, limit) == [Show(Written(), TITLED), Show(Written(), NAMELESS)]
    ensures Listed(Written(), true, {}, limit) == [Show(Written(), TITLED)]
  {
    var cs := [TITLED, NAMELESS];
    assert cs[..1] == [TITLED] && [TITLED][..0] == [];
    assert Kept(false, {}, [TITLED]) == [TITLED] && Kept(true, {}, [TITLED]) == [TITLED];
    assert Kept(false, {}, cs) == cs && Kept(true, {}, cs) == [TITLED];
  }

  lemma BothReturned(u: Hash, norm: Norm, digit: Copy.Digits, limit: nat, id: Uuid, event: Uuid, at: int)
    requires ValidUserHash(u) && Copy.Classifies(digit) && Copy.NoDigit(digit, "within_points")
    ensures RecommendTx(Counter(u), Asked(u), Recalled(norm, digit), limit, id, event, at) ==
      (Stored(Counter(u), Asked(u), Written(), id, event, at), Ok(id, Written(), Listed(Written(), false, {}, limit)))
  {
    BothDecided(u, norm, digit);
    BothInsertable(u, id, event);
  }

  lemma BothShown(limit: nat, offers: seq<Shown>)
    requires limit >= 2 && offers == Listed(Written(), false, {}, limit)
    ensures |offers| == 2 && offers[1].offer == "b" && Listed(Written(), true, {}, limit) == offers[..1]
  {
    ListedBoth(limit);
  }

  /** On these legal tables the call succeeds and offers both; the row it has stored lists only the
      first to the reader. */
  lemma UntitledIsDropped(u: Hash, norm: Norm, digit: Copy.Digits, limit: nat, id: Uuid, event: Uuid, at: int)
    returns (t': Tables, row: Recommendation, offers: seq<Shown>)
    requires ValidUserHash(u) && Copy.Classifies(digit) && Copy.NoDigit(digit, "within_points") && limit >= 2
    ensures Constraints(Counter(u))
    ensures RecommendTx(Counter(u), Asked(u), Recalled(norm, digit), limit, id, event, at) == (t', Ok(id, row, offers))
    ensures id in t'.recommendations && t'.recommendations[id] == row
    ensures |offers| == 2 && offers[1].offer == "b"
    ensures Listed(row, true, {}, limit) == offers[..1]
  {
    CounterIsLegal(u);
    BothReturned(u, norm, digit, limit, id, event, at);
    t', row, offers := Stored(Counter(u), Asked(u), Written(), id, event, at), Written(),
        Listed(Written(), false, {}, limit);
    BothShown(limit, offers);
  }
}
