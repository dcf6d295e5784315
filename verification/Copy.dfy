/** The template copy and its validator. Strings are sequences of runes; `digit` is the rune
    classification the program takes from its Unicode tables. */
module Copy {
  import opened Schema
  import opened Text

  datatype CopyFacts = CopyFacts(station: string, offer: string, cost: Int64, description: string,
      reasons: seq<string>, timeContext: string)

  datatype CopyOutput = CopyOutput(title: string, body: string, tone: string)

  datatype CopyError = InvalidFacts | InvalidOutput

  datatype CopyResult = Copied(output: CopyOutput) | NoCopy(error: CopyError)

  type Digits = char -> bool

  function Truncate(s: string, limit: nat): string {
    if |s| <= limit then s else s[..limit]
  }

  /** The first 20 runes of a fact must show up in the copy. */
  function FactToken(s: string): string {
    Truncate(s, 20)
  }

  function JoinLabels(labels: seq<string>): string {
    if labels == [] then "" else if |labels| == 1 then labels[0] else labels[0] + "、" + JoinLabels(labels[1..])
  }

  // ---------------------------------------------------------------- maximal digit runs

  predicate Digital(digit: Digits, text: string, i: int, j: int) {
    0 <= i <= j <= |text| && forall k | i <= k < j :: digit(text[k])
  }

  /** text[i..j] is a digit run that cannot be extended either way. */
  predicate MaximalRun(digit: Digits, text: string, i: int, j: int) {
    && i < j && Digital(digit, text, i, j)
    && (i > 0 ==> !digit(text[i - 1]))
    && (j < |text| ==> !digit(text[j]))
  }

  /** The runs that end by position n. */
  function TokensBy(digit: Digits, text: string, n: int): set<string> {
    set i, j | 0 <= i < j <= |text| && j <= n && MaximalRun(digit, text, i, j) :: text[i..j]
  }

  function Tokens(digit: Digits, text: string): set<string> {
    TokensBy(digit, text, |text|)
  }

  // ---------------------------------------------------------------- the validators

  predicate ValidFacts(f: CopyFacts) {
    && f.station != "" && |f.station| <= 80
    && f.offer != "" && |f.offer| <= 120
    && f.cost >= 0
    && f.description != "" && |f.description| <= 160
    && 1 <= |f.reasons| <= 3
    && |f.timeContext| <= 40
    && forall reason | reason in f.reasons :: reason != "" && |reason| <= 40
  }

  function Allowed(digit: Digits, f: CopyFacts): set<string>
    requires f.cost >= 0
  {
    Tokens(digit, f.offer + " " + f.description + " " + Decimal(f.cost))
  }

  predicate ValidOutput(digit: Digits, f: CopyFacts, o: CopyOutput) {
    var text := o.title + " " + o.body;
    && ValidFacts(f)
    && o.title != "" && |o.title| <= 40 && o.body != "" && |o.body| <= 140
    && (o.tone == "friendly" || o.tone == "calm" || o.tone == "urgent")
    && Contains(text, FactToken(f.offer)) && Contains(text, Decimal(f.cost)) && Contains(text, FactToken(f.description))
    && Tokens(digit, text) <= Allowed(digit, f)
  }

  /** The untruncated template body. */
  function TemplateBody(f: CopyFacts): string
    requires f.cost >= 0
  {
    var body := Truncate(f.station, 20) + "：" + Truncate(f.description, 80)
      + "，使用 " + Decimal(f.cost) + " 點即可。推薦理由：" + Truncate(JoinLabels(f.reasons), 30);
    if f.timeContext == "" then body else body + "，適合" + f.timeContext + "。"
  }

  function TemplateOutput(f: CopyFacts): CopyOutput
    requires f.cost >= 0
  {
    CopyOutput(Truncate(f.offer, 40), Truncate(TemplateBody(f), 140), "friendly")
  }

  function TemplateCopy(digit: Digits, f: CopyFacts): CopyResult {
    if !ValidFacts(f) then NoCopy(InvalidFacts)
    else if !ValidOutput(digit, f, TemplateOutput(f)) then NoCopy(InvalidOutput)
    else Copied(TemplateOutput(f))
  }

  /** `generated` is what the generator answered, None for an error or a timeout. The flag says
      whether the generator's text was taken. */
  function GenerateCopy(digit: Digits, f: CopyFacts, configured: bool, generated: Option<CopyOutput>)
    : (CopyResult, bool)
  {
    var template := TemplateCopy(digit, f);
    if template.NoCopy? then (template, false)
    else if configured && generated.Some? && ValidOutput(digit, f, generated.value) then (Copied(generated.value), true)
    else (template, false)
  }

  // ---------------------------------------------------------------- tokens of joined strings

  predicate NoDigit(digit: Digits, s: string) {
    forall i | 0 <= i < |s| :: !digit(s[i])
  }

  lemma RunOfLeft(digit: Digits, a: string, rest: string, i: int, j: int)
    requires rest != "" && !digit(rest[0]) && j <= |a|
    ensures MaximalRun(digit, a + rest, i, j) <==> MaximalRun(digit, a, i, j)
    ensures 0 <= i <= j ==> (a + rest)[i..j] == a[i..j]
  {
    var text := a + rest;
    assert forall k | 0 <= k < |a| :: text[k] == a[k];
    assert text[|a|] == rest[0];
    if Digital(digit, text, i, j) || Digital(digit, a, i, j) {
      assert forall k | i <= k < j :: text[k] == a[k];
    }
  }

  lemma RunOfRight(digit: Digits, rest: string, b: string, i: int, j: int)
    requires rest != "" && !digit(rest[|rest| - 1]) && i >= 0
    ensures MaximalRun(digit, rest + b, i + |rest|, j + |rest|) <==> MaximalRun(digit, b, i, j)
    ensures i <= j <= |b| ==> (rest + b)[i + |rest|..j + |rest|] == b[i..j]
  {
    var text, n := rest + b, |rest|;
    assert forall k | 0 <= k < |b| :: text[k + n] == b[k];
    assert text[n - 1] == rest[n - 1];
    if Digital(digit, text, i + n, j + n) {
      assert forall k | i <= k < j :: text[k + n] == b[k];
    }
    if Digital(digit, b, i, j) {
      assert forall k | i + n <= k < j + n :: text[k] == b[k - n];
    }
  }

  /** A run of the joined string lies on one side of the separator. */
  lemma RunOnOneSide(digit: Digits, a: string, sep: string, b: string, i: int, j: int)
    requires sep != "" && NoDigit(digit, sep) && MaximalRun(digit, a + sep + b, i, j)
    ensures j <= |a| || i >= |a| + |sep|
  {
    var text := a + sep + b;
    var k := if i > |a| then i else |a|;
    assert forall m | |a| <= m < |a| + |sep| :: text[m] == sep[m - |a|];
    assert k < j ==> digit(text[k]);
  }

  lemma TokenOf(digit: Digits, text: string, i: int, j: int)
    requires MaximalRun(digit, text, i, j)
    ensures text[i..j] in Tokens(digit, text)
  {
  }

  lemma TokensOfParts(digit: Digits, a: string, sep: string, b: string)
    requires sep != "" && NoDigit(digit, sep)
    ensures Tokens(digit, a + sep + b) >= Tokens(digit, a) + Tokens(digit, b)
  {
    var text, n := a + sep + b, |a| + |sep|;
    assert text == a + (sep + b);
    forall x | x in Tokens(digit, a) ensures x in Tokens(digit, text) {
      var i, j :| 0 <= i < j <= |a| && MaximalRun(digit, a, i, j) && x == a[i..j];
      RunOfLeft(digit, a, sep + b, i, j);
      TokenOf(digit, text, i, j);
    }
    forall x | x in Tokens(digit, b) ensures x in Tokens(digit, text) {
      var i, j :| 0 <= i < j <= |b| && MaximalRun(digit, b, i, j) && x == b[i..j];
      RunOfRight(digit, a + sep, b, i, j);
      TokenOf(digit, text, i + n, j + n);
    }
  }

  lemma TokensWithin(digit: Digits, a: string, sep: string, b: string)
    requires sep != "" && NoDigit(digit, sep)
    ensures Tokens(digit, a + sep + b) <= Tokens(digit, a) + Tokens(digit, b)
  {
    var text, n := a + sep + b, |a| + |sep|;
    assert text == a + (sep + b);
    forall x | x in Tokens(digit, text) ensures x in Tokens(digit, a) + Tokens(digit, b) {
      var i, j :| 0 <= i < j <= |text| && MaximalRun(digit, text, i, j) && x == text[i..j];
      RunOnOneSide(digit, a, sep, b, i, j);
      if j <= |a| {
        RunOfLeft(digit, a, sep + b, i, j);
        TokenOf(digit, a, i, j);
      } else {
        RunOfRight(digit, a + sep, b, i - n, j - n);
        TokenOf(digit, b, i - n, j - n);
      }
    }
  }

  /** The numbers of two strings joined by a non-empty digit-free separator are those of either. */
  lemma TokensJoin(digit: Digits, a: string, sep: string, b: string)
    requires sep != "" && NoDigit(digit, sep)
    ensures Tokens(digit, a + sep + b) == Tokens(digit, a) + Tokens(digit, b)
  {
    TokensOfParts(digit, a, sep, b);
    TokensWithin(digit, a, sep, b);
  }

  lemma TokensNone(digit: Digits, s: string)
    requires NoDigit(digit, s)
    ensures Tokens(digit, s) == {}
  {
    forall i, j | 0 <= i < j <= |s| ensures !MaximalRun(digit, s, i, j) {
      assert !digit(s[i]);
    }
  }

  lemma TokensAll(digit: Digits, s: string)
    requires s != "" && Digital(digit, s, 0, |s|)
    ensures Tokens(digit, s) == {s}
  {
    assert MaximalRun(digit, s, 0, |s|) && s[0..|s|] == s;
    TokenOf(digit, s, 0, |s|);
    forall x | x in Tokens(digit, s) ensures x == s {
      var i, j :| 0 <= i < j <= |s| && MaximalRun(digit, s, i, j) && x == s[i..j];
      assert i == 0 && j == |s|;
    }
  }

  /** Whether cutting at n falls inside a number. */
  predicate SplitsNumber(digit: Digits, s: string, n: nat) {
    0 < n < |s| && digit(s[n - 1]) && digit(s[n])
  }

  /** A cut that does not fall inside a number adds no number. */
  lemma TokensCut(digit: Digits, s: string, n: nat)
    requires !SplitsNumber(digit, s, n)
    ensures Tokens(digit, Truncate(s, n)) <= Tokens(digit, s)
  {
    if n < |s| {
      var cut := s[..n];
      forall x | x in Tokens(digit, cut) ensures x in Tokens(digit, s) {
        var i, j :| 0 <= i < j <= n && MaximalRun(digit, cut, i, j) && x == cut[i..j];
        assert forall k | 0 <= k < n :: cut[k] == s[k];
        assert Digital(digit, s, i, j) && s[i..j] == cut[i..j];
        if j == n {
          assert digit(s[n - 1]);
        }
        TokenOf(digit, s, i, j);
      }
    }
  }

  // ---------------------------------------------------------------- numericTokens

  /** The scan: collect the current run, flush it at every other rune and at the end. */
  method NumericTokens(digit: Digits, text: string) returns (tokens: set<string>)
    ensures tokens == Tokens(digit, text)
  {
    tokens := {};
    var current := "";
    for n := 0 to |text|
      invariant Scanned(digit, text, n, current, tokens)
    {
      if digit(text[n]) {
        ScanDigit(digit, text, n, current, tokens);
        current := current + [text[n]];
      } else {
        ScanOther(digit, text, n, current, tokens);
        if current != "" {
          tokens := tokens + {current};
          current := "";
        }
      }
    }
    ScanEnd(digit, text, current, tokens);
    if current != "" {
      tokens := tokens + {current};
    }
  }

  /** The digits read since the last other rune. */
  predicate Collected(digit: Digits, text: string, n: int, current: string) {
    && 0 <= n - |current| <= n <= |text|
    && text[n - |current|..n] == current
    && Digital(digit, text, n - |current|, n)
    && (n - |current| > 0 ==> !digit(text[n - |current| - 1]))
  }

  /** The scan state after n runes. */
  predicate Scanned(digit: Digits, text: string, n: int, current: string, tokens: set<string>) {
    Collected(digit, text, n, current) && tokens == TokensBy(digit, text, n - |current|)
  }

  lemma ScanDigit(digit: Digits, text: string, n: int, current: string, tokens: set<string>)
    requires n < |text| && Scanned(digit, text, n, current, tokens) && digit(text[n])
    ensures Scanned(digit, text, n + 1, current + [text[n]], tokens)
  {
    var k := n - |current|;
    assert text[k..n + 1] == text[k..n] + [text[n]];
  }

  lemma ScanOther(digit: Digits, text: string, n: int, current: string, tokens: set<string>)
    requires n < |text| && Scanned(digit, text, n, current, tokens) && !digit(text[n])
    ensures Scanned(digit, text, n + 1, "", if current == "" then tokens else tokens + {current})
  {
    if current != "" {
      Flush(digit, text, n - |current|, n);
    }
    Skip(digit, text, n);
  }

  lemma ScanEnd(digit: Digits, text: string, current: string, tokens: set<string>)
    requires Scanned(digit, text, |text|, current, tokens)
    ensures Tokens(digit, text) == if current == "" then tokens else tokens + {current}
  {
    if current != "" {
      Flush(digit, text, |text| - |current|, |text|);
    }
  }

  lemma Flush(digit: Digits, text: string, start: int, n: int)
    requires MaximalRun(digit, text, start, n)
    ensures TokensBy(digit, text, start) + {text[start..n]} == TokensBy(digit, text, n)
  {
    forall i, j | 0 <= i < j <= n && MaximalRun(digit, text, i, j) ensures j <= start || (i == start && j == n) {
      if j > start {
        assert digit(text[j - 1]) && digit(text[i]);
      }
    }
  }

  lemma Skip(digit: Digits, text: string, n: int)
    requires 0 <= n < |text| && !digit(text[n])
    ensures TokensBy(digit, text, n) == TokensBy(digit, text, n + 1)
  {
    forall i, j | 0 <= i < j <= n + 1 && MaximalRun(digit, text, i, j) ensures j <= n {
      assert digit(text[j - 1]);
    }
  }

  /** What the digit classification has to say about the template's own runes. */
  ghost predicate Classifies(digit: Digits) {
    && (forall c | '0' <= c <= '9' :: digit(c))
    && NoDigit(digit, " ：，使用點即可。推薦理由適合")
  }

  lemma {:induction false} DecimalDigits(digit: Digits, n: nat)
    requires Classifies(digit)
    ensures Digital(digit, Decimal(n), 0, |Decimal(n)|)
  {
    if n >= 10 {
      DecimalDigits(digit, n / 10);
    }
  }

  // ---------------------------------------------------------------- the validators as they run

  method ValidateCopyFacts(f: CopyFacts) returns (ok: bool)
    ensures ok <==> ValidFacts(f)
    ensures ok <==>
      && 1 <= |f.station| <= 80 && 1 <= |f.offer| <= 120 && f.cost >= 0 && 1 <= |f.description| <= 160
      && 1 <= |f.reasons| <= 3 && (forall reason | reason in f.reasons :: 1 <= |reason| <= 40) && |f.timeContext| <= 40
  {
    if f.station == "" || |f.station| > 80 || f.offer == "" || |f.offer| > 120 || f.cost < 0
      || f.description == "" || |f.description| > 160 || |f.reasons| < 1 || |f.reasons| > 3 || |f.timeContext| > 40 {
      return false;
    }
    for i := 0 to |f.reasons|
      invariant forall j | 0 <= j < i :: f.reasons[j] != "" && |f.reasons[j]| <= 40
    {
      if f.reasons[i] == "" || |f.reasons[i]| > 40 {
        assert f.reasons[i] in f.reasons;
        return false;
      }
    }
    ok := true;
  }

  method ValidateCopyOutput(digit: Digits, f: CopyFacts, o: CopyOutput) returns (ok: bool)
    ensures ok <==> ValidOutput(digit, f, o)
  {
    var valid := ValidateCopyFacts(f);
    if !valid || o.title == "" || |o.title| > 40 || o.body == "" || |o.body| > 140
      || (o.tone != "friendly" && o.tone != "calm" && o.tone != "urgent") {
      return false;
    }
    var text := o.title + " " + o.body;
    if !Contains(text, FactToken(f.offer)) || !Contains(text, Decimal(f.cost))
        || !Contains(text, FactToken(f.description)) {
      return false;
    }
    var allowed := NumericTokens(digit, f.offer + " " + f.description + " " + Decimal(f.cost));
    var numbers := NumericTokens(digit, text);
    ok := OnlyAllowed(numbers, allowed);
  }

  method OnlyAllowed(numbers: set<string>, allowed: set<string>) returns (ok: bool)
    ensures ok <==> numbers <= allowed
  {
    var left := numbers;
    while left != {}
      invariant left <= numbers && numbers - left <= allowed
      decreases left
    {
      var number :| number in left;
      if number !in allowed {
        return false;
      }
      left := left - {number};
    }
    ok := true;
  }

  // ---------------------------------------------------------------- when the template passes its own validator

  const AFTER_STATION := "："
  const BEFORE_COST := "，使用 "
  const AFTER_COST := " 點即可。推薦理由："

  function Lead(f: CopyFacts): string
    requires f.cost >= 0
  {
    Truncate(f.station, 20) + AFTER_STATION + Truncate(f.description, 80) + BEFORE_COST + Decimal(f.cost) + AFTER_COST
  }

  function Closing(f: CopyFacts): string {
    Truncate(JoinLabels(f.reasons), 30) + (if f.timeContext == "" then "" else "，適合" + f.timeContext + "。")
  }

  /** What is left of the reasons and the time context after the 140-rune cut. */
  function Tail(f: CopyFacts): string
    requires f.cost >= 0
  {
    Int64Length(f.cost);
    Truncate(Closing(f), 140 - |Lead(f)|)
  }

  lemma BodyInTwo(f: CopyFacts)
    requires f.cost >= 0
    ensures TemplateBody(f) == Lead(f) + Closing(f)
  {
  }

  lemma CutAfter(lead: string, rest: string, n: nat)
    requires |lead| <= n
    ensures Truncate(lead + rest, n) == lead + Truncate(rest, n - |lead|)
  {
  }

  lemma LeadLength(f: CopyFacts)
    requires f.cost >= 0
    ensures |Lead(f)| <= 134
  {
    Int64Length(f.cost);
  }

  /** The cut never reaches the lead, which ends by rune 134. */
  lemma BodyIsLeadAndTail(f: CopyFacts)
    requires ValidFacts(f)
    ensures |Lead(f)| <= 134 && TemplateOutput(f).body == Lead(f) + Tail(f)
  {
    LeadLength(f);
    BodyInTwo(f);
    CutAfter(Lead(f), Closing(f), 140);
  }

  lemma PunctuationHasNoDigit(digit: Digits)
    requires Classifies(digit)
    ensures NoDigit(digit, " ") && NoDigit(digit, AFTER_STATION) && NoDigit(digit, BEFORE_COST)
      && NoDigit(digit, AFTER_COST) && NoDigit(digit, "，適合") && NoDigit(digit, "。")
  {
    var runes := " ：，使用點即可。推薦理由適合";
    assert !digit(runes[0]) && !digit(runes[1]) && !digit(runes[2]) && !digit(runes[3]) && !digit(runes[4])
        && !digit(runes[5]) && !digit(runes[6]);
    assert !digit(runes[7]) && !digit(runes[8]) && !digit(runes[9]) && !digit(runes[10]) && !digit(runes[11])
        && !digit(runes[12]) && !digit(runes[13]) && !digit(runes[14]);
  }

  lemma CostTokens(digit: Digits, f: CopyFacts)
    requires Classifies(digit) && f.cost >= 0
    ensures Tokens(digit, Decimal(f.cost)) == {Decimal(f.cost)}
  {
    DecimalDigits(digit, f.cost);
    TokensAll(digit, Decimal(f.cost));
  }

  /** The only numbers a copy may use: those of the offer name and description, and the cost. */
  lemma AllowedTokens(digit: Digits, f: CopyFacts)
    requires Classifies(digit) && f.cost >= 0
    ensures Allowed(digit, f) == Tokens(digit, f.offer) + Tokens(digit, f.description) + {Decimal(f.cost)}
  {
    PunctuationHasNoDigit(digit);
    CostTokens(digit, f);
    assert f.offer + " " + f.description + " " + Decimal(f.cost) ==
        (f.offer + " " + f.description) + " " + Decimal(f.cost);
    TokensJoin(digit, f.offer + " " + f.description, " ", Decimal(f.cost));
    TokensJoin(digit, f.offer, " ", f.description);
  }

  /** The body, grouped from the right. */
  lemma BodyGrouped(f: CopyFacts)
    requires ValidFacts(f)
    ensures TemplateOutput(f).body
      == Truncate(f.station, 20) + AFTER_STATION
          + (Truncate(f.description, 80) + BEFORE_COST + (Decimal(f.cost) + AFTER_COST + Tail(f)))
  {
    BodyIsLeadAndTail(f);
    Regroup(Truncate(f.station, 20), AFTER_STATION, Truncate(f.description, 80), BEFORE_COST, Decimal(f.cost),
        AFTER_COST, Tail(f));
  }

  lemma Regroup(a: string, b: string, c: string, d: string, e: string, g: string, h: string)
    ensures a + b + c + d + e + g + h == a + b + (c + d + (e + g + h))
  {
  }

  lemma BodyTokens(digit: Digits, f: CopyFacts)
    requires Classifies(digit) && ValidFacts(f)
    ensures Tokens(digit, TemplateOutput(f).body)
      == Tokens(digit, Truncate(f.station, 20)) + Tokens(digit, Truncate(f.description, 80)) + {Decimal(f.cost)}
          + Tokens(digit, Tail(f))
  {
    BodyGrouped(f);
    PunctuationHasNoDigit(digit);
    CostTokens(digit, f);
    GroupedTokens(digit, Truncate(f.station, 20), Truncate(f.description, 80), Decimal(f.cost), Tail(f));
  }

  lemma GroupedTokens(digit: Digits, s: string, d: string, c: string, t: string)
    requires NoDigit(digit, AFTER_STATION) && NoDigit(digit, BEFORE_COST) && NoDigit(digit, AFTER_COST)
    ensures Tokens(digit, s + AFTER_STATION + (d + BEFORE_COST + (c + AFTER_COST + t))) ==
        Tokens(digit, s) + Tokens(digit, d) + Tokens(digit, c) + Tokens(digit, t)
  {
    TokensJoin(digit, c, AFTER_COST, t);
    TokensJoin(digit, d, BEFORE_COST, c + AFTER_COST + t);
    TokensJoin(digit, s, AFTER_STATION, d + BEFORE_COST + (c + AFTER_COST + t));
  }

  lemma TokenLeads(s: string, n: nat)
    requires n >= 20
    ensures Contains(Truncate(s, n), FactToken(s))
  {
    assert Truncate(s, n)[..|FactToken(s)|] == FactToken(s);
    assert Occurs(Truncate(s, n), FactToken(s), 0);
  }

  lemma NameShown(f: CopyFacts)
    requires ValidFacts(f)
    ensures Contains(TemplateOutput(f).title + " " + TemplateOutput(f).body, FactToken(f.offer))
  {
    var title, body := TemplateOutput(f).title, TemplateOutput(f).body;
    TokenLeads(f.offer, 40);
    ContainsIn("", title, " " + body, FactToken(f.offer));
    assert "" + title + (" " + body) == title + " " + body;
  }

  lemma BodyShows(f: CopyFacts)
    requires ValidFacts(f)
    ensures Contains(TemplateOutput(f).body, Decimal(f.cost))
        && Contains(TemplateOutput(f).body, FactToken(f.description))
  {
    BodyGrouped(f);
    TokenLeads(f.description, 80);
    Leads(Decimal(f.cost), AFTER_COST, Tail(f));
    InBody(Truncate(f.station, 20), Truncate(f.description, 80), Decimal(f.cost) + AFTER_COST + Tail(f),
        Decimal(f.cost), FactToken(f.description));
  }

  lemma Leads(c: string, after: string, rest: string)
    ensures Contains(c + after + rest, c)
  {
    assert Occurs(c + after + rest, c, 0);
  }

  /** Name token, cost and description token always survive the cuts. */
  lemma TemplateKeepsFacts(f: CopyFacts)
    requires ValidFacts(f)
    ensures var o := TemplateOutput(f); var text := o.title + " " + o.body;
      Contains(text, FactToken(f.offer)) && Contains(text, Decimal(f.cost)) && Contains(text, FactToken(f.description))
  {
    var title, body := TemplateOutput(f).title, TemplateOutput(f).body;
    NameShown(f);
    BodyShows(f);
    ContainsIn(title + " ", body, "", Decimal(f.cost));
    ContainsIn(title + " ", body, "", FactToken(f.description));
    assert title + " " + body + "" == title + " " + body;
  }

  lemma InBody(s: string, d: string, fromCost: string, c: string, described: string)
    requires Contains(fromCost, c) && Contains(d, described)
    ensures var body := s + AFTER_STATION + (d + BEFORE_COST + fromCost); Contains(body, c) && Contains(body, described)
  {
    var body := s + AFTER_STATION + (d + BEFORE_COST + fromCost);
    ContainsIn(s + AFTER_STATION + d + BEFORE_COST, fromCost, "", c);
    assert s + AFTER_STATION + d + BEFORE_COST + fromCost + "" == body;
    ContainsIn(s + AFTER_STATION, d, BEFORE_COST + fromCost, described);
    assert s + AFTER_STATION + d + (BEFORE_COST + fromCost) == body;
  }

  /** Every number of the shown pieces is a number of the facts. */
  predicate NumbersKnown(digit: Digits, f: CopyFacts)
    requires f.cost >= 0
  {
    var known := Tokens(digit, f.offer) + Tokens(digit, f.description) + {Decimal(f.cost)};
    && Tokens(digit, Truncate(f.offer, 40)) <= known
    && Tokens(digit, Truncate(f.station, 20)) <= known
    && Tokens(digit, Truncate(f.description, 80)) <= known
    && Tokens(digit, Tail(f)) <= known
  }

  /** Template completeness, exactly: the template is accepted if and only if the facts are valid and
      no shown piece carries a number the facts do not have. */
  lemma TemplateAccepted(digit: Digits, f: CopyFacts)
    requires Classifies(digit)
    ensures TemplateCopy(digit, f).Copied? <==> ValidFacts(f) && NumbersKnown(digit, f)
  {
    if ValidFacts(f) {
      var o := TemplateOutput(f);
      TemplateKeepsFacts(f);
      BodyIsLeadAndTail(f);
      BodyTokens(digit, f);
      AllowedTokens(digit, f);
      PunctuationHasNoDigit(digit);
      TokensJoin(digit, o.title, " ", o.body);
      assert Decimal(f.cost) in Allowed(digit, f);
    }
  }

  lemma NoDigitCut(digit: Digits, s: string, n: nat)
    requires NoDigit(digit, s)
    ensures NoDigit(digit, Truncate(s, n))
  {
  }

  lemma TailHasNoNumber(digit: Digits, f: CopyFacts)
    requires Classifies(digit) && f.cost >= 0
    requires NoDigit(digit, Truncate(JoinLabels(f.reasons), 30)) && NoDigit(digit, f.timeContext)
    ensures Tokens(digit, Tail(f)) == {}
  {
    PunctuationHasNoDigit(digit);
    assert NoDigit(digit, Closing(f));
    LeadLength(f);
    NoDigitCut(digit, Closing(f), 140 - |Lead(f)|);
    TokensNone(digit, Tail(f));
  }

  /** In particular when station, reasons and time context show no digit and neither cut falls inside
      a number. */
  lemma TemplateComplete(digit: Digits, f: CopyFacts)
    requires Classifies(digit) && ValidFacts(f)
    requires NoDigit(digit, Truncate(f.station, 20)) && NoDigit(digit, Truncate(JoinLabels(f.reasons), 30))
        && NoDigit(digit, f.timeContext)
    requires !SplitsNumber(digit, f.offer, 40) && !SplitsNumber(digit, f.description, 80)
    ensures TemplateCopy(digit, f) == Copied(TemplateOutput(f))
  {
    TokensNone(digit, Truncate(f.station, 20));
    TokensCut(digit, f.offer, 40);
    TokensCut(digit, f.description, 80);
    TailHasNoNumber(digit, f);
    TemplateAccepted(digit, f);
  }

  /** The template fails its own validation whenever the shown station name has a number that neither
      the cost nor a digit-free name and description can account for. */
  lemma ForeignNumber(digit: Digits, f: CopyFacts, x: string)
    requires Classifies(digit) && ValidFacts(f) && NoDigit(digit, f.offer) && NoDigit(digit, f.description)
    requires x in Tokens(digit, Truncate(f.station, 20)) && x != Decimal(f.cost)
    ensures TemplateCopy(digit, f) == NoCopy(InvalidOutput)
  {
    TokensNone(digit, f.offer);
    TokensNone(digit, f.description);
    TemplateAccepted(digit, f);
  }

  lemma TemplateCanFail(digit: Digits)
    requires Classifies(digit)
    ensures TemplateCopy(digit, CopyFacts("7", "點", 1, "點", ["點"], "")) == NoCopy(InvalidOutput)
  {
    var f := CopyFacts("7", "點", 1, "點", ["點"], "");
    PunctuationHasNoDigit(digit);
    assert AFTER_COST[1] == '點';
    TokensAll(digit, "7");
    assert Decimal(1)[0] == '1' && "7"[0] == '7';
    ForeignNumber(digit, f, "7");
  }

  /** Copy soundness for any generator: whatever is returned without error is within its lengths,
      shows the fact tokens and the cost, and has no number foreign to name, description and cost. */
  lemma CopySound(digit: Digits, f: CopyFacts, configured: bool, generated: Option<CopyOutput>)
    requires Classifies(digit) && GenerateCopy(digit, f, configured, generated).0.Copied?
    ensures var o := GenerateCopy(digit, f, configured, generated).0.output; var text := o.title + " " + o.body;
      && ValidFacts(f)
      && 1 <= |o.title| <= 40 && 1 <= |o.body| <= 140
      && Contains(text, FactToken(f.offer)) && Contains(text, FactToken(f.description))
      && Contains(text, Decimal(f.cost))
      && (forall i, j | MaximalRun(digit, text, i, j) ::
        text[i..j] == Decimal(f.cost) || text[i..j] in Tokens(digit, f.offer)
            || text[i..j] in Tokens(digit, f.description))
      && (!GenerateCopy(digit, f, configured, generated).1 ==> o == TemplateOutput(f))
  {
    var o := GenerateCopy(digit, f, configured, generated).0.output;
    var text := o.title + " " + o.body;
    AllowedTokens(digit, f);
    forall i, j | MaximalRun(digit, text, i, j)
      ensures text[i..j] == Decimal(f.cost) || text[i..j] in Tokens(digit, f.offer)
          || text[i..j] in Tokens(digit, f.description)
    {
      TokenOf(digit, text, i, j);
    }
  }

  // ---------------------------------------------------------------- limits and wording, spelled out

  /** What has to show up of a fact: its first 20 runes, all of a shorter one. */
  lemma TokenIsLead(s: string)
    ensures FactToken(s) <= s && |FactToken(s)| == if |s| < 20 then |s| else 20
  {
  }

  /** What a copy has to meet. */
  lemma OutputAccepted(digit: Digits, f: CopyFacts, o: CopyOutput)
    requires ValidFacts(f)
    ensures ValidOutput(digit, f, o) <==>
      var text := o.title + " " + o.body;
      && 1 <= |o.title| <= 40 && 1 <= |o.body| <= 140 && o.tone in {"friendly", "calm", "urgent"}
      && Contains(text, FactToken(f.offer)) && Contains(text, FactToken(f.description))
      && Contains(text, Decimal(f.cost))
      && forall i, j | MaximalRun(digit, text, i, j) ::
        text[i..j] in Tokens(digit, f.offer + " " + f.description + " " + Decimal(f.cost))
  {
    var text := o.title + " " + o.body;
    if Tokens(digit, text) <= Allowed(digit, f) {
      forall i, j | MaximalRun(digit, text, i, j) ensures text[i..j] in Allowed(digit, f) {
        TokenOf(digit, text, i, j);
      }
    }
  }

  /** A valid generated copy is taken if a generator is configured and the template itself would do. */
  lemma GeneratedIsTaken(digit: Digits, f: CopyFacts, configured: bool, generated: Option<CopyOutput>)
    requires ValidFacts(f) && ValidOutput(digit, f, TemplateOutput(f))
    ensures GenerateCopy(digit, f, configured, generated) ==
      if configured && generated.Some? && ValidOutput(digit, f, generated.value)
        then (Copied(generated.value), true) else (Copied(TemplateOutput(f)), false)
  {
  }

  /** Without an acceptable template there is no copy, whatever a generator says. */
  lemma NoTemplateNoCopy(digit: Digits, f: CopyFacts, configured: bool, generated: Option<CopyOutput>)
    ensures !ValidFacts(f) ==> GenerateCopy(digit, f, configured, generated) == (NoCopy(InvalidFacts), false)
    ensures ValidFacts(f) && !ValidOutput(digit, f, TemplateOutput(f)) ==>
      GenerateCopy(digit, f, configured, generated) == (NoCopy(InvalidOutput), false)
  {
  }

  /** How up to three reasons are joined. */
  lemma LabelsJoined(a: string, b: string, c: string)
    ensures JoinLabels([]) == "" && JoinLabels([a]) == a && JoinLabels([a, b]) == a + "、" + b
    ensures JoinLabels([a, b, c]) == a + "、" + (b + "、" + c)
  {
    assert [a, b, c][1..] == [b, c] && [b, c][1..] == [c] && [a, b][1..] == [b];
    assert JoinLabels([b, c]) == b + "、" + c;
  }

  /** The template's title is the name, its body the text below, cut at 40 and 140 runes, and its tone friendly. */
  lemma TemplatePieces(f: CopyFacts)
    requires f.cost >= 0
    ensures var o := TemplateOutput(f);
      && o.title <= f.offer && |o.title| == (if |f.offer| < 40 then |f.offer| else 40)
      && o.body <= TemplateBody(f) && |o.body| == (if |TemplateBody(f)| < 140 then |TemplateBody(f)| else 140)
      && o.tone == "friendly"
  {
  }

  /** Where station, description and reasons are cut, at 20, 80 and 30 runes. */
  lemma BodyPieces(f: CopyFacts)
    requires f.cost >= 0
    ensures var cut := (s: string, n: nat) => if |s| <= n then s else s[..n];
      TemplateBody(f) == cut(f.station, 20) + "：" + cut(f.description, 80) + "，使用 " + Decimal(f.cost)
        + " 點即可。推薦理由：" + cut(JoinLabels(f.reasons), 30)
        + (if f.timeContext == "" then "" else "，適合" + f.timeContext + "。")
  {
  }
}
