/** The ambiguity detector: independent tests over the lower-cased turn and
    the current preferences that raise flags, and the fixed clarifying
    question for each flag. */
module Detector {
  import opened Text
  import opened Preferences

  /** The flags, declared in the canonical order in which questions are asked. */
  datatype Flag =
    | CountryFieldChoice
    | MissingYear
    | DateFieldChoice
    | MissingTopN
    | MissingMetric
    | NetVsGross
    | RegionVsCountry

  function Rank(f: Flag): nat {
    match f
    case CountryFieldChoice => 0
    case MissingYear => 1
    case DateFieldChoice => 2
    case MissingTopN => 3
    case MissingMetric => 4
    case NetVsGross => 5
    case RegionVsCountry => 6
  }

  /** The string under which the source reports a flag. */
  function Tag(f: Flag): string {
    match f
    case CountryFieldChoice => "country_field_choice"
    case MissingYear => "missing_year"
    case DateFieldChoice => "date_field_choice"
    case MissingTopN => "missing_top_n"
    case MissingMetric => "missing_metric"
    case NetVsGross => "net_vs_gross"
    case RegionVsCountry => "region_vs_country"
  }

  /** Distinct flags have distinct tags. */
  lemma TagInjective(f: Flag, g: Flag)
    ensures Tag(f) == Tag(g) <==> f == g
  {
    if f != g {
      assert Tag(f)[0] != Tag(g)[0] || |Tag(f)| != |Tag(g)|;
    }
  }

  function Tags(fs: seq<Flag>): (r: seq<string>)
    ensures |r| == |fs|
    ensures forall i :: 0 <= i < |fs| ==> r[i] == Tag(fs[i])
  {
    seq(|fs|, i requires 0 <= i < |fs| => Tag(fs[i]))
  }

  // ---------------------------------------------------------------------------
  // The two regular expressions of the detector, over ASCII word characters

  predicate WordAt(t: string, i: int) {
    0 <= i < |t| && IsWordChar(t[i])
  }

  /** `\b` at position `i`: exactly one side is a word character. */
  predicate Boundary(t: string, i: int) {
    WordAt(t, i - 1) != WordAt(t, i)
  }

  /** `\b20\d{2}\b` matches at `i`. */
  predicate YearAt(t: string, i: nat) {
    i + 4 <= |t| && Boundary(t, i) && t[i] == '2' && t[i + 1] == '0' &&
    IsDigit(t[i + 2]) && IsDigit(t[i + 3]) && Boundary(t, i + 4)
  }

  predicate HasYear(t: string) {
    exists i: nat | i <= |t| :: YearAt(t, i)
  }

  /** `\btop\b(?!\s*\d+)` matches at `i`: a whole word `top` not followed,
      after optional whitespace, by a digit. */
  predicate BareTopAt(t: string, i: nat) {
    OccursAt(t, "top", i) && Boundary(t, i) && Boundary(t, i + 3) &&
    !(SkipSpace(t, i + 3) < |t| && IsDigit(t[SkipSpace(t, i + 3)]))
  }

  predicate BareTop(t: string) {
    exists i: nat | i <= |t| :: BareTopAt(t, i)
  }

  /** A year match holds the digits `20`. */
  lemma YearNeedsTwenty(t: string)
    ensures HasYear(t) ==> Contains(t, "20")
  {
    if HasYear(t) {
      var i: nat :| i <= |t| && YearAt(t, i);
      assert t[i..i + 2] == "20";
      assert OccursAt(t, "20", i);
    }
  }

  /** A bare `top` is an occurrence of `top`. */
  lemma BareTopNeedsTop(t: string)
    ensures BareTop(t) ==> Contains(t, "top")
  {
  }

  // ---------------------------------------------------------------------------
  // detect

  predicate MentionsPeriod(t: string) {
    Contains(t, "quarter") || Contains(t, "q1") || Contains(t, "q2") || Contains(t, "q3") ||
    Contains(t, "q4") || Contains(t, "month") || Contains(t, "year")
  }

  predicate MentionsMetric(t: string) {
    Contains(t, "revenue") || Contains(t, "quantity") || Contains(t, "orders") ||
    Contains(t, "sales")
  }

  predicate MentionsNetOrGross(t: string) {
    Contains(t, "discount") || Contains(t, "net") || Contains(t, "gross")
  }

  // The conditions of the seven flags over the lower-cased text `t`.

  predicate CountryChoiceRaised(t: string, p: Prefs) {
    Contains(t, "country") && (Contains(t, "order") || Contains(t, "ship")) && p.countryField.None?
  }

  predicate YearRaised(t: string) {
    MentionsPeriod(t) && !HasYear(t)
  }

  predicate DateChoiceRaised(t: string, p: Prefs) {
    Contains(t, "date") && p.dateField.None?
  }

  /** A `top_n` of 0 is falsy and does not silence the flag. */
  predicate TopNRaised(t: string, p: Prefs) {
    BareTop(t) && !TopNSet(p)
  }

  predicate MetricRaised(t: string, p: Prefs) {
    (Contains(t, "best") || Contains(t, "top")) && !MentionsMetric(t) && p.metric.None?
  }

  predicate NetGrossRaised(t: string, p: Prefs) {
    Contains(t, "revenue") && p.netRevenue.None? && !MentionsNetOrGross(t)
  }

  predicate RegionRaised(t: string) {
    Contains(t, "region") || Contains(t, "market")
  }

  /** Strictly increasing ranks: each flag at most once, in canonical order. */
  predicate InOrder(fs: seq<Flag>) {
    forall i, j :: 0 <= i < j < |fs| ==> Rank(fs[i]) < Rank(fs[j])
  }

  lemma EveryFlag(f: Flag)
    ensures f == CountryFieldChoice || f == MissingYear || f == DateFieldChoice ||
            f == MissingTopN || f == MissingMetric || f == NetVsGross || f == RegionVsCountry
  {
  }

  /** The flag of canonical position `n`. */
  function FlagOf(n: nat): (f: Flag)
    requires n < 7
    ensures Rank(f) == n
  {
    [CountryFieldChoice, MissingYear, DateFieldChoice, MissingTopN, MissingMetric,
     NetVsGross, RegionVsCountry][n]
  }

  /** The flags of canonical position `n` or later whose condition in `cs` holds. */
  function FlagsFrom(cs: seq<bool>, n: nat): (r: seq<Flag>)
    requires |cs| == 7 && n <= 7
    ensures forall f :: f in r <==> n <= Rank(f) && cs[Rank(f)]
    ensures InOrder(r)
    decreases 7 - n
  {
    if n == 7 then []
    else
      var rest := FlagsFrom(cs, n + 1);
      forall f ensures f == FlagOf(n) <==> Rank(f) == n {
        RankInjective(f, FlagOf(n));
      }
      (if cs[n] then [FlagOf(n)] else []) + rest
  }

  /** The flags whose condition holds, by conditional appends in canonical order. */
  function FlagsWhere(c0: bool, c1: bool, c2: bool, c3: bool, c4: bool, c5: bool, c6: bool): (r: seq<Flag>)
    ensures CountryFieldChoice in r <==> c0
    ensures MissingYear in r <==> c1
    ensures DateFieldChoice in r <==> c2
    ensures MissingTopN in r <==> c3
    ensures MissingMetric in r <==> c4
    ensures NetVsGross in r <==> c5
    ensures RegionVsCountry in r <==> c6
    ensures InOrder(r)
  {
    var cs := [c0, c1, c2, c3, c4, c5, c6];
    FlagsFromMember(cs, CountryFieldChoice);
    FlagsFromMember(cs, MissingYear);
    FlagsFromMember(cs, DateFieldChoice);
    FlagsFromMember(cs, MissingTopN);
    FlagsFromMember(cs, MissingMetric);
    FlagsFromMember(cs, NetVsGross);
    FlagsFromMember(cs, RegionVsCountry);
    FlagsFrom(cs, 0)
  }

  lemma FlagsFromMember(cs: seq<bool>, f: Flag)
    requires |cs| == 7
    ensures f in FlagsFrom(cs, 0) <==> cs[Rank(f)]
  {
  }

  /** `detect`: the raised flags, each once, in canonical order. */
  function Detect(text: string, p: Prefs): (r: seq<Flag>)
    ensures CountryFieldChoice in r <==> CountryChoiceRaised(ToLower(text), p)
    ensures MissingYear in r <==> YearRaised(ToLower(text))
    ensures DateFieldChoice in r <==> DateChoiceRaised(ToLower(text), p)
    ensures MissingTopN in r <==> TopNRaised(ToLower(text), p)
    ensures MissingMetric in r <==> MetricRaised(ToLower(text), p)
    ensures NetVsGross in r <==> NetGrossRaised(ToLower(text), p)
    ensures RegionVsCountry in r <==> RegionRaised(ToLower(text))
    ensures InOrder(r)
  {
    var t := ToLower(text);
    FlagsWhere(CountryChoiceRaised(t, p), YearRaised(t), DateChoiceRaised(t, p), TopNRaised(t, p),
               MetricRaised(t, p), NetGrossRaised(t, p), RegionRaised(t))
  }

  /** The region question depends on the text alone, whatever was resolved. */
  lemma DetectRegion(text: string, p: Prefs)
    ensures RegionVsCountry in Detect(text, p) <==>
            Contains(ToLower(text), "region") || Contains(ToLower(text), "market")
  {
  }

  /** Every flag but the year and region ones is silenced by its preference
      (a `top_n` of 0 does not silence). */
  lemma DetectSilencedByPreference(text: string, p: Prefs)
    ensures p.countryField.Some? ==> CountryFieldChoice !in Detect(text, p)
    ensures p.dateField.Some? ==> DateFieldChoice !in Detect(text, p)
    ensures TopNSet(p) ==> MissingTopN !in Detect(text, p)
    ensures p.metric.Some? ==> MissingMetric !in Detect(text, p)
    ensures p.netRevenue.Some? ==> NetVsGross !in Detect(text, p)
  {
  }

  /** `p` has resolved at least what `q` has (with `top_n` read for truthiness). */
  predicate AtLeastAsResolved(p: Prefs, q: Prefs) {
    (q.countryField.Some? ==> p.countryField.Some?) && (q.dateField.Some? ==> p.dateField.Some?) &&
    (q.metric.Some? ==> p.metric.Some?) && (q.netRevenue.Some? ==> p.netRevenue.Some?) &&
    (TopNSet(q) ==> TopNSet(p))
  }

  /** Resolving more preferences never raises a new flag. */
  lemma DetectAntitone(text: string, p: Prefs, q: Prefs)
    requires AtLeastAsResolved(p, q)
    ensures forall f :: f in Detect(text, p) ==> f in Detect(text, q)
  {
    forall f | f in Detect(text, p) ensures f in Detect(text, q) {
      EveryFlag(f);
    }
  }

  /** Detection reads the text case-insensitively. */
  lemma DetectIgnoresCase(text: string, p: Prefs)
    ensures Detect(ToLower(text), p) == Detect(text, p)
  {
    ToLowerIdempotent(text);
  }

  // ---------------------------------------------------------------------------
  // clarifying_questions

  const CountryQuestion := "Do you want shipping destination (Orders.ShipCountry) " +
    "or the customer\U{2019}s country (Customers.Country)?"
  const YearQuestion := "Which year should I use? " + "(e.g., 2023 or 2024)"
  const DateQuestion := "Should I filter by OrderDate " + "or ShippedDate?"
  const TopNQuestion := "How many should I list? " + "(Top 5, Top 10?)"
  const MetricQuestion := "Rank by revenue, quantity, " + "or number of orders?"
  const NetGrossQuestion := "Revenue: net (after discount) " + "or gross (before discount)?"
  const RegionQuestion := "When you say region/market, " +
    "do you mean countries or a regional grouping?"

  function Question(f: Flag): string {
    match f
    case CountryFieldChoice => CountryQuestion
    case MissingYear => YearQuestion
    case DateFieldChoice => DateQuestion
    case MissingTopN => TopNQuestion
    case MissingMetric => MetricQuestion
    case NetVsGross => NetGrossQuestion
    case RegionVsCountry => RegionQuestion
  }

  /** The seven questions have seven different lengths, so none is asked for
      two flags. */
  lemma QuestionInjective(f: Flag, g: Flag)
    ensures Question(f) == Question(g) <==> f == g
  {
    assert |CountryQuestion| == 100 && |YearQuestion| == 45 && |DateQuestion| == 44;
    assert |TopNQuestion| == 40 && |MetricQuestion| == 47 && |NetGrossQuestion| == 57;
    assert |RegionQuestion| == 73;
  }

  /** The year question speaks of a year, as the test of the year clarification expects. */
  lemma YearQuestionMentionsYear()
    ensures Contains(ToLower(YearQuestion), "year")
  {
    assert ToLower(YearQuestion)[6..10] == "year";
    assert OccursAt(ToLower(YearQuestion), "year", 6);
  }

  /** The position of a question in the canonical order; 7 for any other string. */
  function QuestionRank(q: string): nat {
    if q == CountryQuestion then 0
    else if q == YearQuestion then 1
    else if q == DateQuestion then 2
    else if q == TopNQuestion then 3
    else if q == MetricQuestion then 4
    else if q == NetGrossQuestion then 5
    else if q == RegionQuestion then 6
    else 7
  }

  lemma QuestionRankOf(f: Flag)
    ensures QuestionRank(Question(f)) == Rank(f)
  {
    QuestionInjective(f, CountryFieldChoice);
    QuestionInjective(f, MissingYear);
    QuestionInjective(f, DateFieldChoice);
    QuestionInjective(f, MissingTopN);
    QuestionInjective(f, MissingMetric);
    QuestionInjective(f, NetVsGross);
  }

  /** The questions for the recognised tags among `issues`, as flags in
      canonical order. */
  function Asked(issues: seq<string>): (r: seq<Flag>)
    ensures forall f :: f in r <==> Tag(f) in issues
    ensures InOrder(r)
  {
    var r := FlagsWhere("country_field_choice" in issues, "missing_year" in issues,
                        "date_field_choice" in issues, "missing_top_n" in issues,
                        "missing_metric" in issues, "net_vs_gross" in issues,
                        "region_vs_country" in issues);
    forall f ensures f in r <==> Tag(f) in issues {
      EveryFlag(f);
    }
    r
  }

  function Questions(fs: seq<Flag>): (r: seq<string>)
    ensures |r| == |fs|
    ensures forall i :: 0 <= i < |fs| ==> r[i] == Question(fs[i])
  {
    seq(|fs|, i requires 0 <= i < |fs| => Question(fs[i]))
  }

  /** `clarifying_questions`: one question per distinct recognised tag, in
      canonical order; duplicates, input order and unknown tags do not matter. */
  function ClarifyingQuestions(issues: seq<string>): (r: seq<string>)
    ensures |r| <= 7
    ensures forall f :: Question(f) in r <==> Tag(f) in issues
    ensures forall i, j :: 0 <= i < j < |r| ==> QuestionRank(r[i]) < QuestionRank(r[j])
    ensures forall i :: 0 <= i < |r| ==> QuestionRank(r[i]) < 7
  {
    var fs := Asked(issues);
    QuestionsInOrder(fs);
    QuestionsMembers(fs);
    AskedAtMostSeven(fs);
    Questions(fs)
  }

  lemma QuestionsInOrder(fs: seq<Flag>)
    requires InOrder(fs)
    ensures var r := Questions(fs);
      forall i, j :: 0 <= i < j < |r| ==> QuestionRank(r[i]) < QuestionRank(r[j])
    ensures var r := Questions(fs);
      forall i :: 0 <= i < |r| ==> QuestionRank(r[i]) < 7
  {
    forall i | 0 <= i < |fs| ensures QuestionRank(Questions(fs)[i]) == Rank(fs[i]) {
      QuestionRankOf(fs[i]);
    }
  }

  lemma QuestionsMembers(fs: seq<Flag>)
    ensures forall f :: Question(f) in Questions(fs) <==> f in fs
  {
    var r := Questions(fs);
    forall f ensures Question(f) in r <==> f in fs {
      if Question(f) in r {
        var i :| 0 <= i < |r| && r[i] == Question(f);
        QuestionInjective(f, fs[i]);
      }
      if f in fs {
        var i :| 0 <= i < |fs| && fs[i] == f;
        assert r[i] == Question(f);
      }
    }
  }

  /** A list of flags in canonical order has at most seven entries. */
  lemma AskedAtMostSeven(fs: seq<Flag>)
    requires InOrder(fs)
    ensures |fs| <= 7
  {
    if |fs| > 7 {
      var i := 0;
      while i < 7
        invariant 0 <= i <= 7
        invariant Rank(fs[i]) >= i
      {
        assert Rank(fs[i + 1]) > Rank(fs[i]);
        i := i + 1;
      }
      assert false;
    }
  }

  /** Only the set of recognised tags matters. */
  lemma ClarifyingQuestionsBySet(a: seq<string>, b: seq<string>)
    requires forall f :: Tag(f) in a <==> Tag(f) in b
    ensures ClarifyingQuestions(a) == ClarifyingQuestions(b)
  {
    var fa, fb := Asked(a), Asked(b);
    SameFlagsInOrder(fa, fb);
  }

  /** Two lists in canonical order with the same members are equal. */
  lemma {:induction false} SameFlagsInOrder(a: seq<Flag>, b: seq<Flag>)
    requires InOrder(a) && InOrder(b)
    requires forall f :: f in a <==> f in b
    ensures a == b
    decreases |a| + |b|
  {
    assert a != [] ==> a[0] in b;
    assert b != [] ==> b[0] in a;
    if a != [] && b != [] {
      // the first element is the least-ranked member of each list
      RankInjective(a[0], b[0]);
      forall f ensures f in a[1..] <==> f in b[1..] {
        if f in a[1..] {
          var j :| 0 <= j < |a| - 1 && a[1..][j] == f;
          assert Rank(a[0]) < Rank(a[j + 1]);
          assert f in a;
          var k :| 0 <= k < |b| && b[k] == f;
          assert k != 0;
          assert b[1..][k - 1] == f;
        }
        if f in b[1..] {
          var j :| 0 <= j < |b| - 1 && b[1..][j] == f;
          assert Rank(b[0]) < Rank(b[j + 1]);
          assert f in b;
          var k :| 0 <= k < |a| && a[k] == f;
          assert k != 0;
          assert a[1..][k - 1] == f;
        }
      }
      SameFlagsInOrder(a[1..], b[1..]);
      assert a == [a[0]] + a[1..] && b == [b[0]] + b[1..];
    }
  }

  lemma RankInjective(f: Flag, g: Flag)
    ensures Rank(f) == Rank(g) ==> f == g
  {
  }

  lemma TagsMembers(fs: seq<Flag>)
    ensures forall f :: Tag(f) in Tags(fs) <==> f in fs
  {
    var r := Tags(fs);
    forall f ensures Tag(f) in r <==> f in fs {
      if Tag(f) in r {
        var i :| 0 <= i < |r| && r[i] == Tag(f);
        TagInjective(f, fs[i]);
      }
      if f in fs {
        var i :| 0 <= i < |fs| && fs[i] == f;
        assert r[i] == Tag(f);
      }
    }
  }

  /** Asking about a list of flags in canonical order gives their questions
      in that order. */
  lemma AskAboutFlags(fs: seq<Flag>)
    requires InOrder(fs)
    ensures ClarifyingQuestions(Tags(fs)) == Questions(fs)
  {
    TagsMembers(fs);
    SameFlagsInOrder(Asked(Tags(fs)), fs);
  }

  /** Asking about what `detect` found gives its questions in its order. */
  lemma QuestionsForDetected(text: string, p: Prefs)
    ensures ClarifyingQuestions(Tags(Detect(text, p))) == Questions(Detect(text, p))
  {
    AskAboutFlags(Detect(text, p));
  }
}
