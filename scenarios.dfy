/** Concrete conversations: the year-clarification test and the two turns of
    the command-line demo, worked through the model.

    The verifier cannot search a long literal string for a word, so the
    texts are split into pieces that end in a space: a word without spaces
    that occurs in none of the pieces occurs nowhere (`NotContainsAcrossSpace`),
    and each piece is searched by the character scan `ContainsFrom`. */
module Scenarios {
  import opened Text
  import opened Memory
  import opened Preferences
  import opened Detector
  import opened Manager

  // ---------------------------------------------------------------------------
  // Canonical flag lists

  /** Membership in canonical order decides a flag list. */
  lemma FlagsExactly(r: seq<Flag>, fs: seq<Flag>)
    requires InOrder(r) && InOrder(fs)
    requires (CountryFieldChoice in r <==> CountryFieldChoice in fs) && (MissingYear in r <==> MissingYear in fs)
    requires (DateFieldChoice in r <==> DateFieldChoice in fs) && (MissingTopN in r <==> MissingTopN in fs)
    requires (MissingMetric in r <==> MissingMetric in fs) && (NetVsGross in r <==> NetVsGross in fs)
    requires (RegionVsCountry in r <==> RegionVsCountry in fs)
    ensures r == fs
  {
    forall f ensures f in r <==> f in fs {
      EveryFlag(f);
    }
    SameFlagsInOrder(r, fs);
  }

  // ---------------------------------------------------------------------------
  // The test: "Revenue in Q2" asks for the year

  const YearTest := "Revenue in Q2"
  const YearTestLower := "revenue " + "in " + "q2"

  lemma YearTestFacts()
    ensures ToLower(YearTest) == YearTestLower
    ensures YearRaised(YearTestLower)
  {
    ContainsScan("revenue ", "20");
    ContainsScan("in ", "20");
    ContainsScan("q2", "20");
    assert NoSpace("20");
    NotContainsAcrossSpace("revenue ", "in ", "20");
    NotContainsAcrossSpace("revenue " + "in ", "q2", "20");
    YearNeedsTwenty(YearTestLower);
    assert OccursAt(YearTestLower, "q2", 11);
  }

  /** Whatever was said before, "Revenue in Q2" is answered with questions,
      and one of them is the year question, which speaks of a year. */
  lemma YearClarification(k: int, s: Session)
    ensures var res := Step(k, s, YearTest).1;
      && res.Clarify? && Question(MissingYear) in res.questions
      && exists q :: q in res.questions && Contains(ToLower(q), "year")
  {
    YearTestFacts();
    var p := Integrate(s.prefs, YearTest);
    RespondAsks(k, Window(s.turns + [Turn(User, YearTest)], k), p, Detect(YearTest, p), MissingYear);
    YearQuestionMentionsYear();
  }

  // ---------------------------------------------------------------------------
  // The demo's first turn: "Top products in Q2"

  const DemoFirst := "Top products in Q2"
  const FirstRest := "products " + "in " + "q2"
  const FirstLower := "top " + FirstRest

  lemma FirstLowered()
    ensures ToLower(DemoFirst) == FirstLower
  {
  }

  lemma FirstRestLacks(sub: string)
    requires NoSpace(sub)
    requires !ContainsFrom("products ", sub, 0) && !ContainsFrom("in ", sub, 0) && !ContainsFrom("q2", sub, 0)
    ensures !Contains(FirstRest, sub)
  {
    ContainsScan("products ", sub);
    ContainsScan("in ", sub);
    ContainsScan("q2", sub);
    NotContainsAcrossSpace("products ", "in ", sub);
    NotContainsAcrossSpace("products " + "in ", "q2", sub);
  }

  lemma FirstLacks(sub: string)
    requires NoSpace(sub) && !ContainsFrom("top ", sub, 0)
    requires !ContainsFrom("products ", sub, 0) && !ContainsFrom("in ", sub, 0) && !ContainsFrom("q2", sub, 0)
    ensures !Contains(FirstLower, sub)
  {
    ContainsScan("top ", sub);
    FirstRestLacks(sub);
    NotContainsAcrossSpace("top ", FirstRest, sub);
  }

  /** `top` is followed by a word, not a number: no `top_n` is read. */
  lemma FirstTopNumber()
    ensures TopNumber(FirstLower) == None
  {
    FirstRestLacks("top");
    forall j: nat ensures !TopMatchAt(FirstLower, j) {
      if j >= 4 && j + 3 <= |FirstLower| {
        assert FirstLower[j..j + 3] == FirstRest[j - 4..j - 1];
        assert !OccursAt(FirstRest, "top", j - 4);
      } else if j == 0 {
        assert SkipSpace(FirstLower, 3) == 4;
      } else if 1 <= j <= 3 {
        assert FirstLower[j..j + 3][3 - j] == ' ';
      }
    }
    TopNumberFromSpec(FirstLower, 0);
  }

  /** ... and so the bare `top` of the detector matches at the start. */
  lemma FirstBareTop()
    ensures BareTopAt(FirstLower, 0)
  {
    assert SkipSpace(FirstLower, 3) == 4;
    assert FirstLower[0..3] == "top";
  }

  lemma FirstPlace()
    ensures CountryFrom(FirstLower) == None && DateFrom(FirstLower) == None
  {
    FirstLacks("country");
    FirstLacks("date");
    assert "shippeddate"[7..11] == "ship date"[5..9] == "orderdate"[5..9] == "date";
    ContainsPart(FirstLower, "shippeddate", 7, 11);
    ContainsPart(FirstLower, "ship date", 5, 9);
    ContainsPart(FirstLower, "orderdate", 5, 9);
  }

  lemma FirstMetric()
    ensures MetricFrom(FirstLower) == None && NetFrom(FirstLower) == None
  {
    FirstLacks("order");
    FirstLacks("quantity");
    FirstLacks("revenue");
    assert "orders"[0..5] == "order count"[0..5] == "order";
    ContainsPart(FirstLower, "orders", 0, 5);
    ContainsPart(FirstLower, "order count", 0, 5);
  }

  lemma FirstGranularity()
    ensures GranularityFrom(FirstLower) == Some(Quarter)
  {
    FirstLacks("month");
    assert OccursAt(FirstLower, "q2", 16);
  }

  /** The first turn only settles the granularity: a quarter. */
  lemma IntegrateFirst(p: Prefs)
    ensures Integrate(p, DemoFirst) == p.(granularity := Some(Quarter))
  {
    FirstLowered();
    FirstPlace();
    FirstMetric();
    FirstTopNumber();
    FirstGranularity();
  }

  lemma FirstQuiet(p: Prefs)
    ensures !CountryChoiceRaised(FirstLower, p) && !DateChoiceRaised(FirstLower, p)
    ensures !NetGrossRaised(FirstLower, p) && !RegionRaised(FirstLower)
  {
    FirstLacks("country");
    FirstLacks("date");
    FirstLacks("revenue");
    FirstLacks("region");
    FirstLacks("market");
  }

  lemma FirstYear()
    ensures YearRaised(FirstLower)
  {
    FirstLacks("20");
    YearNeedsTwenty(FirstLower);
    assert OccursAt(FirstLower, "q2", 16);
  }

  lemma FirstNoMetric()
    ensures !MentionsMetric(FirstLower)
  {
    FirstLacks("revenue");
    FirstLacks("quantity");
    FirstLacks("order");
    FirstLacks("sales");
    assert "orders"[0..5] == "order";
    ContainsPart(FirstLower, "orders", 0, 5);
  }

  lemma FirstMembers(p: Prefs)
    requires !TopNSet(p) && p.metric.None?
    ensures CountryFieldChoice !in Detect(DemoFirst, p) && MissingYear in Detect(DemoFirst, p)
    ensures DateFieldChoice !in Detect(DemoFirst, p) && MissingTopN in Detect(DemoFirst, p)
    ensures MissingMetric in Detect(DemoFirst, p) && NetVsGross !in Detect(DemoFirst, p)
    ensures RegionVsCountry !in Detect(DemoFirst, p)
  {
    FirstLowered();
    FirstQuiet(p);
    FirstYear();
    FirstNoMetric();
    FirstBareTop();
    assert OccursAt(FirstLower, "top", 0);
  }

  const FirstFlags := [MissingYear, MissingTopN, MissingMetric]
  const FirstQuestions := [YearQuestion, TopNQuestion, MetricQuestion]
  const FirstReply := ClarificationReply(FirstQuestions)

  lemma FirstFlagsAsked()
    ensures InOrder(FirstFlags) && Questions(FirstFlags) == FirstQuestions
  {
  }

  /** Without a metric and a `top_n`, the first text lacks a year, a count and a metric. */
  lemma DetectFirst(p: Prefs)
    requires !TopNSet(p) && p.metric.None?
    ensures Detect(DemoFirst, p) == FirstFlags
  {
    FirstMembers(p);
    FirstFlagsAsked();
    FlagsExactly(Detect(DemoFirst, p), FirstFlags);
  }

  /** The first turn of the demo: three questions, in canonical order, and the
      quarter remembered. */
  lemma FirstStep(k: int, s: Session)
    requires !TopNSet(s.prefs) && s.prefs.metric.None?
    ensures var (s', res) := Step(k, s, DemoFirst);
      && s'.prefs == s.prefs.(granularity := Some(Quarter))
      && s'.turns == Window(Window(s.turns + [Turn(User, DemoFirst)], k) + [Turn(Assistant, FirstReply)], k)
      && res == Clarify(FirstQuestions, FirstReply)
  {
    IntegrateFirst(s.prefs);
    var p := s.prefs.(granularity := Some(Quarter));
    DetectFirst(p);
    FirstFlagsAsked();
    RespondClarify(k, Window(s.turns + [Turn(User, DemoFirst)], k), p, Detect(DemoFirst, p));
  }

  // ---------------------------------------------------------------------------
  // The demo's second turn: "Q2 2024 by revenue net after discount ShipCountry"

  const SecondHead := "Q2 2024 by revenue "
  const SecondTail := "net after discount ShipCountry"
  const DemoSecond := SecondHead + SecondTail
  const SecondHeadLower := "q2 " + "2024 " + "by " + "revenue "
  const SecondTailLower := "net " + "after " + "discount " + "shipcountry"
  const SecondLower := SecondHeadLower + SecondTailLower

  lemma SecondHeadLowered()
    ensures ToLower(SecondHead) == SecondHeadLower
  {
  }

  lemma SecondTailLowered()
    ensures ToLower(SecondTail) == SecondTailLower
  {
  }

  lemma SecondLowered()
    ensures ToLower(DemoSecond) == SecondLower
  {
    ToLowerAppend(SecondHead, SecondTail);
    SecondHeadLowered();
    SecondTailLowered();
  }

  lemma SecondLacks(sub: string)
    requires NoSpace(sub)
    requires !ContainsFrom("q2 ", sub, 0) && !ContainsFrom("2024 ", sub, 0)
    requires !ContainsFrom("by ", sub, 0) && !ContainsFrom("revenue ", sub, 0)
    requires !ContainsFrom("net ", sub, 0) && !ContainsFrom("after ", sub, 0)
    requires !ContainsFrom("discount ", sub, 0) && !ContainsFrom("shipcountry", sub, 0)
    ensures !Contains(SecondLower, sub)
  {
    ContainsScan("q2 ", sub);
    ContainsScan("2024 ", sub);
    ContainsScan("by ", sub);
    ContainsScan("revenue ", sub);
    ContainsScan("net ", sub);
    ContainsScan("after ", sub);
    ContainsScan("discount ", sub);
    ContainsScan("shipcountry", sub);
    NotContainsAcrossSpace("q2 ", "2024 ", sub);
    NotContainsAcrossSpace("q2 " + "2024 ", "by ", sub);
    NotContainsAcrossSpace("q2 " + "2024 " + "by ", "revenue ", sub);
    NotContainsAcrossSpace("net ", "after ", sub);
    NotContainsAcrossSpace("net " + "after ", "discount ", sub);
    NotContainsAcrossSpace("net " + "after " + "discount ", "shipcountry", sub);
    NotContainsAcrossSpace(SecondHeadLower, SecondTailLower, sub);
  }

  // One word at a time: each search of the eight pieces is a proof of its own.

  lemma SecondLacksDate() ensures !Contains(SecondLower, "date") { SecondLacks("date"); }
  lemma SecondLacksOrder() ensures !Contains(SecondLower, "order") { SecondLacks("order"); }
  lemma SecondLacksQuantity() ensures !Contains(SecondLower, "quantity") { SecondLacks("quantity"); }
  lemma SecondLacksGross() ensures !Contains(SecondLower, "gross") { SecondLacks("gross"); }
  lemma SecondLacksTop() ensures !Contains(SecondLower, "top") { SecondLacks("top"); }
  lemma SecondLacksBest() ensures !Contains(SecondLower, "best") { SecondLacks("best"); }
  lemma SecondLacksMonth() ensures !Contains(SecondLower, "month") { SecondLacks("month"); }
  lemma SecondLacksRegion() ensures !Contains(SecondLower, "region") { SecondLacks("region"); }
  lemma SecondLacksMarket() ensures !Contains(SecondLower, "market") { SecondLacks("market"); }

  lemma SecondMentions()
    ensures Contains(SecondLower, "q2") && Contains(SecondLower, "ship")
    ensures Contains(SecondLower, "country") && Contains(SecondLower, "revenue")
    ensures Contains(SecondLower, "net")
  {
    assert OccursAt(SecondLower, "q2", 0);
    assert OccursAt(SecondLower, "revenue", 11);
    assert OccursAt(SecondLower, "net", 19);
    assert OccursAt(SecondLower, "ship", 38);
    assert OccursAt(SecondLower, "country", 42);
  }

  /** `2024` is a year: a whole word `20dd`. */
  lemma SecondYear()
    ensures HasYear(SecondLower)
  {
    assert SecondLower[2] == ' ' && SecondLower[7] == ' ';
    assert SecondLower[3] == '2' && SecondLower[4] == '0';
    assert SecondLower[5] == '2' && SecondLower[6] == '4';
    assert YearAt(SecondLower, 3);
  }

  lemma SecondPlace()
    ensures CountryFrom(SecondLower) == Some(ShipCountry) && DateFrom(SecondLower) == None
  {
    SecondMentions();
    SecondLacksDate();
    assert "shippeddate"[7..11] == "ship date"[5..9] == "orderdate"[5..9] == "date";
    ContainsPart(SecondLower, "shippeddate", 7, 11);
    ContainsPart(SecondLower, "ship date", 5, 9);
    ContainsPart(SecondLower, "orderdate", 5, 9);
  }

  lemma SecondMetric()
    ensures MetricFrom(SecondLower) == Some(Revenue) && NetFrom(SecondLower) == Some(true)
  {
    SecondMentions();
    SecondLacksOrder();
    SecondLacksQuantity();
    SecondLacksGross();
    assert "orders"[0..5] == "order count"[0..5] == "order";
    ContainsPart(SecondLower, "orders", 0, 5);
    ContainsPart(SecondLower, "order count", 0, 5);
  }

  lemma SecondTopAndGranularity()
    ensures TopNumber(SecondLower) == None && !BareTop(SecondLower)
    ensures GranularityFrom(SecondLower) == Some(Quarter)
  {
    SecondMentions();
    SecondLacksTop();
    SecondLacksMonth();
    TopNumberFromSpec(SecondLower, 0);
    BareTopNeedsTop(SecondLower);
  }

  /** The second turn settles the country field, net revenue and the quarter. */
  lemma IntegrateSecond(p: Prefs)
    ensures Integrate(p, DemoSecond) ==
      p.(countryField := Some(ShipCountry), metric := Some(Revenue), netRevenue := Some(true),
         granularity := Some(Quarter))
  {
    SecondLowered();
    SecondPlace();
    SecondMetric();
    SecondTopAndGranularity();
  }

  lemma SecondMembers(p: Prefs)
    requires p.countryField.Some?
    ensures CountryFieldChoice !in Detect(DemoSecond, p) && MissingYear !in Detect(DemoSecond, p)
    ensures DateFieldChoice !in Detect(DemoSecond, p) && MissingTopN !in Detect(DemoSecond, p)
    ensures MissingMetric !in Detect(DemoSecond, p) && NetVsGross !in Detect(DemoSecond, p)
    ensures RegionVsCountry !in Detect(DemoSecond, p)
  {
    SecondLowered();
    SecondMentions();
    SecondYear();
    SecondLacksDate();
    SecondTopAndGranularity();
    SecondLacksBest();
    SecondLacksRegion();
    SecondLacksMarket();
  }

  /** Once a country field is known, the second text leaves nothing to ask. */
  lemma DetectSecond(p: Prefs)
    requires p.countryField.Some?
    ensures Detect(DemoSecond, p) == []
  {
    SecondMembers(p);
    FlagsExactly(Detect(DemoSecond, p), []);
  }

  /** The second turn of the demo proceeds, with the transcript and the hints
      of whatever the preferences now hold. */
  lemma SecondStep(k: int, s: Session)
    ensures var (s', res) := Step(k, s, DemoSecond);
      var prefs := s.prefs.(countryField := Some(ShipCountry), metric := Some(Revenue),
                            netRevenue := Some(true), granularity := Some(Quarter));
      && s' == Session(Window(s.turns + [Turn(User, DemoSecond)], k), prefs)
      && res == Proceed(Transcript(s'.turns), HintsBlock(Hints(prefs)))
  {
    IntegrateSecond(s.prefs);
    DetectSecond(Integrate(s.prefs, DemoSecond));
  }

  const AfterDemo := Prefs(Some(ShipCountry), None, Some(Revenue), Some(true), None, Some(Quarter))

  lemma AfterDemoHints()
    ensures HintsBlock(Hints(AfterDemo)) == Join([ShipCountryHint, NetRevenueHint, QuarterHint], "\n")
  {
    assert Hints(AfterDemo) == [ShipCountryHint, NetRevenueHint, QuarterHint];
  }

  /** From a fresh session with room for two turns, the first turn leaves
      the user's text and the questions in memory. */
  lemma DemoFirstFromFresh(k: int, s0: Session)
    requires k >= 1 && s0 == Session([], NoPrefs)
    ensures var (s1, out1) := Step(k, s0, DemoFirst);
      && out1 == Clarify(FirstQuestions, FirstReply)
      && s1 == Session([Turn(User, DemoFirst)] + [Turn(Assistant, FirstReply)], NoPrefs.(granularity := Some(Quarter)))
  {
    FirstStep(k, s0);
    var u := [Turn(User, DemoFirst)];
    WindowOfShort(s0.turns + u, k);
    WindowOfShort(Window(s0.turns + u, k) + [Turn(Assistant, FirstReply)], k);
    assert s0.turns + u == u;
  }

  /** The whole demo from a fresh manager with room for three turns: first the
      three questions, then the transcript of the exchange so far and the
      three hints the answers settled. */
  lemma DemoConversation(k: int)
    requires k >= 2
    ensures var (s1, out1) := Step(k, Session([], NoPrefs), DemoFirst);
      var (s2, out2) := Step(k, s1, DemoSecond);
      && out1 == Clarify(FirstQuestions, FirstReply)
      && s2.turns == [Turn(User, DemoFirst)] + [Turn(Assistant, FirstReply)] + [Turn(User, DemoSecond)]
      && s2.prefs == AfterDemo
      && out2 == Proceed(Transcript(s2.turns), Join([ShipCountryHint, NetRevenueHint, QuarterHint], "\n"))
  {
    DemoFirstFromFresh(k, Session([], NoPrefs));
    var s1 := Step(k, Session([], NoPrefs), DemoFirst).0;
    SecondStep(k, s1);
    WindowOfShort(s1.turns + [Turn(User, DemoSecond)], k);
    AfterDemoHints();
  }
}

/** The fallback of the demo script: an executor result without an error
    text is reported as "Unknown error". */
module ErrorScenarios {
  import opened Text
  import opened Errors

  const UnknownError := "Unknown error"
  const UnknownErrorLower := "unknown " + "error"

  lemma UnknownErrorLacks(sub: string)
    requires NoSpace(sub) && !ContainsFrom("unknown ", sub, 0) && !ContainsFrom("error", sub, 0)
    ensures !Contains(UnknownErrorLower, sub)
  {
    ContainsScan("unknown ", sub);
    ContainsScan("error", sub);
    NotContainsAcrossSpace("unknown ", "error", sub);
  }

  /** None of the four known failures is recognised: the generic apology. */
  lemma UnknownErrorIsGeneric()
    ensures NormalizeError(UnknownError) == GenericMessage
  {
    assert ToLower(UnknownError) == UnknownErrorLower;
    UnknownErrorLacks("such");
    UnknownErrorLacks("ambiguous");
    UnknownErrorLacks("syntax");
    UnknownErrorLacks("timeout");
    assert "no such column"[3..7] == "such" && "ambiguous column"[0..9] == "ambiguous";
    assert "syntax error"[0..6] == "syntax";
    ContainsPart(UnknownErrorLower, "no such column", 3, 7);
    ContainsPart(UnknownErrorLower, "ambiguous column", 0, 9);
    ContainsPart(UnknownErrorLower, "syntax error", 0, 6);
  }

  /** SQLite's message for a missing column is recognised whatever its case. */
  lemma MissingColumnRecognised()
    ensures NormalizeError("No such column: Foo") == NoColumnMessage
  {
    assert ToLower("No such column: Foo")[0..14] == "no such column";
    assert OccursAt(ToLower("No such column: Foo"), "no such column", 0);
  }
}

/** The steps of the test and of the demo script, performed on a fresh
    manager object (with the default memory size of five exchanges). */
module ScenarioRuns {
  import opened Text
  import opened Preferences
  import opened Detector
  import opened Manager
  import opened Scenarios

  /** A fresh manager asked "Revenue in Q2" asks for clarification, and some
      question mentions the year. */
  method YearClarificationRun() returns (step: StepResult)
    ensures step.Clarify?
    ensures exists q :: q in step.questions && Contains(ToLower(q), "year")
  {
    var cm := new ConversationManager(DefaultMemoryK);
    step := cm.NextAction(YearTest);
    YearClarification(cm.memory.k, Session([], NoPrefs));
  }

  /** The demo: questions for the vague request, then the context and the
      hints once the user has answered. */
  method DemoRun() returns (first: StepResult, second: StepResult)
    ensures first == Clarify(FirstQuestions, FirstReply)
    ensures second.Proceed?
    ensures second.preferenceHints == Join([ShipCountryHint, NetRevenueHint, QuarterHint], "\n")
  {
    var cm := new ConversationManager(DefaultMemoryK);
    first := cm.NextAction(DemoFirst);
    second := cm.NextAction(DemoSecond);
    DemoConversation(cm.memory.k);
  }
}
