/** The per-turn driver: record the user turn, integrate it into the
    preferences, detect ambiguities, then either ask clarifying questions
    (recorded as an assistant turn) or hand back the transcript and the
    preference hints. */
module Manager {
  import opened Text
  import opened Memory
  import opened Preferences
  import opened Detector

  /** The two shapes of the dictionary `next_action` returns
      (`need_clarification` true or false). */
  datatype StepResult =
    | Clarify(questions: seq<string>, reply: string)
    | Proceed(context: string, preferenceHints: string)

  /** The assistant's reply listing the questions as bullets. */
  function ClarificationReply(qs: seq<string>): string {
    "Clarification needed:\n- " + Join(qs, "\n- ")
  }

  /** The hints, one per line, or `None` when there are none. */
  function HintsBlock(hs: seq<string>): string {
    var joined := Join(hs, "\n");
    if joined == "" then "None" else joined
  }

  /** What a conversation has accumulated: the retained turns and the preferences. */
  datatype Session = Session(turns: seq<Turn>, prefs: Prefs)

  /** The answer once the turn is recorded and the flags are known: the
      questions, recorded as an assistant turn, or the context and hints. */
  function Respond(k: int, turns: seq<Turn>, prefs: Prefs, flags: seq<Flag>): (Session, StepResult) {
    if flags != [] then
      var qs := ClarifyingQuestions(Tags(flags));
      var reply := ClarificationReply(qs);
      (Session(Window(turns + [Turn(Assistant, reply)], k), prefs), Clarify(qs, reply))
    else
      (Session(turns, prefs), Proceed(Transcript(turns), HintsBlock(Hints(prefs))))
  }

  /** One call of `next_action` with memory size `k`: the new session and the result. */
  function Step(k: int, s: Session, text: string): (Session, StepResult) {
    var prefs := Integrate(s.prefs, text);
    Respond(k, Window(s.turns + [Turn(User, text)], k), prefs, Detect(text, prefs))
  }

  lemma RespondRecordsTurns(k: int, turns: seq<Turn>, prefs: Prefs, flags: seq<Flag>, text: string)
    requires k >= 1 && |turns| <= 2 * k && EndsWith(turns, [Turn(User, text)])
    ensures var r := Respond(k, turns, prefs, flags);
      && |r.0.turns| <= 2 * k
      && (r.1.Proceed? ==> EndsWith(r.0.turns, [Turn(User, text)]))
      && (r.1.Clarify? ==> EndsWith(r.0.turns, [Turn(User, text), Turn(Assistant, r.1.reply)]))
  {
    if flags != [] {
      var reply := ClarificationReply(ClarifyingQuestions(Tags(flags)));
      WindowKeepsLastTwo(turns, Turn(User, text), Turn(Assistant, reply), k);
    }
  }

  /** The memory stays within `2k` turns and its newest turns are this
      exchange: the user's text, then the reply when one was given. */
  lemma StepRecordsTurns(k: int, s: Session, text: string)
    requires k >= 1 && |s.turns| <= 2 * k
    ensures var r := Step(k, s, text);
      && |r.0.turns| <= 2 * k
      && (r.1.Proceed? ==> EndsWith(r.0.turns, [Turn(User, text)]))
      && (r.1.Clarify? ==> EndsWith(r.0.turns, [Turn(User, text), Turn(Assistant, r.1.reply)]))
  {
    WindowKeepsNewest(s.turns + [Turn(User, text)], k);
    var prefs := Integrate(s.prefs, text);
    RespondRecordsTurns(k, Window(s.turns + [Turn(User, text)], k), prefs, Detect(text, prefs), text);
  }

  /** Questions are asked exactly when flags were raised; the question
      about `f` is among them exactly when `f` was raised. */
  lemma RespondAsks(k: int, turns: seq<Turn>, prefs: Prefs, flags: seq<Flag>, f: Flag)
    ensures var res := Respond(k, turns, prefs, flags).1;
      && (res.Clarify? <==> flags != [])
      && (res.Clarify? && Question(f) in res.questions <==> f in flags)
  {
    TagsMembers(flags);
  }

  /** With flags in canonical order, the questions are theirs, in that order. */
  lemma RespondClarify(k: int, turns: seq<Turn>, prefs: Prefs, flags: seq<Flag>)
    requires flags != [] && InOrder(flags)
    ensures var reply := ClarificationReply(Questions(flags));
      Respond(k, turns, prefs, flags) ==
        (Session(Window(turns + [Turn(Assistant, reply)], k), prefs), Clarify(Questions(flags), reply))
  {
    AskAboutFlags(flags);
  }

  /** The result: questions exactly when something was detected after the
      answer was integrated, those questions in detection order; otherwise
      the transcript of the retained turns and the hints. */
  lemma StepResultShape(k: int, s: Session, text: string)
    ensures var r := Step(k, s, text);
      var flags := Detect(text, Integrate(s.prefs, text));
      && r.0.prefs == Integrate(s.prefs, text)
      && (r.1.Clarify? <==> flags != [])
      && (r.1.Clarify? ==> r.1.questions == Questions(flags) &&
                           r.1.reply == ClarificationReply(Questions(flags)))
      && (r.1.Proceed? ==> r.1.context == Transcript(r.0.turns) &&
                           r.1.preferenceHints == HintsBlock(Hints(r.0.prefs)))
  {
    QuestionsForDetected(text, Integrate(s.prefs, text));
  }

  /** The answer `a` (lower-cased) itself settles the preference `f` asks about. */
  predicate ResolvedNow(a: string, f: Flag) {
    match f
    case CountryFieldChoice => CountryFrom(a).Some?
    case DateFieldChoice => DateFrom(a).Some?
    case MissingMetric => MetricFrom(a).Some?
    case NetVsGross => NetFrom(a).Some?
    case MissingTopN => TopNumber(a).Some? && TopNumber(a).value != 0
    case _ => false
  }

  /** An answer that resolves a preference in this turn already silences the
      question about it: integration comes before detection. */
  lemma StepResolvedNotAsked(k: int, s: Session, text: string, f: Flag)
    requires ResolvedNow(ToLower(text), f)
    ensures var res := Step(k, s, text).1;
      !(res.Clarify? && Question(f) in res.questions)
  {
    var p := Integrate(s.prefs, text);
    DetectSilencedByPreference(text, p);
    RespondAsks(k, Window(s.turns + [Turn(User, text)], k), p, Detect(text, p), f);
  }

  /** A mention of a region or market is asked about on every turn, whatever
      has been resolved before. */
  lemma StepAsksRegionAgain(k: int, s: Session, text: string)
    requires Contains(ToLower(text), "region") || Contains(ToLower(text), "market")
    ensures var res := Step(k, s, text).1;
      res.Clarify? && Question(RegionVsCountry) in res.questions
  {
    var p := Integrate(s.prefs, text);
    DetectRegion(text, p);
    RespondAsks(k, Window(s.turns + [Turn(User, text)], k), p, Detect(text, p), RegionVsCountry);
  }

  /** Every hint is at least twelve characters long. */
  lemma HintsLong(p: Prefs)
    ensures forall h | h in Hints(p) :: |h| >= 12
  {
    var c := if p.countryField.Some? then [CountryHint(p.countryField.value)] else [];
    var d := if p.dateField.Some? then [DateHint(p.dateField.value)] else [];
    var m := if p.metric.Some? then [MetricHint(p.metric.value, p.netRevenue)] else [];
    var l := if TopNSet(p) then [LimitHint(p.topN.value)] else [];
    var g := if p.granularity.Some? then [GranularityHint(p.granularity.value)] else [];
    assert Hints(p) == c + d + m + l + g;
    assert |NetRevenueHint| >= 12 && |GrossRevenueHint| >= 12;
  }

  lemma JoinAtLeastFirst(hs: seq<string>, sep: string)
    requires |hs| >= 1
    ensures |Join(hs, sep)| >= |hs[0]|
  {
  }

  /** The hints block reads `None` exactly when no field yields a hint. */
  lemma HintsBlockNone(p: Prefs)
    ensures HintsBlock(Hints(p)) == "None" <==> ResolvedCount(p) == 0
  {
    if Hints(p) != [] {
      HintsLong(p);
      assert Hints(p)[0] in Hints(p);
      JoinAtLeastFirst(Hints(p), "\n");
    }
  }

  /** The memory size when `MEMORY_K` is not set. */
  const DefaultMemoryK := 5

  /** The driver: one memory and one preference store per conversation. */
  class ConversationManager {
    const memory: ConversationMemory
    const prefs: PreferenceStore

    ghost predicate Valid()
      reads this, memory
    {
      memory.Valid()
    }

    /** The state as a session value. */
    function State(): Session
      reads this, memory, prefs
    {
      Session(memory.turns, prefs.View())
    }

    constructor (k: int)
      requires k >= 1
      ensures Valid() && fresh(memory) && fresh(prefs)
      ensures memory.k == k && State() == Session([], NoPrefs)
    {
      memory := new ConversationMemory(k);
      prefs := new PreferenceStore();
    }

    /** `next_action`: record, integrate, detect, then answer. */
    method NextAction(userText: string) returns (res: StepResult)
      requires Valid()
      modifies memory, prefs
      ensures Valid()
      ensures (State(), res) == Step(memory.k, old(State()), userText)
    {
      memory.AddUser(userText);
      prefs.IntegrateAnswer(userText);
      var issues := Detect(userText, prefs.View());
      if issues != [] {
        var qs := ClarifyingQuestions(Tags(issues));
        var reply := ClarificationReply(qs);
        memory.AddAssistant(reply);
        return Clarify(qs, reply);
      }
      var context := memory.Context();
      var hints := HintsBlock(Hints(prefs.View()));
      return Proceed(context, hints);
    }
  }
}
