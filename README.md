# Conversation engine: a verified model

This project models the dialogue-disambiguation engine of a natural-language-to-SQL assistant (`conversation/manager.py`). Each call of `next_action` does four things in order:

1. It records the user's turn in a bounded memory.
2. It folds any answers in the text into six interpretive preferences. These are:
   - the country column;
   - the date column;
   - the metric;
   - net or gross revenue;
   - the number of rows;
   - the time granularity.
3. It runs seven independent ambiguity tests on the text.
4. It either asks the fixed clarifying questions for what is still ambiguous, recording them as an assistant turn, or hands back the transcript together with the preference hints for the SQL generator.

The model also covers the error normaliser, which turns a database error into one of five fixed messages.

Modules:

- `Text` (`text.dfy`): the text operations the engine relies on.
  - ASCII lower-casing and Python's `sub in s`.
  - The character classes `\s`, `\d` and `\w`.
  - Decimal numerals.
  - `sep.join` and `split`.
- `Memory` (`memory.dfy`): the turn memory.
  - `Window` is Python's `turns[-2*k:]`.
  - `Transcript` renders the turns as `User:`/`Assistant:` lines.
  - The class `ConversationMemory` mutates its `turns` in place.
- `Preferences` (`preferences.dfy`): the preference record and `integrate_answer`.
  - `Prefs` is the record of the six preferences as a value.
  - `Integrate` is `integrate_answer` as a function.
  - The three regular expressions are hand-written predicates: `TopMatchAt`, plus `YearAt` and `BareTopAt` in `Detector`.
  - `Hints` models `to_hints`, and `ReadFrom` is the inverse that reads hints back.
  - The class `PreferenceStore` assigns its fields step by step.
- `Detector` (`detector.dfy`): the seven flags in canonical order, `Detect` and `ClarifyingQuestions`.
- `Errors` (`errors.dfy`): `NormalizeError`.
- `Manager` (`manager.dfy`): the per-turn engine.
  - `Step` is the function that specifies one turn.
  - The class `ConversationManager` owns one memory and one preference store. Its `NextAction` is proved equal to `Step`.
- `Scenarios`, `ErrorScenarios` and `ScenarioRuns` (`scenarios.dfy`) work through concrete conversations:
  - the year-clarification test;
  - the two turns of the command-line demo;
  - the demo's error message.

Points where the code’s behaviour is easy to misread:

- **Question order.** `clarifying_questions` emits questions in the fixed order country, year, date, top-n, metric, net/gross, region. It does not use the order of its input.
- **Typographic characters.** The country question and the error messages contain the typographic characters `’` and `—`, and the model keeps them.
- **Zero `top_n`.** A `top_n` of 0 is stored. It is then treated as unset, because Python's `0` is falsy.
- **Memory size.** The code accepts a memory size `k <= 0`: with `k == 0` nothing is ever evicted. The model requires `k >= 1`; see "Left out".

## Model

| member | source | states |
|---|---|---|
| Text.ToLower | conversation/manager.py:67 | keeps the length and lower-cases each ASCII capital, leaving every other character as it is |
| Text.ToLowerIdempotent | conversation/manager.py:67 | lower-casing an already lower-cased text changes nothing |
| Text.ContainsScan | conversation/manager.py:68-82 | the left-to-right character scan succeeds exactly when `sub` occurs at some position of `s` (Python's `in`) |
| Text.SkipSpace | conversation/manager.py:78 | `\s*` stops at the first non-whitespace position at or after `j`, and everything it skipped is whitespace |
| Text.DigitRun | conversation/manager.py:78-79 | the captured `\d+` is all digits, lies in the text at `j`, and is maximal |
| Text.ParseNatToString | conversation/manager.py:61 | `int(str(n)) == n`, so the number in a `LIMIT` hint reads back unchanged |
| Text.SplitJoin | conversation/manager.py:25 | splitting a newline-joined list of newline-free lines at newlines gives the lines back |
| Memory.Window | conversation/manager.py:14 | `turns[-2*k:]`, Python's suffix slice clamped to the list; what it keeps is stated by `WindowKeepsNewest`, `WindowOfZero` and `WindowOfShort` |
| Memory.WindowKeepsNewest | conversation/manager.py:14 | with `k >= 1` the retained window has `min(2k, n)` turns and is the newest ones, in order |
| Memory.WindowOfZero | conversation/manager.py:14 | with `k == 0` the slice `[-0:]` keeps every turn |
| Memory.WindowOfShort | conversation/manager.py:14 | a history of at most `2k` turns is kept whole |
| Memory.WindowKeepsLastTwo | conversation/manager.py:12-18 | appending to a window keeps the previous newest turn directly before the new one |
| Memory.WindowOfWindow | conversation/manager.py:12-18 | truncating after each append equals truncating the whole history once |
| Memory.ReplayIsWindow | conversation/manager.py:12-18 | FIFO law: after any sequence of recordings the memory is exactly the newest `min(2k, n)` turns of the whole history, in order |
| Memory.TranscriptLines | conversation/manager.py:20-25 | the transcript is empty for no turns; otherwise, when no turn text contains a newline, it has one `User: `/`Assistant: ` line per turn, in order (clarification replies do contain newlines, so after a clarification the transcript has more lines than turns) |
| Memory.Transcript | conversation/manager.py:20-25 | the `User: `/`Assistant: ` line of each turn, joined by newlines; `TranscriptLines` states its lines and `ConversationMemory.Context` is proved to compute it |
| Memory.ConversationMemory.constructor | conversation/manager.py:7-10 | a new memory with size `k` has no turns |
| Memory.ConversationMemory.AddUser | conversation/manager.py:12-14 | the turns become the window of the old turns plus the user turn, and stay within `2k` |
| Memory.ConversationMemory.AddAssistant | conversation/manager.py:16-18 | the turns become the window of the old turns plus the assistant turn, and stay within `2k` |
| Memory.ConversationMemory.Context | conversation/manager.py:20-25 | the loop over the window builds exactly the transcript of the retained turns, changing nothing |
| Preferences.TopNumberFromSpec | conversation/manager.py:78 | `re.search(r"top\s*(\d+)")` finds nothing exactly when no position matches; otherwise it returns the number of the leftmost match |
| Preferences.Integrate | conversation/manager.py:66-82 | a field changes only when one of its trigger words occurs (net/gross only with `revenue`), and a resolved field is never reset |
| Preferences.IntegratePriority | conversation/manager.py:68-82 | within one answer, later rules win: ship over customer, shipped date over order date, gross over net, orders over quantity over revenue, month over quarter over year |
| Preferences.IntegrateTopN | conversation/manager.py:78-79 | `top_n` becomes the number of the first `top<digits>` match, even inside a longer word |
| Preferences.IntegrateIdempotent | conversation/manager.py:66-82 | integrating the same answer twice is integrating it once |
| Preferences.IntegrateIgnoresCase | conversation/manager.py:67 | the answer is read case-insensitively |
| Preferences.PreferenceStore.constructor | conversation/manager.py:29-36 | a new store has every field unset |
| Preferences.PreferenceStore.IntegrateAnswer | conversation/manager.py:66-82 | the in-place rule sequence leaves the store equal to `Integrate` of the old store |
| Preferences.PreferenceStore.ResolveCountry | conversation/manager.py:68-69 | only the country field changes, to the field the answer names, if any |
| Preferences.PreferenceStore.ResolveDate | conversation/manager.py:70-71 | only the date field changes; the shipped-date rule overwrites the order-date rule |
| Preferences.PreferenceStore.ResolveMetric | conversation/manager.py:72-77 | only the metric and net/gross fields change, as the revenue block and the later quantity and orders rules decide |
| Preferences.PreferenceStore.ResolveTopN | conversation/manager.py:78-79 | only `top_n` changes, to the number the search captures, if any |
| Preferences.PreferenceStore.ResolveGranularity | conversation/manager.py:80-82 | only the granularity changes, to the first of month, quarter, year that the answer mentions |
| Preferences.TopMatchAt | conversation/manager.py:78 | `top\s*(\d+)` matches at a position: `top`, optional whitespace, then a digit, with no word boundary |
| Preferences.TopNumber | conversation/manager.py:78-79 | the integer captured by the leftmost match, or none; `TopNumberFromSpec` states this |
| Preferences.CountryFrom | conversation/manager.py:68-69 | ship country when the answer says `ship` and `country`, else customer country when it says `customer` and `country`, else nothing |
| Preferences.DateFrom | conversation/manager.py:70-71 | shipped date for `shippeddate` or `ship date` (the later rule wins), else order date for `orderdate`, else nothing |
| Preferences.MetricFrom | conversation/manager.py:72-77 | orders for `orders` or `order count`, else quantity for `quantity`, else revenue for `revenue` (the last rule that fires wins) |
| Preferences.NetFrom | conversation/manager.py:72-75 | only with `revenue`: gross (False) for `gross`, else net (True) for `net` or `discount`, else nothing |
| Preferences.GranularityFrom | conversation/manager.py:80-82 | the first of month, quarter (`quarter`, `q1`-`q4`), year that the answer mentions |
| Preferences.FixedHints | conversation/manager.py:40-63 | each fixed hint is ranked with its own field, and no granularity hint looks like a LIMIT hint |
| Preferences.LimitHint | conversation/manager.py:60-61 | `Use LIMIT <n>.` has the LIMIT shape, carries the numeral of `n` and is none of the fixed hints |
| Preferences.Hints | conversation/manager.py:38-64 | one hint per resolved field, at most five; a zero `top_n` yields none |
| Preferences.HintRanks | conversation/manager.py:40-63 | the country, date, metric and granularity hints belong to fields 0, 1, 2 and 4 |
| Preferences.FieldHintsOrdered | conversation/manager.py:40-59 | the country, date and metric hints come in that order, at most one each |
| Preferences.HintsOrdered | conversation/manager.py:38-64 | the hints come in the order country, date, metric, top-n, granularity, at most one per field, each a recognised hint |
| Preferences.ReadCountryHint | conversation/manager.py:40-44 | the country hint reads back as its field |
| Preferences.ReadDateHint | conversation/manager.py:45-46 | the date hint reads back as its field |
| Preferences.ReadMetricHint | conversation/manager.py:47-59 | the metric hint reads back as its metric and, for revenue, as net (True), gross (False) or unset |
| Preferences.ReadLimitHint | conversation/manager.py:60-61 | the LIMIT hint reads back as its number |
| Preferences.ReadGranularityHint | conversation/manager.py:62-63 | the granularity hint reads back as its granularity |
| Preferences.HintsRoundTrip | conversation/manager.py:38-64 | reading the hints back restores every preference they render: all but a zero `top_n`, and net/gross only for revenue |
| Detector.TagInjective | conversation/manager.py:91-103 | distinct flags are reported under distinct strings |
| Detector.YearNeedsTwenty | conversation/manager.py:92 | a `\b20\d{2}\b` match contains `20` |
| Detector.BareTopNeedsTop | conversation/manager.py:96 | a `\btop\b(?!\s*\d+)` match is an occurrence of `top` |
| Detector.YearAt | conversation/manager.py:92 | `\b20\d{2}\b` matches at a position: a word boundary, `20`, two digits, a word boundary (ASCII `\w`) |
| Detector.BareTopAt | conversation/manager.py:96 | `\btop\b(?!\s*\d+)` matches at a position: the whole word `top` not followed, after optional whitespace, by a digit |
| Detector.FlagsWhere | conversation/manager.py:88-104 | conditional appends in canonical order hold exactly the flags whose condition is true, in order |
| Detector.Detect | conversation/manager.py:87-104 | each of the seven flags is present exactly when its condition on the lower-cased text and the preferences holds; each at most once, in canonical order |
| Detector.DetectRegion | conversation/manager.py:102-103 | the region flag is raised exactly when the text says `region` or `market`, whatever the preferences |
| Detector.DetectSilencedByPreference | conversation/manager.py:90-101 | a set country, date, metric or net/gross preference, or a non-zero `top_n`, silences its flag |
| Detector.DetectAntitone | conversation/manager.py:90-103 | resolving more preferences never raises a new flag |
| Detector.DetectIgnoresCase | conversation/manager.py:89 | detection reads the text case-insensitively |
| Detector.QuestionInjective | conversation/manager.py:108-121 | distinct flags have distinct questions |
| Detector.Question | conversation/manager.py:108-121 | the fixed question text for each flag, verbatim; `QuestionInjective` shows no two flags share one |
| Detector.YearQuestionMentionsYear | conversation/manager.py:111 | the year question mentions `year` |
| Detector.Asked | conversation/manager.py:106-122 | the flags asked about are exactly those whose tag is among the issues, in canonical order |
| Detector.ClarifyingQuestions | conversation/manager.py:106-122 | at most seven questions, every one of them one of the seven fixed questions (nothing else); the question for a flag is present exactly when its tag is in the input; questions come in canonical order |
| Detector.ClarifyingQuestionsBySet | conversation/manager.py:106-122 | only the set of recognised tags matters: input order, duplicates and unknown tags change nothing |
| Detector.SameFlagsInOrder | conversation/manager.py:106-122 | two flag lists in canonical order with the same members are equal |
| Detector.AskAboutFlags | conversation/manager.py:106-122 | asking about a canonically ordered flag list yields its questions in that order |
| Detector.QuestionsForDetected | conversation/manager.py:145-147 | the questions for the detected flags are their questions, in detection order |
| Errors.NormalizeError | conversation/manager.py:126-132 | the result is always one of the five fixed messages |
| Errors.MessagesDistinct | conversation/manager.py:128-132 | the five messages are pairwise different |
| Errors.NormalizeErrorCases | conversation/manager.py:126-132 | each message is returned exactly when its pattern is the first of the four to occur; the generic one when none occurs |
| Errors.NormalizeErrorIgnoresCase | conversation/manager.py:127 | classification ignores letter case |
| Manager.ClarificationReply | conversation/manager.py:148 | `"Clarification needed:\n- "` followed by the questions joined by `"\n- "` |
| Manager.HintsBlock | conversation/manager.py:152 | the hints joined by newlines, or `None` when that join is empty; `HintsBlockNone` states when |
| Manager.Respond | conversation/manager.py:146-153 | the decision once the turn is recorded: the questions and the reply, recorded as an assistant turn, or the transcript and the hints block; `RespondAsks`, `RespondClarify` and `RespondRecordsTurns` state it |
| Manager.Step | conversation/manager.py:142-153 | one turn: record the user text, integrate it, detect, then respond; `StepResultShape`, `StepRecordsTurns` and `StepResolvedNotAsked` state it, and `ConversationManager.NextAction` is proved equal to it |
| Manager.RespondRecordsTurns | conversation/manager.py:146-153 | after the decision the memory stays within `2k`, ending with the user turn and, on clarification, the reply |
| Manager.StepRecordsTurns | conversation/manager.py:142-153 | one turn keeps the memory within `2k` and leaves the user text (and the reply, when one is given) as the newest turns |
| Manager.RespondAsks | conversation/manager.py:146-150 | questions are asked exactly when flags were raised, and the question for `f` exactly when `f` was raised |
| Manager.RespondClarify | conversation/manager.py:146-150 | with flags in canonical order the result is their questions and the bulleted reply, recorded as an assistant turn |
| Manager.StepResultShape | conversation/manager.py:142-153 | prefs are integrated before detection; the result is a clarification exactly when the detection is non-empty, with its questions and reply, and otherwise the transcript and the hints block |
| Manager.StepResolvedNotAsked | conversation/manager.py:143-145 | an answer that settles a preference is not asked about in the same turn, because integration comes before detection |
| Manager.StepAsksRegionAgain | conversation/manager.py:102-103 | a turn mentioning `region` or `market` always asks the region question, whatever was resolved before |
| Manager.HintsLong | conversation/manager.py:38-64 | every hint is at least twelve characters long |
| Manager.HintsBlockNone | conversation/manager.py:152 | the hints block is `None` exactly when no field yields a hint |
| Manager.ConversationManager.constructor | conversation/manager.py:136-140 | a new manager has an empty memory of size `k` and no preferences |
| Manager.ConversationManager.NextAction | conversation/manager.py:142-153 | the new memory and preferences and the returned result are exactly those of `Step` on the old state; the memory stays within `2k` |
| Scenarios.YearClarification | tests/test_conversation_integration.py:3-7 | from any state, `Revenue in Q2` asks for clarification, including a question that mentions `year` |
| Scenarios.IntegrateFirst | run_cli_convo.py:28 | `Top products in Q2` only sets the granularity to quarter |
| Scenarios.DetectFirst | run_cli_convo.py:28 | without a metric or a `top_n`, that text raises exactly the year, top-n and metric flags |
| Scenarios.FirstStep | run_cli_convo.py:28-30 | the first demo turn asks the year, count and metric questions and records the reply |
| Scenarios.IntegrateSecond | run_cli_convo.py:33 | the second demo text sets ship country, revenue, net and quarter, and nothing else |
| Scenarios.DetectSecond | run_cli_convo.py:33 | once the country is set, that text raises no flag |
| Scenarios.SecondStep | run_cli_convo.py:33-40 | the second demo turn proceeds with the transcript and the hints of the updated preferences |
| Scenarios.AfterDemoHints | run_cli_convo.py:40 | after the demo the hints block is the ship-country, net-revenue and quarter hints |
| Scenarios.DemoFirstFromFresh | run_cli_convo.py:24-30 | from a fresh manager the first demo turn gives the three questions and two recorded turns |
| Scenarios.DemoConversation | run_cli_convo.py:24-40 | the whole demo: clarification, then proceed with three recorded turns and three hints |
| ScenarioRuns.YearClarificationRun | tests/test_conversation_integration.py:3-7 | the test’s steps, performed on a fresh manager object, give a clarification with a question mentioning `year` |
| ScenarioRuns.DemoRun | run_cli_convo.py:24-40 | the demo’s two steps, performed on a fresh manager object of size 5, give the expected clarification, then proceed with the three hints |
| ErrorScenarios.UnknownErrorIsGeneric | run_cli_convo.py:54 | the fallback text `Unknown error` maps to the generic message |
| ErrorScenarios.MissingColumnRecognised | conversation/manager.py:128 | `No such column: Foo` maps to the missing-column message |

## Left out

- `MEMORY_K`: the environment variable read at `conversation/manager.py:138` is not modelled. The memory size is a constructor parameter, and `DefaultMemoryK` is the default of 5.
- Memory size `k <= 0`: the memory and the manager require `k >= 1`. With `k == 0` the source never evicts, as `WindowOfZero` states. A negative `k` would make the slice drop the oldest `-2k` turns instead.
- Lower-casing covers ASCII only. Python's `str.lower()` also folds non-ASCII letters.
- The regular expressions follow their ASCII meaning of `\s`, `\d` and `\w`. Unicode digits and letters are not matched.
- Preference values the source stores as strings are enumerations. These are the only values `integrate_answer` ever writes. `country_field.lower().startswith("ship")` therefore becomes the test `c == ShipCountry`.
- `normalize_error` accepts an exception or a string and applies `str` to it. `NormalizeError` takes the resulting text.
- `AmbiguityDetector` holds no state. Its methods are the functions `Detect` and `ClarifyingQuestions`, and the manager's `detector` field is not modelled.
- `to_hints` and `detect` build local lists by conditional appends. They are modelled as functions on the preference record.
- The returned dictionaries become the datatype `StepResult`. Its `Clarify` variant is `need_clarification` true, and `Proceed` is false.
- Scenarios.DemoConversation requires `k >= 2`. With `k == 1` the memory would drop the first user turn before the second turn is recorded. The demo runs with the default 5.
- Manager.StepRecordsTurns requires the incoming session to hold at most `2k` turns. `ConversationManager.Valid` keeps that invariant for every real manager.
- The SQL agents, retrieval index, database access, HTTP API and command-line loops are not part of this model. They are language-model calls, I/O and user interaction.
