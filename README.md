# Adaptive English Coach: a Dafny model of its core

The Adaptive English Coach is a Streamlit application. A learner takes a short
multiple-choice quiz, and the coach turns the 0/1 outcomes into a mastery estimate. It
maps that estimate to a CEFR level (A1 to C2) and a difficulty label. The label is then
adjusted to the learner's detected emotion, and the coach looks up the current topic in
a table flattened from the English learning roadmap. The learner can also chat with an
LLM tutor, and can see a sentence's grammar corrections marked word by word.

This project models the computing parts of that system in Dafny and proves properties of
them. Each module follows one source file:

- `AdaptiveEngine` (models/adaptive_engine.py). It covers the mastery estimate and its
  cold start, the CEFR/difficulty tiers, the emotion override, and the topic lookup with
  its fallback entry. These are pure functions with lemmas.
- `RoadmapLoader` (utils/roadmap_loader.py). It covers `flatten_roadmap` over the parsed
  roadmap. The nested loop is a method, proved equal to a recursive specification, and
  lemmas say which records come out and in what order.
- `ChatbotService` (models/chatbot_service.py). The `TutorBot` class has a `history`
  field. `Chat` builds the context list in a loop, asks the model and appends the
  exchange. `GenerateQuiz` builds the quiz prompt, cleans code fences from the reply,
  parses it, keeps the well-formed questions in a loop and slices to `num_q`.
- `SessionState` (utils/session_state.py). `init_state` runs on a `Session` object with
  one field per session key. It is proved against a functional specification: present
  keys are never overwritten, missing keys get their defaults, and a second call changes
  nothing.
- `GrammarChecker` (models/grammar_checker.py). `highlight_corrections` renders an
  ndiff word diff as text.
- `App` (app.py). Option labelling (`OptionLabels`), reading a chosen label back
  (`ChosenIndex`, `Pick`) and grading and scoring (`GradeFirst`, `Score`) are
  module-level functions with lemmas. The state changes are methods of a `Dashboard`
  class that holds the session entries the two tabs use: `EnsureQuiz` generates the
  quiz, `Choose` records a radio choice, `Submit` grades the submitted quiz through the
  `GradeAnswers` loop, and `Send` is the chat "Send" button.
- `PyStr`, `JsonValue` and `Wrappers` are shared support modules. `PyStr` holds the
  Python string operations the source uses (`isspace`, `strip`, `replace`,
  `startswith`/`endswith`, `split(c)[0]`, `join`, `str(int)` and `int(str)`).
  `JsonValue` holds parsed JSON values, with dicts as ordered key/value lists.
  `Wrappers` holds `Option` and `Result`.

Everything the program gets from outside is a parameter:

- The LLM is a function `generate` from the contents list to the reply text.
- `json.loads` is a function `parse` from text to an `Option<Value>`, with None for
  `JSONDecodeError`.
- The roadmap file and the saved game state are given as already-parsed values.
- The diff is a list of ndiff lines.

Each Python exception the modelled code can raise is reported by the exception's name.
Functions that return a value return a `Result`, whose `Err` carries the name. Members
that only change state report the name as an `Option<string>` instead: the `error`
component of `SessionState.Init`, the `error` out-parameter of
`SessionState.Session.InitState`, and the `error` out-parameters of the `Dashboard`
methods `EnsureQuiz`, `StoreQuiz` and `Submit`.

Three facts about the code shape the model:

- The cold-start mastery is 0.10, an A1/Easy start (models/adaptive_engine.py:46-47).
- `init_state` sets nine session keys, `tutorbot` and `teaching_block` among them
  (utils/session_state.py:13-33).
- A topic missing from the table gets the fallback entry
  (models/adaptive_engine.py:62-63). An empty table is the exception (see Findings).

## Model

| member | source | states |
|---|---|---|
| AdaptiveEngine.PredictMastery | models/adaptive_engine.py:45-48 | no results give the cold-start mastery 0.10; otherwise mastery times the number of results is their sum, i.e. it is their mean |
| AdaptiveEngine.SumOfOutcomes | models/adaptive_engine.py:45-48 | for 0/1 outcomes the sum is the number of 1s and lies between 0 and the number of outcomes |
| AdaptiveEngine.MasteryOfOutcomes | models/adaptive_engine.py:45-48 | for a non-empty list of 0/1 outcomes mastery is the share of correct answers and lies in [0, 1] |
| AdaptiveEngine.SumRemove | models/adaptive_engine.py:48 | the sum splits into any one element plus the sum of the rest |
| AdaptiveEngine.SumPermutation | models/adaptive_engine.py:48 | two result lists with the same multiset have the same sum |
| AdaptiveEngine.MasteryPermutation | models/adaptive_engine.py:45-48 | reordering the results does not change the mastery estimate |
| AdaptiveEngine.MapCefrAndLabel | models/adaptive_engine.py:50-56 | A1/Easy iff p < 0.20, A2/Easy iff 0.20 <= p < 0.40, B1/Medium iff 0.40 <= p < 0.55, B2/Medium iff 0.55 <= p < 0.70, C1/Hard iff 0.70 <= p < 0.85, C2/Very Hard iff p >= 0.85 |
| AdaptiveEngine.CefrMonotone | models/adaptive_engine.py:50-56 | a higher mastery never gives a lower CEFR level |
| AdaptiveEngine.GroupOf | models/adaptive_engine.py:72-80 | an emotion is negative iff it is one of sad, angry, disgust, fear; positive or neutral iff one of happy, surprise, neutral; otherwise (None included) undetected |
| AdaptiveEngine.ApplyEmotion | models/adaptive_engine.py:72-80 | a negative emotion gives "Supportive / Review" and the supportive tone; a positive one lifts Easy and Medium to "Stretch Challenge" and keeps Hard and Very Hard, with the engaged tone; an undetected one keeps the label, with the normal-pace tone |
| AdaptiveEngine.OverrideIdempotent | models/adaptive_engine.py:72-80 | applying the same emotion to an already adjusted label changes nothing more |
| AdaptiveEngine.OverrideTargets | models/adaptive_engine.py:72-80 | the adjusted label is the base label or one of the two override labels, and Hard and Very Hard are never lifted |
| AdaptiveEngine.FindRow | models/adaptive_engine.py:61-67 | no row iff no table row has the topic; otherwise the first row with that topic |
| AdaptiveEngine.GetTopicInfo | models/adaptive_engine.py:58-92 | the entry echoes topic and emotion, carries the mastery, its CEFR level, the emotion-adjusted label and tone, the first matching row's level, description and examples, or A1, "Basics kickoff" and no examples when no row matches |
| AdaptiveEngine.GetTopicInfoAsWritten | models/adaptive_engine.py:60-67 | the lookup as written raises exactly when the table is empty, and otherwise agrees with GetTopicInfo |
| AdaptiveEngine.EmptyTableRaises | models/adaptive_engine.py:60-63 | with an empty table the code raises, although the intended fallback gives level A1 |
| AdaptiveEngine.NewLearnerScenario | models/adaptive_engine.py:45-92 | no results and no emotion: mastery 0.10, A1, Easy, normal-pace tone |
| AdaptiveEngine.SadExpertScenario | models/adaptive_engine.py:45-92 | five correct answers and "sad": C2 is kept and the label becomes "Supportive / Review" with the supportive tone |
| AdaptiveEngine.HappyHalfScenario | models/adaptive_engine.py:45-92 | [0,1,0,1] and "happy": mastery 0.5, B1, label lifted to "Stretch Challenge" with the engaged tone |
| RoadmapLoader.LevelEntries | utils/roadmap_loader.py:19 | the items of one level, one per key in key order, tagged with the level |
| RoadmapLoader.IsTopicEntry | utils/roadmap_loader.py:21 | an item becomes a record exactly when its value is a dict with a "Description" key |
| RoadmapLoader.CleanKey | utils/roadmap_loader.py:23 | the topic name: the key with every "1." and then every "2." removed, then stripped |
| RoadmapLoader.EntryRow | utils/roadmap_loader.py:22-27 | the record of a topic entry: cleaned key, level name, its "Description" and its "Example" or the empty list |
| RoadmapLoader.Rows | utils/roadmap_loader.py:19-27 | the records of a run of items, in order, one per topic entry (specification of the inner loop) |
| RoadmapLoader.Flatten | utils/roadmap_loader.py:15-28 | the table: AttributeError when some level is not a dict, otherwise the records of all levels in order (specification of the nested loop) |
| RoadmapLoader.RowsAppend | utils/roadmap_loader.py:18-27 | the records of two runs of items are the records of each, in order |
| RoadmapLoader.EntriesAppend | utils/roadmap_loader.py:18-19 | the items of two roadmaps joined are the items of each, in order |
| RoadmapLoader.FlattenConcat | utils/roadmap_loader.py:18-27 | the rows of earlier levels come before those of later levels |
| RoadmapLoader.RowsLength | utils/roadmap_loader.py:19-27 | each item contributes at most one record |
| RoadmapLoader.RowsSound | utils/roadmap_loader.py:19-27 | every record is built from a topic entry among the items |
| RoadmapLoader.RowsComplete | utils/roadmap_loader.py:21-27 | every topic entry among the items yields its record |
| RoadmapLoader.EntriesLength | utils/roadmap_loader.py:18-19 | the number of items is the sum of the sizes of the levels |
| RoadmapLoader.EntriesComplete | utils/roadmap_loader.py:18-19 | the item at any key of any level is among the items |
| RoadmapLoader.EntriesSound | utils/roadmap_loader.py:18-19 | every item sits under some level at some key |
| RoadmapLoader.FlattenLength | utils/roadmap_loader.py:15-28 | the table has no more rows than the roadmap has inner items |
| RoadmapLoader.FlattenSound | utils/roadmap_loader.py:15-28 | every row comes from a dict entry with "Description" under some level and key, with the cleaned key as topic, the level name, the description and the "Example" list or [] |
| RoadmapLoader.FlattenComplete | utils/roadmap_loader.py:15-28 | every dict entry holding "Description", at any level, appears as a row |
| RoadmapLoader.CleanKeyNumbered | utils/roadmap_loader.py:23 | "1. Title", "2. Title" and "Title" all clean to the stripped title |
| RoadmapLoader.NoDotNoNumber | utils/roadmap_loader.py:23 | a title without a full stop holds neither "1." nor "2." |
| RoadmapLoader.RowsStep | utils/roadmap_loader.py:19-27 | one inner-loop step appends the next item's record exactly when it is a topic entry |
| RoadmapLoader.AllRowsStep | utils/roadmap_loader.py:18-27 | one outer-loop step over a dict level appends the records of all its items |
| RoadmapLoader.FlattenRoadmap | utils/roadmap_loader.py:15-28 | the nested loop returns the specified table, or the AttributeError raised at a level that is not a dict |
| PyStr.StripIdempotent | utils/roadmap_loader.py:23 | stripping twice is stripping once |
| PyStr.StripInfix | models/chatbot_service.py:68 | `strip` keeps an infix with only whitespace before and after it, and a result with no whitespace at either end |
| PyStr.IntStrRoundTrip | app.py:111-124 | `int(str(n)) == n` for every integer |
| PyStr.BeforeFirstConcat | app.py:124 | the text before the first dot of "n. text" is "n" when "n" holds no dot |
| PyStr.RemoveAllAbsent | utils/roadmap_loader.py:23 | `replace` of a pattern that does not occur leaves the string as it is |
| PyStr.Strip | utils/roadmap_loader.py:23 | `str.strip()`: the result has no whitespace at either end and is no longer than the input |
| PyStr.RemoveAll | utils/roadmap_loader.py:23 | `str.replace(pat, "")`: occurrences found left to right without overlap are deleted; the result is no longer than the input |
| PyStr.Join | models/grammar_checker.py:56 | `sep.join(xs)`: the items with `sep` between neighbours |
| PyStr.BeforeFirst | app.py:124 | `s.split(c)[0]`: a prefix of `s` holding no `c`, followed in `s` by `c` or by nothing |
| PyStr.IntToStr | app.py:111 | `str(n)` in decimal, with a minus sign for negatives; `int` reads it back (IntStrRoundTrip) |
| PyStr.ParseInt | app.py:124 | `int(s)`: the whitespace `int` skips (that of `isspace` except U+001C to U+001F) around an optional sign and ASCII digits with single underscores between them; None where `int` raises ValueError |
| PyStr.IntStrip | app.py:124 | the text `int` reads: both ends freed of the whitespace `int` skips, neither end being such whitespace afterwards |
| PyStr.IntSkipsSpaces | app.py:124 | `int` skips a leading space and a trailing tab |
| PyStr.IntRejectsSeparator | app.py:124 | `int` raises ValueError on a leading U+001C, which `strip` removes |
| JsonValue.Get | models/chatbot_service.py:81-87 | `d.get(key)` is Some exactly when the key is present, and then is the value paired with it |
| JsonValue.GetAt | utils/session_state.py:31 | in a dict, whose keys are distinct, `get` of the key at any position gives the value stored at that position |
| JsonValue.GetOr | utils/session_state.py:31 | `d.get(key, default)` is the stored value when the key is present, else the default |
| ChatbotService.Exchanges | models/chatbot_service.py:28-30 | the history flattened: entry 2i is turn i's message, entry 2i+1 its answer |
| ChatbotService.Context | models/chatbot_service.py:27-31 | 2 + 2·\|history\| entries: the system prompt first, then each exchange in order, the new message last |
| ChatbotService.QuizPrompt | models/chatbot_service.py:54-62 | the f-string quiz prompt with `str(num_q)` and the topic in their places |
| ChatbotService.ContextAfterTurn | models/chatbot_service.py:27-40 | after a turn, the next context is the previous one plus the answer and the new message |
| ChatbotService.DropOpeningFence | models/chatbot_service.py:71 | a leading "```json", in any letter case, is removed; anything else is left unchanged |
| ChatbotService.DropClosingFence | models/chatbot_service.py:72 | a final "```" is removed; anything else is left unchanged |
| ChatbotService.CleanFences | models/chatbot_service.py:68-72 | the cleaned reply has no whitespace at either end |
| ChatbotService.CleanUnfenced | models/chatbot_service.py:68-72 | a reply without fences is only stripped |
| ChatbotService.CleanFenced | models/chatbot_service.py:68-72 | "```json body ```" with whitespace around it is cleaned to the stripped body |
| ChatbotService.OpeningFenceCut | models/chatbot_service.py:71 | a "```json" tag followed by text leaves the text |
| ChatbotService.ClosingFenceCut | models/chatbot_service.py:72 | text followed by "```" leaves the text |
| ChatbotService.StripOfLStrip | models/chatbot_service.py:71 | stripping after an lstrip is stripping |
| ChatbotService.LStripBeforeFence | models/chatbot_service.py:72 | lstrip of text followed by a non-blank fence is lstrip of the text followed by the fence |
| ChatbotService.StripBeforeFence | models/chatbot_service.py:72 | strip of text followed by the closing fence "```" keeps the fence whole |
| ChatbotService.FoldsTo | models/chatbot_service.py:71 | one character of "json" under IGNORECASE: either letter case, and the long s U+017F for 's' |
| ChatbotService.JsonFenceAt | models/chatbot_service.py:71 | the text starts with "```" followed by "json" in any letter case |
| ChatbotService.IsQuestion | models/chatbot_service.py:81-88 | the filter condition: a dict with "question", "options" and "answer_index" whose "options" is a list of four |
| ChatbotService.Questions | models/chatbot_service.py:79-89 | the kept items are all questions (dicts with "question", "options" and "answer_index", options a list of 4), all taken from the input, in their order, and no more than the input |
| ChatbotService.QuestionsComplete | models/chatbot_service.py:79-89 | every question in the input is kept |
| ChatbotService.QuestionsAllValid | models/chatbot_service.py:79-89 | a list made only of questions is kept whole |
| ChatbotService.Iterate | models/chatbot_service.py:80 | iterating a list yields its items, a dict its keys, a string its characters; a number, a boolean or null raises TypeError |
| ChatbotService.NoQuestionsOutsideList | models/chatbot_service.py:80-89 | a top-level dict or string yields no questions |
| ChatbotService.PySliceTo | models/chatbot_service.py:91 | `s[:n]` is a prefix of `s` of length min(n, \|s\|) for n >= 0, and \|s\| + n or 0 for a negative n |
| ChatbotService.QuizFrom | models/chatbot_service.py:68-91 | every question returned is well formed, and there are at most `num_q` of them |
| ChatbotService.QuizOf | models/chatbot_service.py:74-91 | every question returned from the cleaned text is well formed, and there are at most `num_q` of them |
| ChatbotService.UnparsableReply | models/chatbot_service.py:74-77 | a reply that is not JSON gives an empty quiz, not an error |
| ChatbotService.ScalarReply | models/chatbot_service.py:74-80 | the quiz raises exactly when the reply parses to a number, a boolean or null |
| ChatbotService.ListReply | models/chatbot_service.py:79-91 | a reply that parses to a list gives a prefix of its questions, in order, of length min(`num_q`, number of questions) for `num_q` >= 0, and all of them when there are no more than `num_q` |
| ChatbotService.AllValidReply | models/chatbot_service.py:74-91 | a list of at most `num_q` well-formed questions comes back unchanged |
| ChatbotService.TutorBot.constructor | models/chatbot_service.py:23 | a new bot has an empty history |
| ChatbotService.TutorBot.BuildContents | models/chatbot_service.py:27-31 | the loop builds exactly the context list for the history and the message |
| ChatbotService.TutorBot.Chat | models/chatbot_service.py:25-41 | the answer is the model's reply to the context of the old history and the message, and the history grows by exactly that exchange |
| ChatbotService.TutorBot.GenerateQuiz | models/chatbot_service.py:43-91 | the result is the quiz made from the model's reply to the system prompt and the quiz prompt for this topic and count |
| ChatbotService.KeepQuestions | models/chatbot_service.py:79-89 | the filtering loop keeps exactly the questions, in order |
| SessionState.FixedDefault | utils/session_state.py:16-27 | every key other than game_state and current_topic has a fixed default |
| SessionState.SavedTopic | utils/session_state.py:31 | the first-run topic is the game state's "current_topic", or "A1: Greetings and Introductions" when it has none; a game state that is not a dict raises AttributeError |
| SessionState.Init | utils/session_state.py:13-33 | the store and the exception after `init_state`: each key set in source order only when missing, stopping at the exception of the game-state load or of `.get` (specification of Session.InitState) |
| SessionState.InitKeepsPresent | utils/session_state.py:13-33 | a key already in the store keeps its value, whatever happens |
| SessionState.InitCompletes | utils/session_state.py:13-33 | after a call that does not raise, all nine keys are present |
| SessionState.InitRaises | utils/session_state.py:14-31 | the call raises exactly when the game state must be loaded and cannot be, or the topic must be read from a game state that is not a dict |
| SessionState.InitDefaults | utils/session_state.py:13-33 | a key that was missing gets None or the empty list, the loaded game state, or the saved topic |
| SessionState.InitIdempotent | utils/session_state.py:13-33 | a second call after a successful one changes nothing, raises nothing and reads no file |
| SessionState.InitComplete | utils/session_state.py:13-33 | a store holding all nine keys is left as it is |
| SessionState.FirstRun | utils/session_state.py:13-33 | on an empty store with a saved dict: all keys present, the game state loaded, the saved or default topic, empty lists for results and chat, None for quiz data and answers |
| SessionState.Session.InitState | utils/session_state.py:13-33 | the method sets the store and raises exactly as the specification does |
| SessionState.Session.SetFixedDefaults | utils/session_state.py:16-27 | the six keys from "tutorbot" to "chat_history" are filled in with their defaults if missing, and no other key changes |
| GrammarChecker.LineText | models/grammar_checker.py:47 | every ndiff line has a two-character code followed by the word |
| GrammarChecker.Piece | models/grammar_checker.py:50-55 | the loop body: "[w]" for "- w", "(w)" for "+ w", "w" for "  w", nothing for any other line |
| GrammarChecker.PieceOfLine | models/grammar_checker.py:49-55 | reading a line by its prefix gives "[w]" for a removed word, "(w)" for an added one, the word itself for a kept one, and nothing for a hint line |
| GrammarChecker.Pieces | models/grammar_checker.py:48-55 | there are no more pieces than diff lines |
| GrammarChecker.LineTexts | models/grammar_checker.py:47 | one ndiff line per diff entry, in order |
| GrammarChecker.PiecesOfLines | models/grammar_checker.py:47-56 | the pieces of a whole diff are the intended mark-up of its lines, in order |
| GrammarChecker.UnchangedWords | models/grammar_checker.py:46-56 | a sentence the checker left alone comes back word for word |
| GrammarChecker.PiecesCount | models/grammar_checker.py:49-55 | only hint lines are dropped: the number of pieces is the number of lines minus the hints |
| GrammarChecker.HighlightCorrections | models/grammar_checker.py:46-56 | the loop returns the pieces of the diff joined by single spaces |
| App.OptionLabels | app.py:111 | one label per option, in order, the i-th reading "i+1. option" |
| App.OptionLabel | app.py:111 | `f"{idx+1}. {opt}"`: the 1-based number, a dot, a space and the option text |
| App.OptionsOf | app.py:111 | `q["options"]` when the question is a dict holding a list there |
| App.OptionTexts | app.py:111 | one printed text per option, in order |
| App.QuestionOptions | app.py:111 | every question `generate_quiz` keeps has four options to label |
| App.ChosenIndex | app.py:124 | `int(label.split(".")[0]) - 1`, None where `int` raises ValueError |
| App.LabelRoundTrip | app.py:111-124 | reading a label back gives its option's index, even when the option text holds dots |
| App.LabelsDistinct | app.py:111 | the labels of one question are pairwise different |
| App.SelectedIndex | app.py:112-117 | the radio preselects the first label equal to the stored answer, or option 0 when there is none |
| App.FirstIndex | app.py:116 | `list.index`: the first position of the value |
| App.SelectionKept | app.py:112-117 | on the next run the radio shows the option the learner picked before |
| App.Picks | app.py:122-124 | one parsed pick per stored answer, in order |
| App.Pick | app.py:123-124 | the pick of one stored answer: AttributeError for an unanswered None, ValueError when the text before the first dot is no integer, otherwise that integer minus 1 |
| App.SameIndex | app.py:125 | `chosen_idx == q["answer_index"]`: a number compares by value, True and False as 1 and 0, anything else is unequal |
| App.GradeOne | app.py:124-125 | a graded question scores 0 or 1 |
| App.GradeOneCases | app.py:122-125 | a question is graded iff its pick parsed and it has an "answer_index"; it scores 1 iff the pick equals that index; a failed pick raises its own exception |
| App.GradeFirst | app.py:121-126 | a successful grading has one 0/1 result per question |
| App.GradeFirstAt | app.py:121-126 | result i is the grade of question i against answer i |
| App.GradeFirstFails | app.py:121-126 | grading raises only at a question with no answer slot or whose grading raises |
| App.GradeFirstErrStays | app.py:121-126 | once a question raises, grading more questions raises the same exception |
| App.GradeSucceeds | app.py:121-126 | grading succeeds when every question's pick parses and every question has an "answer_index" |
| App.Score | app.py:128-130 | the score is the number of correct answers, between 0 and the number of questions |
| App.PickOfLabel | app.py:111-124 | the stored label of option k parses back to the index k |
| App.RightIndexScores | app.py:125 | a pick equal to the question's numeric "answer_index" scores 1 |
| App.RightLabelScores | app.py:111-125 | choosing the label of the option at "answer_index" scores 1 |
| App.FullMarks | app.py:120-130 | a quiz whose every question scores 1 gets full marks |
| App.AllCorrect | app.py:108-130 | picking every question's correct option gives score == total |
| App.AllOnes | app.py:129 | a list of 1s sums to its length |
| App.GradeAnswers | app.py:120-126 | the submit loop, fed each answer's pick, returns exactly the specified results, or the first exception in question order |
| App.Transcript | app.py:208-211 | two chat entries per exchange |
| App.TranscriptAt | app.py:208-211 | entry 2i is ("You", message i), entry 2i+1 ("Tutor", answer i) |
| App.TranscriptAppend | app.py:209-211 | one more exchange adds its two entries at the end |
| App.Unanswered | app.py:105 | `[None] * n` has n unanswered slots |
| App.Dashboard.constructor | app.py:25-28 | the first run has no quiz, no results and an empty chat, with a fresh tutor bot |
| App.Dashboard.EnsureQuiz | app.py:98-105 | a quiz is generated only when there is none: it is the bot's quiz for the fixed topic and 5 questions, with one unanswered slot per question; an exception leaves no quiz and is reported by name |
| App.Dashboard.StoreQuiz | app.py:101-105 | a generated quiz is stored with `[None] * len(quiz)` as answers; nothing else changes |
| App.Dashboard.Choose | app.py:108-118 | the radio stores, for question i, the label of option k among the labels built from that question's own "options" list, and changes nothing else |
| App.Dashboard.Submit | app.py:120-130 | on success user_results are the per-question results, score is their sum and total their count, 0 <= score <= total; an exception leaves user_results alone |
| App.Dashboard.Record | app.py:209-211 | the two appends add ("You", message) and ("Tutor", reply) and restore the link between the chat history and the bot's history |
| App.Dashboard.Send | app.py:207-211 | a blank message changes nothing; otherwise the stripped message goes to the bot, the bot's history gains that exchange, and ("You", message) and ("Tutor", reply) are appended, keeping the chat history equal to the bot's transcript |

## Left out

- I/O and external services are left out. This covers reading the roadmap and game-state
  files, the Gemini client, loading the DKT model and encoder, emotion detection, speech
  to text, text to speech and the grammar correction model. Each of these is a parameter
  or is not part of this model.
- The Streamlit user interface is left out: layout, widgets and rerun semantics. Only
  the state updates of app.py lines 27-28, 98-130 and 207-211 are modelled.
- `load_model_and_assets` and the `_topics` cache are left out. They are I/O and caching
  that do not change the returned values.
- AdaptiveEngine.PredictMastery: mastery is an exact rational. The model does not cover
  floating-point rounding of `np.mean` or the `round(p, 3)` in the returned entry.
- AdaptiveEngine.GetTopicInfo: the pandas DataFrame is a sequence of rows. Column dtypes
  and non-string topic entries are not modelled.
- ChatbotService.GenerateQuiz: `resp.text` is always a string. The model does not cover
  a None reply, which would raise AttributeError on `.strip()`.
- ChatbotService.QuizFrom: `json.loads` is an abstract `parse`. Python's handling of
  NaN/Infinity and of duplicate keys is not modelled. Objects are assumed to have
  distinct keys, and `Get` takes the first match.
- PyStr.ParseInt: `int()` is modelled on ASCII digits. Non-ASCII decimal digits, which
  Python also accepts, are left out.
- App.OptionTexts: `str(opt)` is the parameter `render`. Python's `str` of a JSON value
  is not modelled.
- App.Dashboard.Choose: the radio returns one of the labels, so k is below the number of
  options. The empty-options case, where `st.radio` returns None, is not modelled. A
  question without an "options" list is not modelled either. Every question
  `generate_quiz` keeps has four options (App.QuestionOptions).
- SessionState.Session.InitState: only the nine keys `init_state` touches are modelled.
  A game state that is not a parsed JSON dict, such as some other object, is treated as
  lacking `.get`.
- The LLM client can raise inside `chat` and `generate_quiz`. Those exceptions are
  left out: `generate` is total.

## Findings

| source | as written | input that shows it | evidently intended | confidence | as-written member | corrected member |
|---|---|---|---|---|---|---|
| models/adaptive_engine.py:60-63 with utils/roadmap_loader.py:17-28 | `df[df["topic"] == current_topic]` on the table `flatten_roadmap` returns; if the roadmap has no topic entries the table is `pd.DataFrame([])`, which has no "topic" column, so the lookup raises KeyError | a roadmap whose levels hold no dict with "Description" (an empty table) and any topic | the fallback entry (A1, "Basics kickoff", no examples) that the code gives for a topic not in the table | medium, not executed | AdaptiveEngine.GetTopicInfoAsWritten, AdaptiveEngine.EmptyTableRaises | AdaptiveEngine.GetTopicInfo |
