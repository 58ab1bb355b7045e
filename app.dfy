/**
 * app.py: the parts of the Streamlit script that compute. The assessment tab generates
 * the quiz once, labels each question's options "1. …" to "4. …", remembers the label
 * the learner picked and, on submit, turns each label back into an option index and
 * grades it against the question's "answer_index". The chat tab sends a stripped,
 * non-blank message to the tutor bot and appends the exchange to the chat history.
 */
module App {
  import opened Wrappers
  import opened PyStr
  import opened JsonValue
  import opened AdaptiveEngine
  import opened ChatbotService

  /** The topic and length of the assessment quiz. */
  const QuizTopic := "basic English grammar, tense correctness, and sentence choice"
  const QuizLength := 5

  /** `f"{idx+1}. {opt}"`: an option's label, numbered from 1. */
  function OptionLabel(idx: nat, opt: string): string {
    IntToStr(idx + 1) + ". " + opt
  }

  /** The labels of a question's options, in order. */
  function OptionLabels(options: seq<string>): (labels: seq<string>)
    ensures |labels| == |options|
    ensures forall i :: 0 <= i < |options| ==> labels[i] == OptionLabel(i, options[i])
  {
    seq(|options|, i requires 0 <= i < |options| => OptionLabel(i, options[i]))
  }

  /** `q["options"]` when the question is a dict holding a list there (every question `generate_quiz` keeps is one). */
  function OptionsOf(q: Value): (r: Option<seq<Value>>)
    ensures r.Some? <==> q.Obj? && HasKey(q.fields, "options") && Get(q.fields, "options").value.Arr?
    ensures r.Some? ==> Get(q.fields, "options") == Some(Arr(r.value))
  {
    if q.Obj? && Get(q.fields, "options").Some? && Get(q.fields, "options").value.Arr? then
      Some(Get(q.fields, "options").value.items)
    else None
  }

  /** Every question `generate_quiz` keeps has a list of four options to label. */
  lemma QuestionOptions(q: Value)
    requires IsQuestion(q)
    ensures OptionsOf(q).Some? && |OptionsOf(q).value| == 4
  {
  }

  /** The text each option prints as in the f-string, `render` standing for `str`. */
  function OptionTexts(opts: seq<Value>, render: Value -> string): (r: seq<string>)
    ensures |r| == |opts| && forall j :: 0 <= j < |opts| ==> r[j] == render(opts[j])
  {
    seq(|opts|, j requires 0 <= j < |opts| => render(opts[j]))
  }

  /** `int(chosen_label.split(".")[0]) - 1`; None where `int` raises ValueError. */
  function ChosenIndex(choice: string): Option<int> {
    match ParseInt(BeforeFirst(choice, '.'))
    case Some(n) => Some(n - 1)
    case None => None
  }

  /** Reading a label back gives the option's index, even when the option's text holds dots of its own. */
  lemma LabelRoundTrip(idx: nat, opt: string)
    ensures ChosenIndex(OptionLabel(idx, opt)) == Some(idx)
  {
    var n := IntToStr(idx + 1);
    assert OptionLabel(idx, opt) == n + (". " + opt);
    BeforeFirstConcat(n, ". " + opt, '.');
    IntStrRoundTrip(idx + 1);
  }

  /** A question's labels are pairwise different, whatever its options say. */
  lemma LabelsDistinct(options: seq<string>, i: nat, j: nat)
    requires i < j < |options|
    ensures OptionLabels(options)[i] != OptionLabels(options)[j]
  {
    LabelRoundTrip(i, options[i]);
    LabelRoundTrip(j, options[j]);
  }

  /** `options_labels.index(current_val) if current_val in options_labels else 0`: the option the radio shows as selected. */
  function SelectedIndex(labels: seq<string>, current: Option<string>): (k: nat)
    ensures current.Some? && current.value in labels ==> k < |labels| && labels[k] == current.value
    ensures current.Some? && current.value in labels ==> forall j :: 0 <= j < k ==> labels[j] != current.value
    ensures !(current.Some? && current.value in labels) ==> k == 0
  {
    if current.Some? && current.value in labels then FirstIndex(labels, current.value) else 0
  }

  function FirstIndex(labels: seq<string>, x: string): (k: nat)
    requires x in labels
    ensures k < |labels| && labels[k] == x && forall j :: 0 <= j < k ==> labels[j] != x
  {
    if labels[0] == x then 0
    else
      var k := FirstIndex(labels[1..], x);
      assert forall j :: 1 <= j < k + 1 ==> labels[j] == labels[1..][j - 1];
      k + 1
  }

  /** On the next run the radio shows the option the learner picked before. */
  lemma SelectionKept(options: seq<string>, i: nat)
    requires i < |options|
    ensures SelectedIndex(OptionLabels(options), Some(OptionLabel(i, options[i]))) == i
  {
    var labels := OptionLabels(options);
    var k := SelectedIndex(labels, Some(OptionLabel(i, options[i])));
    assert labels[i] == OptionLabel(i, options[i]);
    if k < i {
      LabelsDistinct(options, k, i);
    }
  }

  /**
   * `chosen_idx == q["answer_index"]` for an int against a parsed JSON value: numbers
   * compare by value, True and False count as 1 and 0, anything else is unequal.
   */
  predicate SameIndex(k: int, v: Value) {
    match v
    case Num(n) => n == k as real
    case Bool(b) => k == (if b then 1 else 0)
    case _ => false
  }

  /**
   * The index the learner picked for one question: `int(chosen_label.split(".")[0]) - 1`,
   * or the exception it raises (AttributeError on a question left unanswered, ValueError
   * when the text before the first dot is not a number).
   */
  function Pick(answer: Option<string>): Result<int> {
    if answer.None? then Err("AttributeError")
    else match ChosenIndex(answer.value)
      case None => Err("ValueError")
      case Some(k) => Ok(k)
  }

  /** The picks of all the answers, one per answer. */
  function Picks(answers: seq<Option<string>>): (r: seq<Result<int>>)
    ensures |r| == |answers| && forall i :: 0 <= i < |answers| ==> r[i] == Pick(answers[i])
  {
    seq(|answers|, i requires 0 <= i < |answers| => Pick(answers[i]))
  }

  /** The grade of one question: 1 or 0, or the exception the grading line raises. */
  function GradeOne(q: Value, pick: Result<int>): (r: Result<int>)
    ensures r.Ok? ==> r.value == 0 || r.value == 1
  {
    match pick
    case Err(e) => Err(e)
    case Ok(k) =>
      if !q.Obj? then Err("TypeError")
      else match Get(q.fields, "answer_index")
        case None => Err("KeyError")
        case Some(v) => Ok(if SameIndex(k, v) then 1 else 0)
  }

  /**
   * A question is graded exactly when its pick succeeded and it is an object with an
   * "answer_index"; it scores 1 exactly when the pick equals that "answer_index".
   */
  lemma GradeOneCases(q: Value, pick: Result<int>)
    ensures GradeOne(q, pick).Ok? <==> pick.Ok? && q.Obj? && HasKey(q.fields, "answer_index")
    ensures GradeOne(q, pick) == Ok(1) <==>
      GradeOne(q, pick).Ok? && SameIndex(pick.value, Get(q.fields, "answer_index").value)
    ensures pick.Err? ==> GradeOne(q, pick) == Err(pick.error)
  {
  }

  /** The results of the first `n` questions, or the first exception. */
  function GradeFirst(quiz: seq<Value>, picks: seq<Result<int>>, n: nat): (r: Result<seq<int>>)
    requires n <= |quiz|
    ensures r.Ok? ==> |r.value| == n && n <= |picks| && Outcomes(r.value)
  {
    if n == 0 then Ok([])
    else
      match GradeFirst(quiz, picks, n - 1)
      case Err(e) => Err(e)
      case Ok(rs) =>
        if n - 1 >= |picks| then Err("IndexError")
        else match GradeOne(quiz[n - 1], picks[n - 1])
          case Err(e) => Err(e)
          case Ok(x) => Ok(rs + [x])
  }

  /** Each result is the grade of its own question against its own pick. */
  lemma {:induction false} GradeFirstAt(quiz: seq<Value>, picks: seq<Result<int>>, n: nat)
    requires n <= |quiz| && GradeFirst(quiz, picks, n).Ok?
    ensures forall i :: 0 <= i < n ==> GradeOne(quiz[i], picks[i]) == Ok(GradeFirst(quiz, picks, n).value[i])
  {
    if n > 0 {
      GradeFirstAt(quiz, picks, n - 1);
    }
  }

  /** Grading fails only at a question without an answer slot or whose grading raises. */
  lemma {:induction false} GradeFirstFails(quiz: seq<Value>, picks: seq<Result<int>>, n: nat)
    requires n <= |quiz| && GradeFirst(quiz, picks, n).Err?
    ensures exists i :: 0 <= i < n && (i >= |picks| || GradeOne(quiz[i], picks[i]).Err?)
  {
    if GradeFirst(quiz, picks, n - 1).Err? {
      GradeFirstFails(quiz, picks, n - 1);
    } else {
      assert n - 1 >= |picks| || GradeOne(quiz[n - 1], picks[n - 1]).Err?;
    }
  }

  /** Once a question raises, grading more questions raises the same exception. */
  lemma {:induction false} GradeFirstErrStays(quiz: seq<Value>, picks: seq<Result<int>>, m: nat, n: nat)
    requires m <= n <= |quiz| && GradeFirst(quiz, picks, m).Err?
    ensures GradeFirst(quiz, picks, n) == GradeFirst(quiz, picks, m)
  {
    if m < n {
      GradeFirstErrStays(quiz, picks, m, n - 1);
    }
  }

  /** Grading succeeds when every question has a pick that parsed and an "answer_index". */
  lemma {:induction false} GradeSucceeds(quiz: seq<Value>, picks: seq<Result<int>>, n: nat)
    requires n <= |quiz| <= |picks|
    requires forall i :: 0 <= i < n ==> GradeOne(quiz[i], picks[i]).Ok?
    ensures GradeFirst(quiz, picks, n).Ok?
  {
    if n > 0 {
      GradeSucceeds(quiz, picks, n - 1);
    }
  }

  /** The score is the number of correct answers, between 0 and the number of questions. */
  lemma Score(quiz: seq<Value>, picks: seq<Result<int>>)
    requires GradeFirst(quiz, picks, |quiz|).Ok?
    ensures var rs := GradeFirst(quiz, picks, |quiz|).value;
      Sum(rs) == multiset(rs)[1] && 0 <= Sum(rs) <= |quiz|
  {
    SumOfOutcomes(GradeFirst(quiz, picks, |quiz|).value);
  }

  /** The pick of a stored label is its option's index. */
  lemma PickOfLabel(k: nat, opt: string)
    ensures Pick(Some(OptionLabel(k, opt))) == Ok(k)
  {
    LabelRoundTrip(k, opt);
  }

  /** The pick equal to the question's "answer_index" scores 1. */
  lemma RightIndexScores(q: Value, k: int)
    requires q.Obj? && Get(q.fields, "answer_index") == Some(Num(k as real))
    ensures GradeOne(q, Ok(k)) == Ok(1)
  {
  }

  /** The label of the option at the question's "answer_index" scores 1. */
  lemma RightLabelScores(q: Value, k: nat, opt: string)
    requires q.Obj? && Get(q.fields, "answer_index") == Some(Num(k as real))
    ensures GradeOne(q, Pick(Some(OptionLabel(k, opt)))) == Ok(1)
  {
    PickOfLabel(k, opt);
    RightIndexScores(q, k);
  }

  /** A quiz whose every question scores 1 scores full marks. */
  lemma FullMarks(quiz: seq<Value>, picks: seq<Result<int>>)
    requires |quiz| <= |picks|
    requires forall i :: 0 <= i < |quiz| ==> GradeOne(quiz[i], picks[i]) == Ok(1)
    ensures var r := GradeFirst(quiz, picks, |quiz|);
      r.Ok? && Sum(r.value) == |quiz|
  {
    GradeSucceeds(quiz, picks, |quiz|);
    GradeFirstAt(quiz, picks, |quiz|);
    AllOnes(GradeFirst(quiz, picks, |quiz|).value);
  }

  /** Picking the option at each question's "answer_index" scores full marks. */
  lemma AllCorrect(quiz: seq<Value>, answers: seq<Option<string>>, keys: seq<nat>, options: seq<seq<string>>)
    requires |keys| == |quiz| == |options| == |answers|
    requires forall i :: 0 <= i < |quiz| ==> keys[i] < |options[i]| && answers[i] == Some(OptionLabel(keys[i], options[i][keys[i]]))
    requires forall i :: 0 <= i < |quiz| ==> quiz[i].Obj? && Get(quiz[i].fields, "answer_index") == Some(Num(keys[i] as real))
    ensures var r := GradeFirst(quiz, Picks(answers), |quiz|);
      r.Ok? && Sum(r.value) == |quiz|
  {
    var picks := Picks(answers);
    forall i | 0 <= i < |quiz| ensures GradeOne(quiz[i], picks[i]) == Ok(1) {
      RightLabelScores(quiz[i], keys[i], options[i][keys[i]]);
    }
    FullMarks(quiz, picks);
  }

  lemma {:induction false} AllOnes(rs: seq<int>)
    requires forall i :: 0 <= i < |rs| ==> rs[i] == 1
    ensures Sum(rs) == |rs|
  {
    if rs != [] {
      AllOnes(rs[..|rs| - 1]);
    }
  }

  /**
   * The submit loop: one result per question, in order, or the first exception. Each
   * question's answer enters as its pick, the parsed label or the exception parsing it
   * raises, so the exceptions surface in the loop's order.
   */
  method GradeAnswers(quiz: seq<Value>, picks: seq<Result<int>>) returns (r: Result<seq<int>>)
    ensures r == GradeFirst(quiz, picks, |quiz|)
  {
    var results: seq<int> := [];
    var i := 0;
    while i < |quiz|
      invariant 0 <= i <= |quiz|
      invariant GradeFirst(quiz, picks, i) == Ok(results)
    {
      if i >= |picks| {
        GradeFirstErrStays(quiz, picks, i + 1, |quiz|);
        return Err("IndexError");
      }
      var g := GradeOne(quiz[i], picks[i]);
      if g.Err? {
        GradeFirstErrStays(quiz, picks, i + 1, |quiz|);
        return Err(g.error);
      }
      results := results + [g.value];
      i := i + 1;
    }
    r := Ok(results);
  }

  /** The chat history the page shows for the bot's history: "You" then "Tutor" for each exchange. */
  function Transcript(history: seq<Turn>): (r: seq<(string, string)>)
    ensures |r| == 2 * |history|
  {
    if history == [] then []
    else Transcript(history[..|history| - 1]) + [("You", history[|history| - 1].user), ("Tutor", history[|history| - 1].bot)]
  }

  /** Entry 2i is what the learner said in exchange i, entry 2i+1 what the tutor answered. */
  lemma {:induction false} TranscriptAt(history: seq<Turn>)
    ensures forall i :: 0 <= i < |history| ==>
      Transcript(history)[2 * i] == ("You", history[i].user) && Transcript(history)[2 * i + 1] == ("Tutor", history[i].bot)
  {
    if history != [] {
      var init := history[..|history| - 1];
      TranscriptAt(init);
      assert forall i :: 0 <= i < |init| ==> init[i] == history[i];
    }
  }

  /** One more exchange adds its two entries at the end of the transcript. */
  lemma TranscriptAppend(history: seq<Turn>, t: Turn)
    ensures Transcript(history + [t]) == Transcript(history) + [("You", t.user), ("Tutor", t.bot)]
  {
    assert (history + [t])[..|history|] == history;
  }

  /** `[None] * n`: the answers of a quiz nobody has answered yet. */
  function Unanswered(n: nat): (r: seq<Option<string>>)
    ensures |r| == n && forall i :: 0 <= i < n ==> r[i].None?
  {
    seq(n, _ => None)
  }

  /** The page state the assessment and chat tabs work on. */
  class Dashboard {
    var quizData: Option<seq<Value>>
    var quizAnswers: Option<seq<Option<string>>>
    var userResults: seq<int>
    var chatHistory: seq<(string, string)>
    var bot: TutorBot

    /** A quiz and its answers exist together and have the same length; the chat history mirrors the bot's. */
    predicate Valid()
      reads this, bot
    {
      && (quizData.Some? <==> quizAnswers.Some?)
      && (quizData.Some? ==> |quizAnswers.value| == |quizData.value|)
      && chatHistory == Transcript(bot.history)
    }

    /** The state right after `init_state` and the lazy creation of the tutor bot. */
    constructor ()
      ensures Valid() && fresh(bot)
      ensures quizData.None? && quizAnswers.None? && userResults == [] && chatHistory == []
    {
      quizData := None;
      quizAnswers := None;
      userResults := [];
      chatHistory := [];
      bot := new TutorBot();
    }

    /** Lines 98-105: generate the quiz if there is none yet; `error` names the exception `generate_quiz` raised, if any. */
    method EnsureQuiz(generate: seq<string> -> string, parse: string -> Option<Value>) returns (error: Option<string>)
      requires Valid()
      modifies this
      ensures Valid() && bot == old(bot) && userResults == old(userResults) && chatHistory == old(chatHistory)
      ensures old(quizData).Some? ==> error.None? && quizData == old(quizData) && quizAnswers == old(quizAnswers)
      ensures old(quizData).None? ==>
        var r := QuizFrom(generate([SysPrompt, QuizPrompt(QuizTopic, QuizLength)]), QuizLength, parse);
        && (r.Ok? ==> error.None? && quizData == Some(r.value) && quizAnswers == Some(Unanswered(|r.value|)))
        && (r.Err? ==> error == Some(r.error) && quizData.None? && quizAnswers.None?)
    {
      error := None;
      if quizData.None? {
        var r := bot.GenerateQuiz(QuizTopic, QuizLength, generate, parse);
        error := StoreQuiz(r);
      }
    }

    /** A generated quiz is stored with one unanswered slot per question; one that raised stores nothing. */
    method StoreQuiz(r: Result<seq<Value>>) returns (error: Option<string>)
      requires Valid() && quizData.None?
      modifies this
      ensures Valid() && bot == old(bot) && userResults == old(userResults) && chatHistory == old(chatHistory)
      ensures r.Ok? ==> error.None? && quizData == Some(r.value) && quizAnswers == Some(Unanswered(|r.value|))
      ensures r.Err? ==> error == Some(r.error) && quizData.None? && quizAnswers.None?
    {
      if r.Err? {
        return Some(r.error);
      }
      quizData := Some(r.value);
      quizAnswers := Some(Unanswered(|r.value|));
      error := None;
    }

    /** Lines 108-118: the radio of question `i`, labelled from that question's options, returns the label of option `k`. */
    method Choose(i: nat, render: Value -> string, k: nat)
      requires Valid() && quizData.Some? && i < |quizData.value|
      requires OptionsOf(quizData.value[i]).Some? && k < |OptionsOf(quizData.value[i]).value|
      modifies this
      ensures Valid() && bot == old(bot)
      ensures quizData == old(quizData) && userResults == old(userResults) && chatHistory == old(chatHistory)
      ensures quizAnswers == Some(old(quizAnswers).value[i := Some(OptionLabels(OptionTexts(OptionsOf(quizData.value[i]).value, render))[k])])
    {
      var labels := OptionLabels(OptionTexts(OptionsOf(quizData.value[i]).value, render));
      quizAnswers := Some(quizAnswers.value[i := Some(labels[k])]);
    }

    /** "Submit Answers": grade every question, store the results, report score and total. */
    method Submit() returns (score: int, total: int, error: Option<string>)
      requires Valid() && quizData.Some?
      modifies this
      ensures Valid() && bot == old(bot) && quizData == old(quizData) && quizAnswers == old(quizAnswers)
      ensures chatHistory == old(chatHistory)
      ensures var r := GradeFirst(quizData.value, Picks(quizAnswers.value), |quizData.value|);
        && (r.Ok? ==> error.None? && userResults == r.value && score == Sum(r.value) && total == |r.value|)
        && (r.Err? ==> error == Some(r.error) && userResults == old(userResults))
      ensures error.None? ==> 0 <= score <= total == |quizData.value|
    {
      var r := GradeAnswers(quizData.value, Picks(quizAnswers.value));
      if r.Err? {
        return 0, 0, Some(r.error);
      }
      Score(quizData.value, Picks(quizAnswers.value));
      userResults := r.value;
      score := Sum(r.value);
      total := |r.value|;
      error := None;
    }

    /** "Send": a message that is not blank goes to the bot stripped, and both sides of the exchange are recorded. */
    method Send(userMsg: string, generate: seq<string> -> string)
      requires Valid()
      modifies this, bot
      ensures Valid() && bot == old(bot)
      ensures quizData == old(quizData) && quizAnswers == old(quizAnswers) && userResults == old(userResults)
      ensures Strip(userMsg) == "" ==> chatHistory == old(chatHistory) && bot.history == old(bot.history)
      ensures Strip(userMsg) != "" ==>
        var reply := generate(Context(old(bot.history), Strip(userMsg)));
        && bot.history == old(bot.history) + [Turn(Strip(userMsg), reply)]
        && chatHistory == old(chatHistory) + [("You", Strip(userMsg)), ("Tutor", reply)]
    {
      var msg := Strip(userMsg);
      if msg != "" {
        ghost var h0 := bot.history;
        var reply := bot.Chat(msg, generate);
        assert reply == generate(Context(h0, msg));
        Record(h0, msg, reply);
        assert reply == generate(Context(h0, msg));
      }
    }

    /** The two appends after a chat exchange: the learner's line, then the tutor's. */
    method Record(ghost h0: seq<Turn>, msg: string, reply: string)
      requires chatHistory == Transcript(h0) && bot.history == h0 + [Turn(msg, reply)]
      requires (quizData.Some? <==> quizAnswers.Some?) && (quizData.Some? ==> |quizAnswers.value| == |quizData.value|)
      modifies this
      ensures Valid() && bot == old(bot)
      ensures quizData == old(quizData) && quizAnswers == old(quizAnswers) && userResults == old(userResults)
      ensures chatHistory == old(chatHistory) + [("You", msg), ("Tutor", reply)]
    {
      TranscriptAppend(h0, Turn(msg, reply));
      chatHistory := chatHistory + [("You", msg), ("Tutor", reply)];
    }
  }
}
