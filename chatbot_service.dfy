/**
 * models/chatbot_service.py: the tutor chatbot. `chat` sends the system prompt, the
 * whole conversation so far and the new message to the language model and records the
 * exchange; `generate_quiz` asks the model for multiple-choice questions as JSON, strips
 * a Markdown code fence, parses the text and keeps the well-formed questions.
 *
 * The language model is the parameter `generate` (the contents list in, the reply text
 * out) and `json.loads` is the parameter `parse` (None for a JSONDecodeError).
 */
module ChatbotService {
  import opened Wrappers
  import opened PyStr
  import opened JsonValue

  /** The safety and style instructions sent ahead of every request. */
  const SysPrompt := "You are an English learning tutor. "
    + "You must ONLY help with English language learning: grammar, vocabulary, usage, pronunciation, fluency. "
    + "You should respond in plain English, no special symbols like *, **, #, @, etc. "
    + "Use numbered or roman numbered lists, not bullet points. "
    + "Be supportive, encouraging, and clear."

  /** One entry of the bot's history, `{"user": ..., "bot": ...}`. */
  datatype Turn = Turn(user: string, bot: string)

  /** The past exchanges as the flat list of messages the model sees, oldest first. */
  function Exchanges(history: seq<Turn>): (r: seq<string>)
    ensures |r| == 2 * |history|
    ensures forall i :: 0 <= i < |history| ==> r[2 * i] == history[i].user && r[2 * i + 1] == history[i].bot
  {
    if history == [] then []
    else
      var init := Exchanges(history[..|history| - 1]);
      var last := history[|history| - 1];
      assert forall i :: 0 <= i < |history| - 1 ==> history[..|history| - 1][i] == history[i];
      init + [last.user, last.bot]
  }

  /** The contents list of a `chat` call: the system prompt, every past exchange in order, then the new message. */
  function Context(history: seq<Turn>, userMsg: string): (c: seq<string>)
    ensures |c| == 2 + 2 * |history|
    ensures c[0] == SysPrompt && c[|c| - 1] == userMsg
    ensures forall i :: 0 <= i < |history| ==> c[2 * i + 1] == history[i].user && c[2 * i + 2] == history[i].bot
  {
    [SysPrompt] + Exchanges(history) + [userMsg]
  }

  /**
   * Each request extends the previous one: after a chat about `u` answered by `a`, the
   * next request is the previous request followed by `a` and the new message.
   */
  lemma ContextAfterTurn(history: seq<Turn>, u: string, a: string, next: string)
    ensures Context(history + [Turn(u, a)], next) == Context(history, u) + [a, next]
  {
    assert (history + [Turn(u, a)])[..|history|] == history;
  }

  /** The text before and after the number of questions and the topic in the quiz request. */
  const QuizPromptHead := "\n        Create "
  const QuizPromptMiddle := " " + "multiple choice questions to test English skills on topic: "
  const QuizPromptTail := ".\n        Difficulty: mixed beginner to intermediate.\n"
    + "        For each question include:\n"
    + "        1. \"question\": the question text\n"
    + "        2. \"options\": an array of 4 answer choices (strings)\n"
    + "        3. \"answer_index\": index (0-3) of the correct answer.\n"
    + "        Respond ONLY as valid JSON list, no commentary, no markdown, no extra text.\n"
    + "        "

  /** The f-string prompt of `generate_quiz`, with `num_q` printed by `str`. */
  function QuizPrompt(topic: string, numQ: int): string {
    QuizPromptHead + IntToStr(numQ) + QuizPromptMiddle + topic + QuizPromptTail
  }

  /**
   * One character of `json` matched case-insensitively, as the `re` module does it:
   * the upper-case letter matches too, and 's' also matches the long s U+017F.
   */
  predicate FoldsTo(c: char, letter: char) {
    match letter
    case 'j' => c == 'j' || c == 'J'
    case 's' => c == 's' || c == 'S' || c == '\U{17F}'
    case 'o' => c == 'o' || c == 'O'
    case 'n' => c == 'n' || c == 'N'
    case _ => c == letter
  }

  /** `s` begins with an opening fence "```json" in any letter case. */
  predicate JsonFenceAt(s: string) {
    |s| >= 7 && s[..3] == "```"
    && FoldsTo(s[3], 'j') && FoldsTo(s[4], 's') && FoldsTo(s[5], 'o') && FoldsTo(s[6], 'n')
  }

  /** `re.sub(r"^```json", "", s, flags=re.IGNORECASE)`. */
  function DropOpeningFence(s: string): (r: string)
    ensures JsonFenceAt(s) ==> r == s[7..]
    ensures !JsonFenceAt(s) ==> r == s
  {
    if JsonFenceAt(s) then s[7..] else s
  }

  /** `re.sub(r"```$", "", s)` for a stripped `s`, which has no final newline for `$` to skip. */
  function DropClosingFence(s: string): (r: string)
    ensures EndsWith(s, "```") ==> r == s[..|s| - 3]
    ensures !EndsWith(s, "```") ==> r == s
  {
    if EndsWith(s, "```") then s[..|s| - 3] else s
  }

  /** The cleanup of the model's reply before parsing. */
  function CleanFences(raw: string): (r: string)
    ensures Trimmed(r)
  {
    var s1 := Strip(raw);
    var s2 := Strip(DropOpeningFence(s1));
    Strip(DropClosingFence(s2))
  }

  /** A reply without fences is only stripped. */
  lemma CleanUnfenced(raw: string)
    requires !JsonFenceAt(Strip(raw)) && !EndsWith(Strip(raw), "```")
    ensures CleanFences(raw) == Strip(raw)
  {
    StripIdempotent(raw);
  }

  lemma StripOfLStrip(b: string)
    ensures Strip(LStrip(b)) == Strip(b)
  {
    var l := LStrip(b);
    LStripSpaces([], l);
    assert [] + l == l;
  }

  /** Leading whitespace is stripped the same way whatever non-blank text follows. */
  lemma {:induction false} LStripBeforeFence(body: string, fence: string)
    requires Trimmed(fence) && fence != []
    ensures LStrip(body + fence) == LStrip(body) + fence
  {
    if body != [] && IsSpace(body[0]) {
      assert (body + fence)[1..] == body[1..] + fence;
      LStripBeforeFence(body[1..], fence);
    } else if body == [] {
      assert body + fence == fence;
    }
  }

  /** Stripping a string followed by the closing fence leaves the fence in place. */
  lemma {:induction false} StripBeforeFence(body: string)
    ensures Strip(body + "```") == LStrip(body) + "```"
  {
    LStripBeforeFence(body, "```");
    var lf := LStrip(body) + "```";
    assert lf[|lf| - 1] == '`';
    StripOfNonSpaceEnd(body + "```", lf);
  }

  /** When `lstrip` leaves a string ending in a non-space character, `strip` leaves the same. */
  lemma {:induction false} StripOfNonSpaceEnd(s: string, l: string)
    requires LStrip(s) == l && l != [] && !IsSpace(l[|l| - 1])
    ensures Strip(s) == l
  {
  }

  /**
   * A reply fenced as "```json ... ```" (any letter case of json, whitespace around)
   * is reduced to its stripped body.
   */
  lemma CleanFenced(before: string, tag: string, body: string, after: string)
    requires AllSpace(before) && AllSpace(after)
    requires JsonFenceAt(tag) && |tag| == 7
    ensures CleanFences(before + tag + body + "```" + after) == Strip(body)
  {
    var inner := tag + (body + "```");
    assert before + tag + body + "```" + after == before + inner + after;
    assert Strip(before + inner + after) == inner by {
      assert inner[0] == tag[0] && inner[|inner| - 1] == '`';
      StripOf(before, inner, after);
    }
    assert DropOpeningFence(inner) == body + "```" by {
      OpeningFenceCut(tag, body + "```");
    }
    assert Strip(body + "```") == LStrip(body) + "```" by {
      StripBeforeFence(body);
    }
    assert DropClosingFence(LStrip(body) + "```") == LStrip(body) by {
      ClosingFenceCut(LStrip(body));
    }
    StripOfLStrip(body);
  }

  lemma OpeningFenceCut(tag: string, rest: string)
    requires JsonFenceAt(tag) && |tag| == 7
    ensures DropOpeningFence(tag + rest) == rest
  {
    assert (tag + rest)[..7] == tag;
    assert (tag + rest)[..3] == tag[..3];
    assert (tag + rest)[7..] == rest;
  }

  lemma ClosingFenceCut(t: string)
    ensures DropClosingFence(t + "```") == t
  {
    assert (t + "```")[|t|..] == "```";
    assert (t + "```")[..|t|] == t;
  }

  /** A JSON value that `generate_quiz` accepts as a question. */
  predicate IsQuestion(q: Value) {
    && q.Obj?
    && HasKey(q.fields, "question")
    && HasKey(q.fields, "options")
    && HasKey(q.fields, "answer_index")
    && Get(q.fields, "options").value.Arr?
    && |Get(q.fields, "options").value.items| == 4
  }

  /** `a` is `b` with some elements left out and the rest kept in their order. */
  predicate Subsequence(a: seq<Value>, b: seq<Value>)
    decreases |b|
  {
    if a == [] then true
    else if b == [] then false
    else (a[|a| - 1] == b[|b| - 1] && Subsequence(a[..|a| - 1], b[..|b| - 1])) || Subsequence(a, b[..|b| - 1])
  }

  /** The questions among `xs`, in their order. */
  function Questions(xs: seq<Value>): (r: seq<Value>)
    ensures |r| <= |xs|
    ensures forall i :: 0 <= i < |r| ==> IsQuestion(r[i]) && r[i] in xs
    ensures Subsequence(r, xs)
  {
    if xs == [] then []
    else
      var init := Questions(xs[..|xs| - 1]);
      var last := xs[|xs| - 1];
      assert forall v :: v in xs[..|xs| - 1] ==> v in xs;
      if IsQuestion(last) then
        assert (init + [last])[..|init|] == init;
        init + [last]
      else
        init
  }

  /** Every question in `xs` is kept. */
  lemma {:induction false} QuestionsComplete(xs: seq<Value>, i: nat)
    requires i < |xs| && IsQuestion(xs[i])
    ensures xs[i] in Questions(xs)
  {
    if i < |xs| - 1 {
      assert xs[..|xs| - 1][i] == xs[i];
      QuestionsComplete(xs[..|xs| - 1], i);
    }
  }

  /** A list made only of questions is kept whole. */
  lemma {:induction false} QuestionsAllValid(xs: seq<Value>)
    requires forall i :: 0 <= i < |xs| ==> IsQuestion(xs[i])
    ensures Questions(xs) == xs
  {
    if xs != [] {
      QuestionsAllValid(xs[..|xs| - 1]);
      assert xs[..|xs| - 1] + [xs[|xs| - 1]] == xs;
    }
  }

  /** `for q in quiz`: a list yields its items, a dict its keys, a string its characters; any other value raises TypeError. */
  function Iterate(v: Value): (r: Result<seq<Value>>)
    ensures r.Err? <==> v.Null? || v.Bool? || v.Num?
    ensures v.Arr? ==> r == Ok(v.items)
    ensures v.Obj? ==> r.Ok? && |r.value| == |v.fields| && forall i :: 0 <= i < |v.fields| ==> r.value[i] == Str(v.fields[i].0)
    ensures v.Str? ==> r.Ok? && |r.value| == |v.s| && forall i :: 0 <= i < |v.s| ==> r.value[i] == Str([v.s[i]])
  {
    match v
    case Arr(items) => Ok(items)
    case Obj(fields) => Ok(seq(|fields|, i requires 0 <= i < |fields| => Str(fields[i].0)))
    case Str(s) => Ok(seq(|s|, i requires 0 <= i < |s| => Str([s[i]])))
    case _ => Err("TypeError")
  }

  /** A dict or a string at the top level yields only strings, none of which is a question. */
  lemma NoQuestionsOutsideList(v: Value)
    requires v.Obj? || v.Str?
    ensures Iterate(v).Ok? && Questions(Iterate(v).value) == []
  {
    var items := Iterate(v).value;
  }

  /** `s[:n]` with Python's slice rules: a negative `n` counts from the end. */
  function PySliceTo(s: seq<Value>, n: int): (r: seq<Value>)
    ensures |r| <= |s| && r == s[..|r|]
    ensures n >= 0 ==> |r| == if n < |s| then n else |s|
    ensures n < 0 ==> |r| == if |s| + n > 0 then |s| + n else 0
  {
    if n >= 0 then (if n < |s| then s[..n] else s)
    else if |s| + n > 0 then s[..|s| + n] else []
  }

  /** What `generate_quiz` returns for the model's reply `reply`, or the exception it raises. */
  function QuizFrom(reply: string, numQ: int, parse: string -> Option<Value>): (r: Result<seq<Value>>)
    ensures r.Ok? ==> forall i :: 0 <= i < |r.value| ==> IsQuestion(r.value[i])
    ensures r.Ok? && numQ >= 0 ==> |r.value| <= numQ
  {
    QuizOf(CleanFences(reply), numQ, parse)
  }

  /** The quiz made from the cleaned reply `text`. */
  function QuizOf(text: string, numQ: int, parse: string -> Option<Value>): (r: Result<seq<Value>>)
    ensures r.Ok? ==> forall i :: 0 <= i < |r.value| ==> IsQuestion(r.value[i])
    ensures r.Ok? && numQ >= 0 ==> |r.value| <= numQ
  {
    var quiz := match parse(text) case Some(v) => v case None => Arr([]);
    match Iterate(quiz)
    case Err(e) => Err(e)
    case Ok(items) =>
      var r := PySliceTo(Questions(items), numQ);
      assert forall i :: 0 <= i < |r| ==> r[i] == Questions(items)[i];
      Ok(r)
  }

  /** A reply that does not parse gives an empty quiz rather than an error. */
  lemma UnparsableReply(text: string, numQ: int, parse: string -> Option<Value>)
    requires parse(text).None?
    ensures QuizOf(text, numQ, parse) == Ok([])
  {
  }

  /** Parsing to a number, a boolean or null raises TypeError. */
  lemma ScalarReply(text: string, numQ: int, parse: string -> Option<Value>)
    requires parse(text).Some?
    ensures QuizOf(text, numQ, parse).Err? <==> parse(text).value.Num? || parse(text).value.Bool? || parse(text).value.Null?
  {
  }

  /**
   * For a JSON list the quiz is the list's questions in their order, cut to the first
   * `numQ`; every question of the list is among them when no more than `numQ` are there.
   */
  lemma ListReply(text: string, numQ: int, parse: string -> Option<Value>, items: seq<Value>)
    requires parse(text) == Some(Arr(items))
    ensures QuizOf(text, numQ, parse).Ok?
    ensures var quiz := QuizOf(text, numQ, parse).value;
      quiz == Questions(items)[..|quiz|] && Subsequence(Questions(items), items)
    ensures numQ >= 0 ==> |QuizOf(text, numQ, parse).value| == if numQ < |Questions(items)| then numQ else |Questions(items)|
    ensures numQ >= |Questions(items)| ==> QuizOf(text, numQ, parse) == Ok(Questions(items))
  {
  }

  /** A well-formed list of at most `numQ` questions comes back unchanged. */
  lemma AllValidReply(text: string, numQ: int, parse: string -> Option<Value>, items: seq<Value>)
    requires parse(text) == Some(Arr(items))
    requires forall i :: 0 <= i < |items| ==> IsQuestion(items[i])
    requires |items| <= numQ
    ensures QuizOf(text, numQ, parse) == Ok(items)
  {
    QuestionsAllValid(items);
  }

  /** The `TutorBot` object: its system prompt and the history of exchanges it has had. */
  class TutorBot {
    const sysPrompt: string := SysPrompt
    var history: seq<Turn>

    constructor ()
      ensures history == []
    {
      history := [];
    }

    /** The contents list `chat` builds for `userMsg`. */
    method BuildContents(userMsg: string) returns (contents: seq<string>)
      ensures contents == Context(history, userMsg)
    {
      contents := [sysPrompt];
      var i := 0;
      while i < |history|
        invariant 0 <= i <= |history|
        invariant contents == [SysPrompt] + Exchanges(history[..i])
      {
        assert history[..i + 1][..i] == history[..i];
        contents := contents + [history[i].user, history[i].bot];
        i := i + 1;
      }
      assert history[..|history|] == history;
      contents := contents + [userMsg];
    }

    /** `chat`: ask the model with the whole conversation as context and record the exchange. */
    method Chat(userMsg: string, generate: seq<string> -> string) returns (answer: string)
      modifies this
      ensures answer == generate(Context(old(history), userMsg))
      ensures history == old(history) + [Turn(userMsg, answer)]
    {
      var contents := BuildContents(userMsg);
      answer := generate(contents);
      history := history + [Turn(userMsg, answer)];
    }

    /** `generate_quiz`: one request with the system prompt and the quiz prompt; the history is not touched. */
    method GenerateQuiz(topic: string, numQ: int, generate: seq<string> -> string, parse: string -> Option<Value>)
      returns (r: Result<seq<Value>>)
      ensures r == QuizFrom(generate([SysPrompt, QuizPrompt(topic, numQ)]), numQ, parse)
    {
      var reply := generate([sysPrompt, QuizPrompt(topic, numQ)]);
      var raw := CleanFences(reply);
      var quiz := match parse(raw) case Some(v) => v case None => Arr([]);
      var items := Iterate(quiz);
      if items.Err? {
        return Err(items.error);
      }
      var cleaned := KeepQuestions(items.value);
      r := Ok(PySliceTo(cleaned, numQ));
    }
  }

  /** The filtering loop of `generate_quiz`: keep each item that is a question, in order. */
  method KeepQuestions(xs: seq<Value>) returns (cleaned: seq<Value>)
    ensures cleaned == Questions(xs)
  {
    cleaned := [];
    var i := 0;
    while i < |xs|
      invariant 0 <= i <= |xs|
      invariant cleaned == Questions(xs[..i])
    {
      assert xs[..i + 1][..i] == xs[..i];
      if IsQuestion(xs[i]) {
        cleaned := cleaned + [xs[i]];
      }
      i := i + 1;
    }
    assert xs[..|xs|] == xs;
  }
}
