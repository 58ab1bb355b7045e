/**
 * utils/session_state.py: `init_state` fills in the entries of Streamlit's session store
 * that are missing, and never replaces one that is present. The store is accessed by
 * attribute (`st.session_state.quiz_data`), so it is modelled as an object with one
 * optional slot per key, None while the key is absent. The saved game state that
 * `load_game_state` reads from disk is the parameter `loaded` (an Err when reading or
 * decoding the file raises).
 */
module SessionState {
  import opened Wrappers
  import opened JsonValue

  /** A value held in the session store: Python's None and parsed JSON are `Json`; any other object (the chatbot) is a `Handle`. */
  datatype Item = Json(v: Value) | Handle(id: nat)

  const NoneItem := Json(Null)
  const EmptyList := Json(Arr([]))

  /** The topic of a first run when the saved game state names none. */
  const DefaultTopic := "A1: Greetings and Introductions"

  /** The nine keys `init_state` guarantees, in the order it sets them. */
  datatype Key =
    | GameState | TutorBot | QuizData | QuizAnswers | UserResults
    | CurrentEmotion | ChatHistory | CurrentTopic | TeachingBlock
  {
    function Name(): string {
      match this
      case GameState => "game_state"
      case TutorBot => "tutorbot"
      case QuizData => "quiz_data"
      case QuizAnswers => "quiz_answers"
      case UserResults => "user_results"
      case CurrentEmotion => "current_emotion"
      case ChatHistory => "chat_history"
      case CurrentTopic => "current_topic"
      case TeachingBlock => "teaching_block"
    }
  }

  /** The contents of the store under the nine keys; None is a key that is not in the store. */
  datatype Slots = Slots(
    gameState: Option<Item>,
    tutorbot: Option<Item>,
    quizData: Option<Item>,
    quizAnswers: Option<Item>,
    userResults: Option<Item>,
    currentEmotion: Option<Item>,
    chatHistory: Option<Item>,
    currentTopic: Option<Item>,
    teachingBlock: Option<Item>)
  {
    /** `st.session_state.get(key)`. */
    function Lookup(k: Key): Option<Item> {
      match k
      case GameState => gameState
      case TutorBot => tutorbot
      case QuizData => quizData
      case QuizAnswers => quizAnswers
      case UserResults => userResults
      case CurrentEmotion => currentEmotion
      case ChatHistory => chatHistory
      case CurrentTopic => currentTopic
      case TeachingBlock => teachingBlock
    }
  }

  /** Every key is in the store. */
  predicate Complete(s: Slots) {
    forall k: Key :: s.Lookup(k).Some?
  }

  /** The value a missing key receives when it does not depend on the saved game state. */
  function FixedDefault(k: Key): (d: Option<Item>)
    ensures d.Some? <==> k != GameState && k != CurrentTopic
  {
    match k
    case UserResults => Some(EmptyList)
    case ChatHistory => Some(EmptyList)
    case GameState => None
    case CurrentTopic => None
    case _ => Some(NoneItem)
  }

  /** `if key not in st.session_state: st.session_state.key = value`. */
  function SetDefault(slot: Option<Item>, value: Item): (r: Option<Item>)
  {
    if slot.Some? then slot else Some(value)
  }

  /** The first-run topic: `game_state.get("current_topic", DefaultTopic)`; anything but a dict has no `get`. */
  function SavedTopic(gameState: Item): (r: Result<Item>)
    ensures r.Err? <==> !(gameState.Json? && gameState.v.Obj?)
    ensures r.Ok? ==> exists fields :: gameState == Json(Obj(fields)) && r.value == Json(GetOr(fields, "current_topic", Str(DefaultTopic)))
  {
    match gameState
    case Json(Obj(fields)) => Ok(Json(GetOr(fields, "current_topic", Str(DefaultTopic))))
    case _ => Err("AttributeError")
  }

  /** The six keys from "tutorbot" to "chat_history" filled in. */
  function WithFixedDefaults(s: Slots): Slots {
    s.(
      tutorbot := SetDefault(s.tutorbot, NoneItem),
      quizData := SetDefault(s.quizData, NoneItem),
      quizAnswers := SetDefault(s.quizAnswers, NoneItem),
      userResults := SetDefault(s.userResults, EmptyList),
      currentEmotion := SetDefault(s.currentEmotion, NoneItem),
      chatHistory := SetDefault(s.chatHistory, EmptyList))
  }

  /**
   * The store after `init_state` and the exception it raised, if any. An exception
   * leaves the keys set before it in place.
   */
  function Init(s: Slots, loaded: Result<Value>): (r: (Slots, Option<string>))
  {
    if s.gameState.None? && loaded.Err? then (s, Some(loaded.error))
    else
      var gameState := if s.gameState.Some? then s.gameState.value else Json(loaded.value);
      var t := WithFixedDefaults(s.(gameState := Some(gameState)));
      if s.currentTopic.Some? then
        (t.(teachingBlock := SetDefault(s.teachingBlock, NoneItem)), None)
      else
        match SavedTopic(gameState)
        case Err(e) => (t, Some(e))
        case Ok(topic) => (t.(currentTopic := Some(topic), teachingBlock := SetDefault(s.teachingBlock, NoneItem)), None)
  }

  /** A key already in the store keeps its value, whatever happens. */
  lemma InitKeepsPresent(s: Slots, loaded: Result<Value>)
    ensures forall k: Key :: s.Lookup(k).Some? ==> Init(s, loaded).0.Lookup(k) == s.Lookup(k)
  {
  }

  /** After a successful call every key is present. */
  lemma InitCompletes(s: Slots, loaded: Result<Value>)
    requires Init(s, loaded).1.None?
    ensures Complete(Init(s, loaded).0)
  {
  }

  /**
   * The call raises exactly when the game state has to be loaded and cannot be, or
   * when the topic has to be read from a game state that is not a JSON object.
   */
  lemma InitRaises(s: Slots, loaded: Result<Value>)
    ensures var r := Init(s, loaded);
      r.1.Some? <==>
      || (s.gameState.None? && loaded.Err?)
      || (s.currentTopic.None? && r.0.gameState.Some? && SavedTopic(r.0.gameState.value).Err?)
  {
  }

  /** A missing key gets its default: None or the empty list, the loaded game state, or the saved topic. */
  lemma InitDefaults(s: Slots, loaded: Result<Value>)
    ensures var r := Init(s, loaded).0;
      forall k: Key :: s.Lookup(k).None? && r.Lookup(k).Some? && FixedDefault(k).Some? ==> r.Lookup(k) == FixedDefault(k)
    ensures var r := Init(s, loaded).0;
      s.gameState.None? && r.gameState.Some? ==> loaded.Ok? && r.gameState == Some(Json(loaded.value))
    ensures var r := Init(s, loaded).0;
      s.currentTopic.None? && r.currentTopic.Some? ==> r.gameState.Some? && Ok(r.currentTopic.value) == SavedTopic(r.gameState.value)
  {
  }

  /** A second `init_state` after a successful one changes nothing and reads no file. */
  lemma InitIdempotent(s: Slots, loaded: Result<Value>, again: Result<Value>)
    requires Init(s, loaded).1.None?
    ensures Init(Init(s, loaded).0, again) == (Init(s, loaded).0, None)
  {
  }

  /** `init_state` on a store that already holds every key leaves it as it is. */
  lemma InitComplete(s: Slots, loaded: Result<Value>)
    requires Complete(s)
    ensures Init(s, loaded) == (s, None)
  {
    assert s.Lookup(GameState).Some? && s.Lookup(TutorBot).Some? && s.Lookup(QuizData).Some?;
    assert s.Lookup(QuizAnswers).Some? && s.Lookup(UserResults).Some? && s.Lookup(CurrentEmotion).Some?;
    assert s.Lookup(ChatHistory).Some? && s.Lookup(CurrentTopic).Some? && s.Lookup(TeachingBlock).Some?;
  }

  const EmptySlots := Slots(None, None, None, None, None, None, None, None, None)

  /** The very first run with a saved game state that is a JSON object. */
  lemma FirstRun(fields: seq<(string, Value)>)
    ensures var r := Init(EmptySlots, Ok(Obj(fields)));
      && r.1.None? && Complete(r.0)
      && r.0.gameState == Some(Json(Obj(fields)))
      && r.0.currentTopic == Some(Json(GetOr(fields, "current_topic", Str(DefaultTopic))))
      && r.0.userResults == Some(EmptyList) && r.0.chatHistory == Some(EmptyList)
      && r.0.quizData == Some(NoneItem) && r.0.quizAnswers == Some(NoneItem)
  {
  }

  /** Streamlit's session store, one field per key. */
  class Session {
    var gameState: Option<Item>
    var tutorbot: Option<Item>
    var quizData: Option<Item>
    var quizAnswers: Option<Item>
    var userResults: Option<Item>
    var currentEmotion: Option<Item>
    var chatHistory: Option<Item>
    var currentTopic: Option<Item>
    var teachingBlock: Option<Item>

    /** The store's contents under the nine keys. */
    function Contents(): Slots
      reads this
    {
      Slots(gameState, tutorbot, quizData, quizAnswers, userResults, currentEmotion, chatHistory, currentTopic, teachingBlock)
    }

    constructor (initial: Slots)
      ensures Contents() == initial
    {
      gameState, tutorbot, quizData := initial.gameState, initial.tutorbot, initial.quizData;
      quizAnswers, userResults, currentEmotion := initial.quizAnswers, initial.userResults, initial.currentEmotion;
      chatHistory, currentTopic, teachingBlock := initial.chatHistory, initial.currentTopic, initial.teachingBlock;
    }

    /** `init_state(st)`: set each missing key in turn; an exception stops at the key that raised. */
    method InitState(loaded: Result<Value>) returns (error: Option<string>)
      modifies this
      ensures (Contents(), error) == Init(old(Contents()), loaded)
    {
      if gameState.None? {
        if loaded.Err? {
          return Some(loaded.error);
        }
        gameState := Some(Json(loaded.value));
      }
      SetFixedDefaults();
      if currentTopic.None? {
        var topic := SavedTopic(gameState.value);
        if topic.Err? {
          return Some(topic.error);
        }
        currentTopic := Some(topic.value);
      }
      if teachingBlock.None? {
        teachingBlock := Some(NoneItem);
      }
      error := None;
    }

    /** The six keys that default to None or to an empty list, in the order `init_state` sets them. */
    method SetFixedDefaults()
      modifies this
      ensures Contents() == WithFixedDefaults(old(Contents()))
    {
      if tutorbot.None? {
        tutorbot := Some(NoneItem);
      }
      if quizData.None? {
        quizData := Some(NoneItem);
      }
      if quizAnswers.None? {
        quizAnswers := Some(NoneItem);
      }
      if userResults.None? {
        userResults := Some(EmptyList);
      }
      if currentEmotion.None? {
        currentEmotion := Some(NoneItem);
      }
      if chatHistory.None? {
        chatHistory := Some(EmptyList);
      }
    }
  }
}
