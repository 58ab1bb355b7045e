/**
 * models/adaptive_engine.py: the adaptive difficulty policy. Quiz outcomes give a
 * mastery score; the score falls into one of six CEFR/difficulty tiers; the detected
 * emotion may override the difficulty label and picks the coaching tone; the topic's
 * roadmap entry is looked up in the flattened roadmap table, with a fixed fallback.
 */
module AdaptiveEngine {
  import opened Wrappers
  import opened JsonValue
  import opened RoadmapLoader

  datatype Cefr = A1 | A2 | B1 | B2 | C1 | C2 {
    /** Position on the CEFR scale, A1 lowest. */
    function Ordinal(): nat {
      match this
      case A1 => 0
      case A2 => 1
      case B1 => 2
      case B2 => 3
      case C1 => 4
      case C2 => 5
    }

    function Name(): string {
      match this
      case A1 => "A1"
      case A2 => "A2"
      case B1 => "B1"
      case B2 => "B2"
      case C1 => "C1"
      case C2 => "C2"
    }
  }

  datatype Difficulty = Easy | Medium | Hard | VeryHard | SupportiveReview | StretchChallenge {
    function Name(): string {
      match this
      case Easy => "Easy"
      case Medium => "Medium"
      case Hard => "Hard"
      case VeryHard => "Very Hard"
      case SupportiveReview => "Supportive / Review"
      case StretchChallenge => "Stretch Challenge"
    }
  }

  /** Mastery assumed for a learner with no quiz results yet. */
  const ColdStartMastery: real := 0.10

  const SupportiveTone := "Supportive pace. Shorter steps, simpler questions."
  /** The source's literal holds a mis-encoded em dash (U+00E2 U+20AC U+201D); it is kept as written. */
  const EngagedTone := "Engaged \U{E2}\U{20AC}\U{201D} gently increasing challenge."
  const UndetectedTone := "Emotion not detected. Proceeding at normal pace."

  const FallbackLevel := "A1"
  const FallbackDescription := "Basics kickoff"

  function Sum(xs: seq<int>): int {
    if xs == [] then 0 else Sum(xs[..|xs| - 1]) + xs[|xs| - 1]
  }

  /** `predict_mastery`: the mean of the results, or the cold-start value for none. */
  function PredictMastery(results: seq<int>): (p: real)
    ensures results == [] ==> p == ColdStartMastery
    ensures results != [] ==> p * (|results| as real) == Sum(results) as real
  {
    if results == [] then ColdStartMastery else Sum(results) as real / (|results| as real)
  }

  /** Every result is a quiz outcome, 0 or 1. */
  predicate Outcomes(xs: seq<int>) {
    forall i :: 0 <= i < |xs| ==> xs[i] == 0 || xs[i] == 1
  }

  /** For 0/1 outcomes the sum is the number of 1s. */
  lemma {:induction false} SumOfOutcomes(xs: seq<int>)
    requires Outcomes(xs)
    ensures Sum(xs) == multiset(xs)[1]
    ensures 0 <= Sum(xs) <= |xs|
  {
    if xs != [] {
      var init := xs[..|xs| - 1];
      assert xs == init + [xs[|xs| - 1]];
      assert multiset(xs) == multiset(init) + multiset{xs[|xs| - 1]};
      SumOfOutcomes(init);
    }
  }

  /** For a non-empty list of outcomes, mastery is the share of correct answers, in [0, 1]. */
  lemma MasteryOfOutcomes(xs: seq<int>)
    requires Outcomes(xs) && xs != []
    ensures PredictMastery(xs) == (multiset(xs)[1] as real) / (|xs| as real)
    ensures 0.0 <= PredictMastery(xs) <= 1.0
  {
    SumOfOutcomes(xs);
  }

  lemma {:induction false} SumRemove(xs: seq<int>, k: nat)
    requires k < |xs|
    ensures Sum(xs) == xs[k] + Sum(xs[..k] + xs[k + 1..])
    decreases |xs|
  {
    var init := xs[..|xs| - 1];
    if k < |xs| - 1 {
      SumRemove(init, k);
      assert init[..k] + init[k + 1..] + [xs[|xs| - 1]] == xs[..k] + xs[k + 1..];
      var rest := xs[..k] + xs[k + 1..];
      assert rest[..|rest| - 1] == init[..k] + init[k + 1..];
    } else {
      assert xs[..k] + xs[k + 1..] == init;
    }
  }

  /** The sum does not depend on the order of the results. */
  lemma {:induction false} SumPermutation(a: seq<int>, b: seq<int>)
    requires multiset(a) == multiset(b)
    ensures Sum(a) == Sum(b)
    decreases |a|
  {
    if a == [] {
      assert |b| == |multiset(b)| == 0;
    } else {
      var x := a[|a| - 1];
      var a' := a[..|a| - 1];
      assert a == a' + [x];
      assert multiset(a') == multiset(a) - multiset{x};
      assert x in multiset(b);
      var k :| 0 <= k < |b| && b[k] == x;
      MultisetRemove(b, k);
      SumPermutation(a', b[..k] + b[k + 1..]);
      SumRemove(b, k);
    }
  }

  /** Taking out the element at `k` takes one copy of it out of the multiset. */
  lemma MultisetRemove(b: seq<int>, k: nat)
    requires k < |b|
    ensures multiset(b[..k] + b[k + 1..]) == multiset(b) - multiset{b[k]}
  {
    assert b == b[..k] + [b[k]] + b[k + 1..];
  }

  /** Reordering the results does not change the mastery estimate. */
  lemma MasteryPermutation(a: seq<int>, b: seq<int>)
    requires multiset(a) == multiset(b)
    ensures PredictMastery(a) == PredictMastery(b)
  {
    SumPermutation(a, b);
    assert |a| == |multiset(a)| == |multiset(b)| == |b|;
  }

  /**
   * `map_cefr_and_label`: the six tiers, each a half-open interval closed below,
   * so a score exactly on a threshold belongs to the tier above it.
   */
  function MapCefrAndLabel(p: real): (r: (Cefr, Difficulty))
    ensures r == (A1, Easy) <==> p < 0.20
    ensures r == (A2, Easy) <==> 0.20 <= p < 0.40
    ensures r == (B1, Medium) <==> 0.40 <= p < 0.55
    ensures r == (B2, Medium) <==> 0.55 <= p < 0.70
    ensures r == (C1, Hard) <==> 0.70 <= p < 0.85
    ensures r == (C2, VeryHard) <==> 0.85 <= p
  {
    if p < 0.20 then (A1, Easy)
    else if p < 0.40 then (A2, Easy)
    else if p < 0.55 then (B1, Medium)
    else if p < 0.70 then (B2, Medium)
    else if p < 0.85 then (C1, Hard)
    else (C2, VeryHard)
  }

  /** A higher mastery never gives a lower CEFR level. */
  lemma CefrMonotone(p: real, q: real)
    requires p <= q
    ensures MapCefrAndLabel(p).0.Ordinal() <= MapCefrAndLabel(q).0.Ordinal()
  {
  }

  /** The two fixed emotion groups tested by `get_topic_info`; anything else, None included, is undetected. */
  datatype EmotionGroup = Negative | PositiveOrNeutral | Undetected

  const NegativeEmotions: seq<string> := ["sad", "angry", "disgust", "fear"]
  const PositiveEmotions: seq<string> := ["happy", "surprise", "neutral"]

  function GroupOf(emotion: Option<string>): (g: EmotionGroup)
    ensures g == Negative <==> emotion.Some? && emotion.value in NegativeEmotions
    ensures g == PositiveOrNeutral <==> emotion.Some? && emotion.value in PositiveEmotions
  {
    if emotion.Some? && emotion.value in NegativeEmotions then Negative
    else if emotion.Some? && emotion.value in PositiveEmotions then PositiveOrNeutral
    else Undetected
  }

  /**
   * The emotion override: a negative emotion forces the supportive label, a positive or
   * neutral one lifts Easy and Medium to the stretch label; the tone follows the group.
   */
  function ApplyEmotion(base: Difficulty, emotion: Option<string>): (r: (Difficulty, string))
    ensures GroupOf(emotion) == Negative ==> r == (SupportiveReview, SupportiveTone)
    ensures GroupOf(emotion) == PositiveOrNeutral ==> r.1 == EngagedTone
    ensures GroupOf(emotion) == PositiveOrNeutral && (base == Easy || base == Medium) ==> r.0 == StretchChallenge
    ensures GroupOf(emotion) == PositiveOrNeutral && base != Easy && base != Medium ==> r.0 == base
    ensures GroupOf(emotion) == Undetected ==> r == (base, UndetectedTone)
  {
    match GroupOf(emotion)
    case Negative => (SupportiveReview, SupportiveTone)
    case PositiveOrNeutral => (if base == Easy || base == Medium then StretchChallenge else base, EngagedTone)
    case Undetected => (base, UndetectedTone)
  }

  /** The override moves a label at most one step: re-applying the same emotion changes nothing more. */
  lemma OverrideIdempotent(base: Difficulty, emotion: Option<string>)
    ensures ApplyEmotion(ApplyEmotion(base, emotion).0, emotion) == ApplyEmotion(base, emotion)
  {
  }

  /** Hard and Very Hard are never lifted, and the override only ever yields the base label or one of the two override labels. */
  lemma OverrideTargets(base: Difficulty, emotion: Option<string>)
    ensures var d := ApplyEmotion(base, emotion).0;
      d == base || d == SupportiveReview || (d == StretchChallenge && (base == Easy || base == Medium))
  {
  }

  /** The dict `get_topic_info` returns. */
  datatype TopicInfo = TopicInfo(
    topic: string,
    predictedMastery: real,
    modelLevel: Cefr,
    baseDifficulty: Difficulty,
    roadmapLevel: string,
    description: Value,
    examples: Value,
    emotion: Option<string>,
    coachMessage: string)

  /** Row `i` is the first row of the table for `topic`. */
  predicate FirstFor(table: seq<TopicRow>, topic: string, i: int) {
    0 <= i < |table| && table[i].topic == topic && forall j :: 0 <= j < i ==> table[j].topic != topic
  }

  /** `df[df["topic"] == topic].iloc[0]`: the first row of the table for the topic, if any. */
  function FindRow(table: seq<TopicRow>, topic: string): (r: Option<TopicRow>)
    ensures r.None? <==> forall i :: 0 <= i < |table| ==> table[i].topic != topic
    ensures r.Some? ==> exists i :: 0 <= i < |table| && table[i] == r.value && FirstFor(table, topic, i)
  {
    if table == [] then None
    else if table[0].topic == topic then Some(table[0])
    else
      var r := FindRow(table[1..], topic);
      if r.Some? then
        var i :| 0 <= i < |table[1..]| && table[1..][i] == r.value && FirstFor(table[1..], topic, i);
        assert table[i + 1] == r.value;
        assert FirstFor(table, topic, i + 1) by {
          forall j | 0 <= j < i + 1 ensures table[j].topic != topic {
            if j > 0 { assert table[j] == table[1..][j - 1]; }
          }
        }
        r
      else
        assert forall i :: 0 <= i < |table| ==> table[i].topic != topic by {
          forall i | 0 <= i < |table| ensures table[i].topic != topic {
            if i > 0 { assert table[i] == table[1..][i - 1]; }
          }
        }
        r
  }

  /**
   * `get_topic_info`, for a non-empty topics table (see `GetTopicInfoAsWritten`) and, as
   * the corrected behaviour, for an empty one: the roadmap fields of the first row for the
   * topic or the fallback entry, the CEFR level of the mastery tier, and the
   * emotion-adjusted label and tone.
   */
  function GetTopicInfo(table: seq<TopicRow>, topic: string, results: seq<int>, emotion: Option<string>): (info: TopicInfo)
    ensures info.topic == topic && info.emotion == emotion
    ensures info.predictedMastery == PredictMastery(results)
    ensures info.modelLevel == MapCefrAndLabel(PredictMastery(results)).0
    ensures (info.baseDifficulty, info.coachMessage) == ApplyEmotion(MapCefrAndLabel(PredictMastery(results)).1, emotion)
    ensures (forall i :: 0 <= i < |table| ==> table[i].topic != topic) ==>
      info.roadmapLevel == FallbackLevel && info.description == Str(FallbackDescription) && info.examples == Arr([])
    ensures forall i :: FirstFor(table, topic, i) ==>
      info.roadmapLevel == table[i].roadmapLevel && info.description == table[i].description && info.examples == table[i].examples
  {
    var found := FindRow(table, topic);
    assert forall i :: FirstFor(table, topic, i) ==> found == Some(table[i]) by {
      forall i | FirstFor(table, topic, i) ensures found == Some(table[i]) {
        var k :| 0 <= k < |table| && table[k] == found.value && FirstFor(table, topic, k);
        assert !(k < i) && !(i < k);
      }
    }
    var (roadmapLevel, desc, examples) :=
      match found
      case None => (FallbackLevel, Str(FallbackDescription), Arr([]))
      case Some(row) => (row.roadmapLevel, row.description, row.examples);
    var pMastery := PredictMastery(results);
    var (cefr, base) := MapCefrAndLabel(pMastery);
    var (difficulty, tone) := ApplyEmotion(base, emotion);
    TopicInfo(topic, pMastery, cefr, difficulty, roadmapLevel, desc, examples, emotion, tone)
  }

  /**
   * `get_topic_info` as written: the table is `pd.DataFrame(topics)`, which has no
   * "topic" column when the roadmap yields no records, so `df["topic"]` raises KeyError
   * instead of reaching the fallback.
   */
  function GetTopicInfoAsWritten(table: seq<TopicRow>, topic: string, results: seq<int>, emotion: Option<string>): (r: Result<TopicInfo>)
    ensures table == [] <==> r.Err?
    ensures r.Ok? ==> r.value == GetTopicInfo(table, topic, results, emotion)
  {
    if table == [] then Err("KeyError") else Ok(GetTopicInfo(table, topic, results, emotion))
  }

  /** The discrepancy: with an empty table the code raises although the fallback entry was meant for a missing topic. */
  lemma EmptyTableRaises(topic: string, results: seq<int>, emotion: Option<string>)
    ensures GetTopicInfoAsWritten([], topic, results, emotion).Err?
    ensures GetTopicInfo([], topic, results, emotion).roadmapLevel == FallbackLevel
  {
  }

  /** A new learner with no detected emotion: cold-start mastery, A1 and Easy, the normal-pace tone. */
  lemma NewLearnerScenario(table: seq<TopicRow>, topic: string)
    ensures var info := GetTopicInfo(table, topic, [], None);
      && info.predictedMastery == 0.10
      && info.modelLevel == A1 && info.baseDifficulty == Easy
      && info.coachMessage == UndetectedTone
  {
  }

  /** A perfect score with a sad face: level C2 is kept, the label turns supportive. */
  lemma SadExpertScenario(table: seq<TopicRow>, topic: string)
    ensures var info := GetTopicInfo(table, topic, [1, 1, 1, 1, 1], Some("sad"));
      && info.predictedMastery == 1.0
      && info.modelLevel == C2 && info.baseDifficulty == SupportiveReview
      && info.coachMessage == SupportiveTone
  {
    assert [1, 1, 1, 1, 1][..4] == [1, 1, 1, 1];
    assert [1, 1, 1, 1][..3] == [1, 1, 1];
    assert [1, 1, 1][..2] == [1, 1];
    assert [1, 1][..1] == [1];
    assert Sum([1, 1, 1, 1, 1]) == 5;
  }

  /** Half right and happy: mastery 0.5 is B1/Medium, lifted to the stretch label. */
  lemma HappyHalfScenario(table: seq<TopicRow>, topic: string)
    ensures var info := GetTopicInfo(table, topic, [0, 1, 0, 1], Some("happy"));
      && info.predictedMastery == 0.5
      && info.modelLevel == B1 && info.baseDifficulty == StretchChallenge
      && info.coachMessage == EngagedTone
  {
    assert [0, 1, 0, 1][..3] == [0, 1, 0];
    assert [0, 1, 0][..2] == [0, 1];
    assert [0, 1][..1] == [0];
    assert Sum([0, 1, 0, 1]) == 2;
  }
}
