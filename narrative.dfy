/**
 * Phase 3, hidden narrative reasoning: pick a narrative archetype by keyword
 * scores, lay out a five-beat emotional curve, find contrasts between adjacent
 * visual scenes, recommend a pacing, and list symbolic motifs.
 *
 * Intensities are in tenths (0.3 is 3).  Every answer the source treats as a
 * string is read through `TextAnswer`/`Has`; where Python would raise on a
 * value of the wrong kind the model returns `Err(TypeError)`.
 */
module Narrative {
  import opened Wrappers
  import opened Strings
  import opened Seqs
  import opened Answers

  const TypeError: string := "TypeError"

  const ToneKey: string := "emotional_tone"
  const SourceKey: string := "source_material"
  const RhythmKey: string := "editing_rhythm"
  const EndingKey: string := "ending_style"
  const DurationKey: string := "target_duration"
  const PlatformKey: string := "target_platform"

  // ---------------------------------------------------------------- archetypes

  const HeroJourney: string := "hero_journey"
  const Transformation: string := "transformation"
  const LoveStory: string := "love_story"
  const Tragedy: string := "tragedy"
  const Comedy: string := "comedy"
  const Mystery: string := "mystery"
  const Documentary: string := "documentary"
  const Montage: string := "montage"
  const Interview: string := "interview"
  const EventCoverage: string := "event_coverage"

  /** The archetype table's keys, in the table's (insertion) order. */
  const ArcNames: seq<string> := [HeroJourney, Transformation, LoveStory, Tragedy, Comedy,
    Mystery, Documentary, Montage, Interview, EventCoverage]

  /** Each archetype's description, lowercased and split into words. */
  const ArcWords: seq<seq<string>> := [
    ["protagonist", "overcomes", "challenges", "to", "achieve", "goal"],
    ["character", "undergoes", "significant", "internal", "change"],
    ["relationship", "develops", "through", "obstacles"],
    ["downward", "arc", "ending", "in", "loss", "or", "failure"],
    ["humorous", "situations", "leading", "to", "happy", "resolution"],
    ["unknown", "revealed", "through", "investigation"],
    ["informational", "with", "emotional", "human", "element"],
    ["collection", "of", "moments", "showing", "progression"],
    ["personal", "story", "told", "through", "dialogue"],
    ["chronological", "documentation", "with", "highlights"]]

  const HeroIndex: nat := 0
  const LoveIndex: nat := 2
  const TragedyIndex: nat := 3
  const DocumentaryIndex: nat := 6
  const InterviewIndex: nat := 8

  const TragicTones: seq<string> := ["tragedy", "sad", "melancholic"]
  const HeroTones: seq<string> := ["inspirational", "motivational"]
  const LoveTones: seq<string> := ["romantic", "love"]
  const InterviewFootage: string := "interview footage"
  const BRoll: string := "b-roll"
  const EventWords: seq<string> := ["wedding", "event", "vacation", "trip"]

  /** Description words longer than four characters that occur in the prompt, counted from the front. */
  function KeywordScore(pl: string, words: seq<string>): (r: nat)
    ensures r <= |words|
    decreases |words|
  {
    if words == [] then 0
    else
      var n := |words| - 1;
      KeywordScore(pl, words[..n]) + (if Contains(pl, words[n]) && |words[n]| > 4 then 1 else 0)
  }

  /** The score an archetype with this name and these description words gets from the lowercased prompt. */
  function NameScore(pl: string, name: string, words: seq<string>): (r: nat)
    ensures r <= 6 + |words|
  {
    (if Contains(pl, MapChar(name, '_', ' ')) then 3 else 0)
    + (if Contains(pl, name) then 3 else 0)
    + KeywordScore(pl, words)
  }

  function BaseScore(pl: string, i: nat): nat
    requires i < |ArcNames|
  {
    NameScore(pl, ArcNames[i], ArcWords[i])
  }

  function BaseScores(pl: string): (r: seq<int>)
    ensures |r| == |ArcNames|
    ensures forall i :: 0 <= i < |r| ==> r[i] >= 0
  {
    seq(|ArcNames|, i requires 0 <= i < |ArcNames| => BaseScore(pl, i))
  }

  /** The tone and source-material bonuses on top of the prompt scores. */
  function Adjusted(base: seq<int>, tl: string, src: Answer): (r: seq<int>)
    requires |base| == |ArcNames| && !src.Other?
    ensures |r| == |base|
  {
    var s1 := if ContainsAny(tl, TragicTones) then base[TragedyIndex := base[TragedyIndex] + 2] else base;
    var s2 := if ContainsAny(tl, HeroTones) then s1[HeroIndex := s1[HeroIndex] + 2] else s1;
    var s3 := if ContainsAny(tl, LoveTones) then s2[LoveIndex := s2[LoveIndex] + 2] else s2;
    var s4 := if Has(src, InterviewFootage).value then s3[InterviewIndex := s3[InterviewIndex] + 3] else s3;
    if Has(src, BRoll).value && Has(src, Interview).value then s4[DocumentaryIndex := s4[DocumentaryIndex] + 2] else s4
  }

  /** Bonuses only add to the scores. */
  lemma {:induction false} AdjustedGrows(base: seq<int>, tl: string, src: Answer)
    requires |base| == |ArcNames| && !src.Other?
    ensures forall i :: 0 <= i < |base| ==> Adjusted(base, tl, src)[i] >= base[i]
  {
  }

  /** Python's `max(d, key=d.get)`: the first position holding the largest value. */
  function FirstMax(s: seq<int>): (b: nat)
    requires |s| > 0
    ensures b < |s|
    ensures forall j :: 0 <= j < |s| ==> s[j] <= s[b]
    ensures forall j :: 0 <= j < b ==> s[j] < s[b]
    decreases |s|
  {
    if |s| == 1 then 0
    else
      var b := FirstMax(s[..|s| - 1]);
      if s[|s| - 1] > s[b] then |s| - 1 else b
  }

  /** The content-based fallback when no archetype scores. */
  function DefaultArc(pl: string): (r: string)
    ensures r in ArcNames
  {
    if Contains(pl, Interview) then Interview
    else if ContainsAny(pl, EventWords) then Montage
    else Documentary
  }

  /** The scores the archetype choice is made from, or the error Python raises on reading the answers. */
  function ArcScores(prompt: string, answers: Answers): (r: Result<seq<int>, string>)
    ensures r.Ok? ==> |r.value| == |ArcNames|
  {
    var tone := TextAnswer(answers, ToneKey, "");
    var src := Get(answers, SourceKey, Choices([]));
    if tone.None? || src.Other? then Err(TypeError)
    else Ok(Adjusted(BaseScores(Lower(prompt)), Lower(tone.value), src))
  }

  /** `identify_narrative_arc` */
  function Arc(prompt: string, answers: Answers): (r: Result<string, string>)
  {
    match ArcScores(prompt, answers)
    case Err(e) => Err(e)
    case Ok(s) =>
      var b := FirstMax(s);
      if s[b] > 0 then Ok(ArcNames[b]) else Ok(DefaultArc(Lower(prompt)))
  }

  /** The scoring loops of `identify_narrative_arc`: one score per archetype, in table order. */
  method ScoreArchetypes(pl: string) returns (scores: seq<int>)
    ensures scores == BaseScores(pl)
  {
    scores := [];
    var i := 0;
    while i < |ArcNames|
      invariant 0 <= i <= |ArcNames|
      invariant |scores| == i
      invariant forall k :: 0 <= k < i ==> scores[k] == BaseScore(pl, k)
    {
      var score := ScoreArchetype(pl, ArcNames[i], ArcWords[i]);
      scores := scores + [score];
      i := i + 1;
    }
  }

  /** The body of the scoring loop for one archetype. */
  method ScoreArchetype(pl: string, arc: string, words: seq<string>) returns (score: nat)
    ensures score == NameScore(pl, arc, words)
  {
    score := 0;
    if Contains(pl, MapChar(arc, '_', ' ')) {
      score := score + 3;
    }
    if Contains(pl, arc) {
      score := score + 3;
    }
    var head := score;
    var j := 0;
    while j < |words|
      invariant 0 <= j <= |words|
      invariant score == head + KeywordScore(pl, words[..j])
    {
      assert words[..j + 1][..j] == words[..j];
      if Contains(pl, words[j]) && |words[j]| > 4 {
        score := score + 1;
      }
      j := j + 1;
    }
    assert words[..|words|] == words;
  }

  method IdentifyNarrativeArc(prompt: string, answers: Answers) returns (r: Result<string, string>)
    ensures r == Arc(prompt, answers)
  {
    var pl := Lower(prompt);
    var scores := ScoreArchetypes(pl);
    var tone := TextAnswer(answers, ToneKey, "");
    var src := Get(answers, SourceKey, Choices([]));
    if tone.None? || src.Other? {
      return Err(TypeError);
    }
    scores := AddBonuses(scores, Lower(tone.value), src);
    var best := FirstMax(scores);
    if scores[best] > 0 {
      return Ok(ArcNames[best]);
    }
    return Ok(DefaultArc(pl));
  }

  /** The tone and source-material adjustments of `identify_narrative_arc`. */
  method AddBonuses(base: seq<int>, tl: string, src: Answer) returns (scores: seq<int>)
    requires |base| == |ArcNames| && !src.Other?
    ensures scores == Adjusted(base, tl, src)
  {
    scores := base;
    if ContainsAny(tl, TragicTones) {
      scores := scores[TragedyIndex := scores[TragedyIndex] + 2];
    }
    if ContainsAny(tl, HeroTones) {
      scores := scores[HeroIndex := scores[HeroIndex] + 2];
    }
    if ContainsAny(tl, LoveTones) {
      scores := scores[LoveIndex := scores[LoveIndex] + 2];
    }
    if Has(src, InterviewFootage).value {
      scores := scores[InterviewIndex := scores[InterviewIndex] + 3];
    }
    if Has(src, BRoll).value && Has(src, Interview).value {
      scores := scores[DocumentaryIndex := scores[DocumentaryIndex] + 2];
    }
  }

  /** Reading the answers fails exactly when the tone is not a string or the source material is neither a string nor a list. */
  lemma {:induction false} ArcErr(prompt: string, answers: Answers)
    ensures Arc(prompt, answers).Err? <==>
      (ToneKey in answers && !answers[ToneKey].Text?) || (SourceKey in answers && answers[SourceKey].Other?)
  {
  }

  /** The archetype is always a key of the table. */
  lemma {:induction false} ArcIsArchetype(prompt: string, answers: Answers)
    requires Arc(prompt, answers).Ok?
    ensures Arc(prompt, answers).value in ArcNames
  {
  }

  /**
   * When some archetype scores, the answer is the first archetype in table
   * order with the highest score; the content default applies only when every
   * score is zero.
   */
  lemma {:induction false} ArcFirstMax(prompt: string, answers: Answers)
    requires ArcScores(prompt, answers).Ok?
    ensures var s := ArcScores(prompt, answers).value;
      (exists i :: 0 <= i < |s| && s[i] > 0) ==>
        exists b :: 0 <= b < |s| && Arc(prompt, answers) == Ok(ArcNames[b])
          && (forall j :: 0 <= j < |s| ==> s[j] <= s[b])
          && (forall j :: 0 <= j < b ==> s[j] < s[b])
    ensures var s := ArcScores(prompt, answers).value;
      (forall i :: 0 <= i < |s| ==> s[i] == 0) ==> Arc(prompt, answers) == Ok(DefaultArc(Lower(prompt)))
  {
    var s := ArcScores(prompt, answers).value;
    var b := FirstMax(s);
    if exists i :: 0 <= i < |s| && s[i] > 0 {
      var i :| 0 <= i < |s| && s[i] > 0;
      assert s[b] >= s[i];
    }
  }

  /** No archetype scores negative, so "best score is not positive" means "every score is zero". */
  lemma {:induction false} ArcScoresNonNegative(prompt: string, answers: Answers)
    requires ArcScores(prompt, answers).Ok?
    ensures forall i :: 0 <= i < |ArcNames| ==> ArcScores(prompt, answers).value[i] >= 0
  {
    var tone := TextAnswer(answers, ToneKey, "");
    var src := Get(answers, SourceKey, Choices([]));
    AdjustedGrows(BaseScores(Lower(prompt)), Lower(tone.value), src);
  }

  lemma {:induction false} NoKeywordsInEmpty(words: seq<string>)
    ensures KeywordScore("", words) == 0
    decreases |words|
  {
    if words != [] {
      NoKeywordsInEmpty(words[..|words| - 1]);
      assert !(Contains("", words[|words| - 1]) && |words[|words| - 1]| > 4);
    }
  }

  /** No archetype scores on an empty prompt. */
  lemma {:induction false} EmptyPromptScoresNothing()
    ensures forall i :: 0 <= i < |ArcNames| ==> BaseScores("")[i] == 0
  {
    forall i | 0 <= i < |ArcNames|
      ensures BaseScores("")[i] == 0
    {
      NoKeywordsInEmpty(ArcWords[i]);
      assert |ArcNames[i]| > 0;
      assert |MapChar(ArcNames[i], '_', ' ')| > 0;
    }
  }

  /** No tone and no source material add no bonus. */
  lemma {:induction false} NoBonusWithoutAnswers(base: seq<int>)
    requires |base| == |ArcNames|
    ensures Adjusted(base, "", Choices([])) == base
  {
    NoneInEmpty(TragicTones);
    NoneInEmpty(HeroTones);
    NoneInEmpty(LoveTones);
  }

  /** An empty prompt without answers falls back to `documentary`, never an error. */
  lemma {:induction false} EmptyPromptIsDocumentary()
    ensures Arc("", map[]) == Ok(Documentary)
  {
    EmptyArcScores();
    EmptyDefault();
    var r := ArcScores("", map[]).value;
    var b := FirstMax(r);
    assert r[b] == 0;
  }

  lemma {:induction false} EmptyArcScores()
    ensures ArcScores("", map[]).Ok?
    ensures forall i :: 0 <= i < |ArcNames| ==> ArcScores("", map[]).value[i] == 0
  {
    EmptyPromptScoresNothing();
    NoBonusWithoutAnswers(BaseScores(""));
    assert Lower("") == "";
  }

  lemma {:induction false} EmptyDefault()
    ensures DefaultArc(Lower("")) == Documentary
  {
    assert Lower("") == "";
    NoneInEmpty(EventWords);
  }

  /**
   * The source-material bonuses test for the exact lowercase element, so a
   * list of the catalog's own (capitalised) options never earns one.
   */
  lemma {:induction false} CatalogSourceEarnsNoBonus(base: seq<int>, tl: string, items: seq<string>)
    requires |base| == |ArcNames|
    requires forall k :: 0 <= k < |items| ==> items[k] in SourceOptions
    ensures Adjusted(base, tl, Choices(items))[InterviewIndex] == Adjusted(base, tl, Choices([]))[InterviewIndex]
    ensures Adjusted(base, tl, Choices(items))[DocumentaryIndex] == Adjusted(base, tl, Choices([]))[DocumentaryIndex]
  {
    assert InterviewFootage !in SourceOptions;
    assert BRoll !in SourceOptions;
    assert InterviewFootage !in items;
    assert BRoll !in items;
  }

  /** The options of the `source_material` question. */
  const SourceOptions: seq<string> := ["Single continuous take", "Multiple camera angles", "Interview footage",
    "B-roll / supplementary footage", "Screen recordings", "Mobile phone footage",
    "Professional camera footage", "Mixed sources"]

  // ---------------------------------------------------------------- emotional progression

  /** One emotional beat; `intensity` in tenths. */
  datatype Beat = Beat(beat: string, emotion: string, intensity: nat, pacing: string)

  const Hook: string := "hook"
  const Setup: string := "setup"
  const RisingAction: string := "rising_action"
  const Climax: string := "climax"
  const Resolution: string := "resolution"
  const BeatNames: seq<string> := [Hook, Setup, RisingAction, Climax, Resolution]

  datatype Curve = SlowCurve | FastCurve | BalancedCurve

  /** The curve chosen by a case-sensitive `'slow' in rhythm`, then `'fast' in rhythm`. */
  function CurveFor(rhythm: Answer): (r: Option<Curve>)
    ensures r.None? <==> rhythm.Other?
  {
    match Has(rhythm, "slow")
    case None => None
    case Some(slow) =>
      if slow then Some(SlowCurve)
      else if Has(rhythm, "fast").value then Some(FastCurve)
      else Some(BalancedCurve)
  }

  function Table(c: Curve, tone: string): (r: seq<Beat>)
  {
    match c
    case SlowCurve => [
      Beat(Hook, "curiosity", 3, "slow"),
      Beat(Setup, tone, 4, "slow"),
      Beat(RisingAction, tone, 5, "medium"),
      Beat(Climax, "intense_" + tone, 7, "slow"),
      Beat(Resolution, "peaceful", 3, "very_slow")]
    case FastCurve => [
      Beat(Hook, "excitement", 7, "fast"),
      Beat(Setup, tone, 5, "fast"),
      Beat(RisingAction, "building_" + tone, 8, "very_fast"),
      Beat(Climax, "peak_" + tone, 10, "fast"),
      Beat(Resolution, "satisfaction", 6, "medium")]
    case BalancedCurve => [
      Beat(Hook, "interest", 5, "medium"),
      Beat(Setup, tone, 4, "medium"),
      Beat(RisingAction, "developing_" + tone, 6, "medium"),
      Beat(Climax, "intense_" + tone, 9, "medium_fast"),
      Beat(Resolution, "fulfillment", 5, "slow")]
  }

  /** Five beats named hook, setup, rising_action, climax, resolution, in that order. */
  predicate FiveBeats(p: seq<Beat>)
  {
    |p| == |BeatNames| && forall k :: 0 <= k < |p| ==> p[k].beat == BeatNames[k]
  }

  /** Every intensity lies between 0.3 and 1.0. */
  predicate IntensitiesInRange(p: seq<Beat>)
  {
    forall k :: 0 <= k < |p| ==> 3 <= p[k].intensity <= 10
  }

  lemma {:induction false} TableShape(c: Curve, tone: string)
    ensures FiveBeats(Table(c, tone)) && IntensitiesInRange(Table(c, tone))
  {
  }

  /** The ending override of the last beat: `'open'` first, then `'cliffhanger'`, on the lowercased answer. */
  function EndingOverride(ending: string): (r: Option<(string, nat)>)
    ensures r.Some? ==> 3 <= r.value.1 <= 10
  {
    var el := Lower(ending);
    if Contains(el, "open") then Some(("contemplation", 4))
    else if Contains(el, "cliffhanger") then Some(("suspense", 8))
    else None
  }

  function Overridden(b: Beat, ending: string): (r: Beat)
    ensures r.beat == b.beat && r.pacing == b.pacing
  {
    match EndingOverride(ending)
    case None => b
    case Some(o) => b.(emotion := o.0, intensity := o.1)
  }

  /** `map_emotional_progression` */
  function Progression(answers: Answers): (r: Result<seq<Beat>, string>)
  {
    var tone := TextAnswer(answers, ToneKey, "neutral");
    var curve := CurveFor(Get(answers, RhythmKey, Text("medium")));
    var ending := TextAnswer(answers, EndingKey, "");
    if tone.None? || curve.None? || ending.None? then Err(TypeError)
    else
      var t := Table(curve.value, tone.value);
      Ok(t[4 := Overridden(t[4], ending.value)])
  }

  method MapEmotionalProgression(answers: Answers) returns (r: Result<seq<Beat>, string>)
    ensures r == Progression(answers)
  {
    var tone := TextAnswer(answers, ToneKey, "neutral");
    var curve := CurveFor(Get(answers, RhythmKey, Text("medium")));
    var ending := TextAnswer(answers, EndingKey, "");
    if tone.None? || curve.None? || ending.None? {
      return Err(TypeError);
    }
    var progression := Table(curve.value, tone.value);
    var el := Lower(ending.value);
    if Contains(el, "open") {
      assert EndingOverride(ending.value) == Some(("contemplation", 4));
      progression := progression[4 := progression[4].(emotion := "contemplation", intensity := 4)];
    } else if Contains(el, "cliffhanger") {
      assert EndingOverride(ending.value) == Some(("suspense", 8));
      progression := progression[4 := progression[4].(emotion := "suspense", intensity := 8)];
    } else {
      assert EndingOverride(ending.value).None?;
      assert progression[4 := progression[4]] == progression;
    }
    return Ok(progression);
  }

  /** Every progression is five beats in the fixed order with intensities in [0.3, 1.0]. */
  lemma {:induction false} ProgressionShape(answers: Answers)
    requires Progression(answers).Ok?
    ensures FiveBeats(Progression(answers).value)
    ensures IntensitiesInRange(Progression(answers).value)
  {
    var tone := TextAnswer(answers, ToneKey, "neutral");
    var curve := CurveFor(Get(answers, RhythmKey, Text("medium")));
    TableShape(curve.value, tone.value);
  }

  /**
   * The ending style changes only the resolution beat: the first four beats are
   * the rhythm's table, and the last keeps its name and pacing.
   */
  lemma {:induction false} EndingTouchesOnlyLastBeat(answers: Answers)
    requires Progression(answers).Ok?
    ensures var p := Progression(answers).value;
      var t := Table(CurveFor(Get(answers, RhythmKey, Text("medium"))).value, TextAnswer(answers, ToneKey, "neutral").value);
      p[..4] == t[..4] && p[4].beat == t[4].beat && p[4].pacing == t[4].pacing
      && (EndingOverride(TextAnswer(answers, EndingKey, "").value).None? ==> p == t)
  {
  }

  /** An ending mentioning "open" makes the last beat contemplation at 0.4, whatever else it mentions. */
  lemma {:induction false} OpenEnding(answers: Answers)
    requires Progression(answers).Ok? && EndingKey in answers
    requires answers[EndingKey].Text? && Contains(Lower(answers[EndingKey].text), "open")
    ensures Progression(answers).value[4].emotion == "contemplation"
    ensures Progression(answers).value[4].intensity == 4
  {
  }

  // ---------------------------------------------------------------- scene contrasts

  /** The four visual properties of a scene record; `None` where the key is absent. */
  datatype VisualScene = VisualScene(lighting: Option<string>, palette: Option<string>,
    movement: Option<string>, scale: Option<string>)

  const Lighting: string := "lighting"
  const Color: string := "color"
  const Movement: string := "movement"
  const Scale: string := "scale"
  const ContrastNames: seq<string> := [Lighting, Color, Movement, Scale]
  const Cut: string := "cut"
  const Fade: string := "fade"

  datatype Contrast = Contrast(first: nat, second: nat, kinds: seq<string>,
    shiftFrom: string, shiftTo: string, transition: string)

  function DifferFlags(a: VisualScene, b: VisualScene): seq<bool>
  {
    [a.lighting != b.lighting, a.palette != b.palette, a.movement != b.movement, a.scale != b.scale]
  }

  /** The dimensions two scenes differ in, in the order lighting, color, movement, scale. */
  function ContrastKinds(a: VisualScene, b: VisualScene): (r: seq<string>)
    ensures Subsequence(r, ContrastNames)
  {
    PickSubsequence(DifferFlags(a, b), ContrastNames);
    Pick(DifferFlags(a, b), ContrastNames)
  }

  lemma {:induction false} ContrastKindsMeaning(a: VisualScene, b: VisualScene)
    ensures Lighting in ContrastKinds(a, b) <==> a.lighting != b.lighting
    ensures Color in ContrastKinds(a, b) <==> a.palette != b.palette
    ensures Movement in ContrastKinds(a, b) <==> a.movement != b.movement
    ensures Scale in ContrastKinds(a, b) <==> a.scale != b.scale
    ensures ContrastKinds(a, b) == [] <==> a == b
  {
    var f := DifferFlags(a, b);
    assert Distinct(ContrastNames);
    PickMember(f, ContrastNames, 0);
    PickMember(f, ContrastNames, 1);
    PickMember(f, ContrastNames, 2);
    PickMember(f, ContrastNames, 3);
    PickEmpty(f, ContrastNames);
  }

  /** `min(i, len(progression) - 1)` */
  function Clamp(i: nat, n: nat): (r: nat)
    requires n > 0
    ensures r < n && r <= i
  {
    if i < n - 1 then i else n - 1
  }

  /** The record for the pair (i, i+1), if the two scenes differ at all. */
  function ContrastAt(scenes: seq<VisualScene>, progression: seq<Beat>, i: nat): (r: Option<Contrast>)
    requires i + 1 < |scenes| && |progression| > 0
    ensures r.Some? ==> r.value.first == i && r.value.second == i + 1
  {
    var kinds := ContrastKinds(scenes[i], scenes[i + 1]);
    if kinds == [] then None
    else Some(Contrast(i, i + 1, kinds,
      progression[Clamp(i, |progression|)].emotion, progression[Clamp(i + 1, |progression|)].emotion,
      if scenes[i].movement != scenes[i + 1].movement then Cut else Fade))
  }

  /** The records for the first n adjacent pairs, in pair order. */
  function ContrastsUpTo(scenes: seq<VisualScene>, progression: seq<Beat>, n: nat): seq<Contrast>
    requires n < |scenes| && |progression| > 0
  {
    if n == 0 then []
    else
      ContrastsUpTo(scenes, progression, n - 1)
      + (match ContrastAt(scenes, progression, n - 1) case None => [] case Some(c) => [c])
  }

  /** `analyze_scene_contrasts`; no scenes (or no visual analysis at all) is the empty list. */
  function Contrasts(scenes: seq<VisualScene>, progression: seq<Beat>): seq<Contrast>
    requires |scenes| >= 2 ==> |progression| > 0
  {
    if |scenes| < 2 then [] else ContrastsUpTo(scenes, progression, |scenes| - 1)
  }

  method ContrastTypes(a: VisualScene, b: VisualScene) returns (kinds: seq<string>)
    ensures kinds == ContrastKinds(a, b)
  {
    kinds := [];
    kinds := kinds + (if a.lighting != b.lighting then [Lighting] else []);
    kinds := kinds + (if a.palette != b.palette then [Color] else []);
    kinds := kinds + (if a.movement != b.movement then [Movement] else []);
    kinds := kinds + (if a.scale != b.scale then [Scale] else []);
    PickFour(DifferFlags(a, b), ContrastNames);
  }

  method AnalyzeSceneContrasts(scenes: seq<VisualScene>, progression: seq<Beat>) returns (contrasts: seq<Contrast>)
    requires |scenes| >= 2 ==> |progression| > 0
    ensures contrasts == Contrasts(scenes, progression)
  {
    contrasts := [];
    if |scenes| < 2 {
      return;
    }
    var i := 0;
    while i < |scenes| - 1
      invariant 0 <= i <= |scenes| - 1
      invariant contrasts == ContrastsUpTo(scenes, progression, i)
    {
      var record := PairContrast(scenes, progression, i);
      contrasts := contrasts + record;
      i := i + 1;
    }
  }

  /** One turn of the pair loop: the record for scenes i and i+1, if they differ at all. */
  method PairContrast(scenes: seq<VisualScene>, progression: seq<Beat>, i: nat) returns (record: seq<Contrast>)
    requires i + 1 < |scenes| && |progression| > 0
    ensures ContrastsUpTo(scenes, progression, i + 1) == ContrastsUpTo(scenes, progression, i) + record
  {
    var kinds := ContrastTypes(scenes[i], scenes[i + 1]);
    ContrastAtKinds(scenes, progression, i, kinds);
    var n := |progression|;
    record := if kinds == [] then [] else [Contrast(i, i + 1, kinds,
      progression[Clamp(i, n)].emotion, progression[Clamp(i + 1, n)].emotion,
      if Movement in kinds then Cut else Fade)];
  }

  /** The record for pair i, when its kinds are known: a cut exactly when movement is among them. */
  lemma {:induction false} ContrastAtKinds(scenes: seq<VisualScene>, progression: seq<Beat>, i: nat, kinds: seq<string>)
    requires i + 1 < |scenes| && |progression| > 0 && kinds == ContrastKinds(scenes[i], scenes[i + 1])
    ensures kinds == [] ==> ContrastAt(scenes, progression, i) == None
    ensures kinds != [] ==> ContrastAt(scenes, progression, i) == Some(Contrast(i, i + 1, kinds,
      progression[Clamp(i, |progression|)].emotion, progression[Clamp(i + 1, |progression|)].emotion,
      if Movement in kinds then Cut else Fade))
    ensures ContrastsUpTo(scenes, progression, i + 1) == ContrastsUpTo(scenes, progression, i)
      + if kinds == [] then [] else [Contrast(i, i + 1, kinds,
        progression[Clamp(i, |progression|)].emotion, progression[Clamp(i + 1, |progression|)].emotion,
        if Movement in kinds then Cut else Fade)]
  {
    ContrastKindsMeaning(scenes[i], scenes[i + 1]);
  }

  /** A record is the one `ContrastAt` gives for the adjacent pair it names. */
  predicate RecordFor(scenes: seq<VisualScene>, progression: seq<Beat>, c: Contrast)
    requires |progression| > 0
  {
    c.second == c.first + 1 && c.second < |scenes| && ContrastAt(scenes, progression, c.first) == Some(c)
  }

  /** The records present in a list of optional ones, in list order. */
  function Present(opts: seq<Option<Contrast>>): seq<Contrast>
    decreases |opts|
  {
    if opts == [] then []
    else Present(opts[..|opts| - 1]) + (match opts[|opts| - 1] case None => [] case Some(c) => [c])
  }

  /** Every record present at position i names pair i. */
  predicate Indexed(opts: seq<Option<Contrast>>)
  {
    forall i :: 0 <= i < |opts| && opts[i].Some? ==> opts[i].value.first == i
  }

  /** The optional record of each of the first n adjacent pairs. */
  function PairRecords(scenes: seq<VisualScene>, progression: seq<Beat>, n: nat): (r: seq<Option<Contrast>>)
    requires n < |scenes| && |progression| > 0
    ensures |r| == n && Indexed(r)
    ensures forall i :: 0 <= i < n ==> r[i] == ContrastAt(scenes, progression, i)
  {
    seq(n, i requires 0 <= i < n => ContrastAt(scenes, progression, i))
  }

  /** The loop's records are the records present among the pairs' optional ones. */
  lemma {:induction false} ContrastsUpToPresent(scenes: seq<VisualScene>, progression: seq<Beat>, n: nat)
    requires n < |scenes| && |progression| > 0
    ensures ContrastsUpTo(scenes, progression, n) == Present(PairRecords(scenes, progression, n))
    decreases n
  {
    if n > 0 {
      ContrastsUpToPresent(scenes, progression, n - 1);
      var opts := PairRecords(scenes, progression, n);
      assert opts[..n - 1] == PairRecords(scenes, progression, n - 1);
    }
  }

  /** Each present record sits at the position it names. */
  lemma {:induction false} PresentFrom(opts: seq<Option<Contrast>>)
    requires Indexed(opts)
    ensures forall k :: 0 <= k < |Present(opts)| ==>
      Present(opts)[k].first < |opts| && opts[Present(opts)[k].first] == Some(Present(opts)[k])
    decreases |opts|
  {
    if opts != [] {
      var n := |opts| - 1;
      var prev := opts[..n];
      assert Indexed(prev);
      PresentFrom(prev);
      var r := Present(opts);
      var p := Present(prev);
      assert r == p + (if opts[n].None? then [] else [opts[n].value]);
      forall k | 0 <= k < |r|
        ensures r[k].first < |opts| && opts[r[k].first] == Some(r[k])
      {
        if k < |p| {
          assert r[k] == p[k];
          assert opts[p[k].first] == prev[p[k].first];
        }
      }
    }
  }

  /** Present records name their pairs in ascending order. */
  lemma {:induction false} PresentAscending(opts: seq<Option<Contrast>>)
    requires Indexed(opts)
    ensures forall k, l :: 0 <= k < l < |Present(opts)| ==> Present(opts)[k].first < Present(opts)[l].first
    decreases |opts|
  {
    if opts != [] {
      var n := |opts| - 1;
      var prev := opts[..n];
      assert Indexed(prev);
      PresentAscending(prev);
      PresentFrom(prev);
      var r := Present(opts);
      var p := Present(prev);
      assert r == p + (if opts[n].None? then [] else [opts[n].value]);
      forall k, l | 0 <= k < l < |r|
        ensures r[k].first < r[l].first
      {
        assert r[k] == p[k];
        if l < |p| {
          assert r[l] == p[l];
        } else {
          assert r[l] == opts[n].value;
        }
      }
    }
  }

  /** A pair with a record has it among the present ones. */
  lemma {:induction false} PresentCover(opts: seq<Option<Contrast>>, i: nat)
    requires Indexed(opts) && i < |opts| && opts[i].Some?
    ensures exists k :: 0 <= k < |Present(opts)| && Present(opts)[k].first == i
    decreases |opts|
  {
    var n := |opts| - 1;
    var prev := opts[..n];
    var r := Present(opts);
    var p := Present(prev);
    assert r == p + (if opts[n].None? then [] else [opts[n].value]);
    if i == n {
      assert r[|p|] == opts[n].value;
    } else {
      assert Indexed(prev) && prev[i] == opts[i];
      PresentCover(prev, i);
      var k :| 0 <= k < |p| && p[k].first == i;
      assert r[k] == p[k];
    }
  }

  /**
   * Contrast records come one per differing adjacent pair (i, i+1), in
   * ascending i, and a pair gets a record exactly when its scenes differ.
   */
  lemma {:induction false} ContrastsArePairs(scenes: seq<VisualScene>, progression: seq<Beat>)
    requires |scenes| >= 2 && |progression| > 0
    ensures forall k :: 0 <= k < |Contrasts(scenes, progression)| ==>
      RecordFor(scenes, progression, Contrasts(scenes, progression)[k])
    ensures forall k, l :: 0 <= k < l < |Contrasts(scenes, progression)| ==>
      Contrasts(scenes, progression)[k].first < Contrasts(scenes, progression)[l].first
    ensures forall i :: 0 <= i < |scenes| - 1 ==>
      ((exists k :: 0 <= k < |Contrasts(scenes, progression)| && Contrasts(scenes, progression)[k].first == i)
       <==> scenes[i] != scenes[i + 1])
  {
    ContrastsAreRecords(scenes, progression);
    ContrastsAscending(scenes, progression);
    forall i | 0 <= i < |scenes| - 1
      ensures (exists k :: 0 <= k < |Contrasts(scenes, progression)| && Contrasts(scenes, progression)[k].first == i)
        <==> scenes[i] != scenes[i + 1]
    {
      PairRecordPresent(scenes, progression, i);
    }
  }

  lemma {:induction false} ContrastsAreRecords(scenes: seq<VisualScene>, progression: seq<Beat>)
    requires |scenes| >= 2 && |progression| > 0
    ensures forall k :: 0 <= k < |Contrasts(scenes, progression)| ==>
      RecordFor(scenes, progression, Contrasts(scenes, progression)[k])
  {
    var opts := PairRecords(scenes, progression, |scenes| - 1);
    ContrastsUpToPresent(scenes, progression, |scenes| - 1);
    PresentFrom(opts);
    forall k | 0 <= k < |Present(opts)|
      ensures RecordFor(scenes, progression, Present(opts)[k])
    {
      RecordAt(scenes, progression, opts, Present(opts)[k]);
    }
  }

  /** A record sitting at the position it names among the pairs' optional records is that pair's record. */
  lemma {:induction false} RecordAt(scenes: seq<VisualScene>, progression: seq<Beat>, opts: seq<Option<Contrast>>, c: Contrast)
    requires |scenes| >= 2 && |progression| > 0 && opts == PairRecords(scenes, progression, |scenes| - 1)
    requires c.first < |opts| && opts[c.first] == Some(c)
    ensures RecordFor(scenes, progression, c)
  {
  }

  lemma {:induction false} ContrastsAscending(scenes: seq<VisualScene>, progression: seq<Beat>)
    requires |scenes| >= 2 && |progression| > 0
    ensures forall k, l :: 0 <= k < l < |Contrasts(scenes, progression)| ==>
      Contrasts(scenes, progression)[k].first < Contrasts(scenes, progression)[l].first
  {
    var n := |scenes| - 1;
    var opts := PairRecords(scenes, progression, n);
    ContrastsUpToPresent(scenes, progression, n);
    PresentAscending(opts);
  }

  /** Pair i has a record among the contrasts exactly when its two scenes differ. */
  lemma {:induction false} PairRecordPresent(scenes: seq<VisualScene>, progression: seq<Beat>, i: nat)
    requires |progression| > 0 && i + 1 < |scenes|
    ensures (exists k :: 0 <= k < |Contrasts(scenes, progression)| && Contrasts(scenes, progression)[k].first == i)
      <==> scenes[i] != scenes[i + 1]
  {
    var n := |scenes| - 1;
    var opts := PairRecords(scenes, progression, n);
    ContrastsUpToPresent(scenes, progression, n);
    PresentFrom(opts);
    var r := Contrasts(scenes, progression);
    assert r == Present(opts);
    PairDiffers(scenes, progression, i);
    assert opts[i].Some? <==> scenes[i] != scenes[i + 1];
    if opts[i].Some? {
      PresentCover(opts, i);
    }
    forall k | 0 <= k < |r| && r[k].first == i
      ensures opts[i].Some?
    {
      assert opts[i] == Some(r[k]);
    }
  }

  /** A pair has a record exactly when its two scenes differ. */
  lemma {:induction false} PairDiffers(scenes: seq<VisualScene>, progression: seq<Beat>, i: nat)
    requires |progression| > 0 && i + 1 < |scenes|
    ensures ContrastAt(scenes, progression, i).Some? <==> scenes[i] != scenes[i + 1]
  {
    ContrastKindsMeaning(scenes[i], scenes[i + 1]);
  }

  /** A record recommends a cut exactly when the movement differs, and a fade otherwise. */
  lemma {:induction false} CutIffMovement(scenes: seq<VisualScene>, progression: seq<Beat>, c: Contrast)
    requires |progression| > 0 && RecordFor(scenes, progression, c)
    ensures c.kinds != []
    ensures c.transition == Cut <==> Movement in c.kinds
    ensures c.transition == Cut <==> scenes[c.first].movement != scenes[c.second].movement
    ensures c.transition == Fade <==> scenes[c.first].movement == scenes[c.second].movement
  {
    ContrastKindsMeaning(scenes[c.first], scenes[c.second]);
  }

  /** Two scenes that differ only in lighting give exactly one record, flagged lighting, with a fade. */
  lemma {:induction false} LightingOnly(a: VisualScene, b: VisualScene, progression: seq<Beat>)
    requires |progression| > 0
    requires a.lighting != b.lighting && a.palette == b.palette && a.movement == b.movement && a.scale == b.scale
    ensures |Contrasts([a, b], progression)| == 1
    ensures Contrasts([a, b], progression)[0].kinds == [Lighting]
    ensures Contrasts([a, b], progression)[0].transition == Fade
  {
    PickFour(DifferFlags(a, b), ContrastNames);
    assert ContrastKinds(a, b) == [Lighting];
    assert ContrastsUpTo([a, b], progression, 0) == [];
  }

  // ---------------------------------------------------------------- pacing

  datatype PatternBeat = PatternBeat(beat: string, cuts: nat, pacing: string, intensity: nat)

  datatype Pacing = Pacing(totalSeconds: nat, cutsPerMinute: nat, totalCuts: nat,
    averageShot: nat, pattern: seq<PatternBeat>)

  /** The duration table of the pacing model: first matching range, three minutes when none matches. */
  function PacingSeconds(d: Answer): (r: nat)
    requires !d.Other?
    ensures r in {30, 60, 180, 600, 1800}
  {
    if Has(d, "15-30").value then 30
    else if Has(d, "30-60").value then 60
    else if Has(d, "1-3").value then 180
    else if Has(d, "3-10").value then 600
    else if Has(d, "10-30").value then 1800
    else 180
  }

  /** Cuts per minute by exact rhythm key. */
  function BaseCuts(rhythm: string): (r: nat)
    ensures r in {8, 15, 30}
    ensures rhythm != "slow" && rhythm != "fast" ==> r == 15
  {
    if rhythm == "slow" then 8
    else if rhythm == "medium" then 15
    else if rhythm == "fast" then 30
    else 15
  }

  /** The options of the `editing_rhythm` question. */
  const RhythmOptions: seq<string> := ["Slow (contemplative, long takes, artistic)",
    "Medium (balanced, standard pacing)", "Fast (dynamic, quick cuts, energetic)",
    "Variable (mix of paces for emotional effect)"]

  /**
   * The cuts-per-minute lookup is by exact key, so every option of the rhythm
   * question, "Slow (...)" and "Fast (...)" included, gets the default 15.
   */
  lemma {:induction false} CatalogRhythmCuts(k: nat)
    requires k < |RhythmOptions|
    ensures BaseCuts(RhythmOptions[k]) == 15
  {
    assert |RhythmOptions[k]| > 6;
  }

  /** Short-form platforms raise the floor to 25 cuts per minute. */
  function PlatformCuts(base: nat, platform: string): (r: nat)
    ensures r >= base
    ensures ContainsAny(Lower(platform), ["tiktok", "reels"]) ==> r >= 25
    ensures !ContainsAny(Lower(platform), ["tiktok", "reels"]) ==> r == base
  {
    if ContainsAny(Lower(platform), ["tiktok", "reels"]) && base < 25 then 25 else base
  }

  /** Cuts per minute for one beat: ×1.5 above 0.8, ×0.6 below 0.4, truncated. */
  function BeatCuts(base: nat, intensity: nat): (r: nat)
    ensures base * 6 / 10 <= r <= base * 15 / 10
    ensures 4 <= intensity <= 8 ==> r == base
  {
    if intensity > 8 then base * 15 / 10
    else if intensity < 4 then base * 6 / 10
    else base
  }

  /** A more intense beat never gets fewer cuts. */
  lemma {:induction false} BeatCutsMonotone(base: nat, i: nat, j: nat)
    requires i <= j
    ensures BeatCuts(base, i) <= BeatCuts(base, j)
  {
  }

  function PatternOf(b: Beat, base: nat): PatternBeat
  {
    PatternBeat(b.beat, BeatCuts(base, b.intensity), b.pacing, b.intensity)
  }

  /** `_generate_rhythm_pattern`: one entry per beat, same order, same names, pacings and intensities. */
  method GenerateRhythmPattern(progression: seq<Beat>, base: nat) returns (pattern: seq<PatternBeat>)
    ensures |pattern| == |progression|
    ensures forall k :: 0 <= k < |pattern| ==>
      pattern[k].beat == progression[k].beat && pattern[k].pacing == progression[k].pacing
      && pattern[k].intensity == progression[k].intensity
      && pattern[k].cuts == BeatCuts(base, progression[k].intensity)
  {
    pattern := [];
    var i := 0;
    while i < |progression|
      invariant 0 <= i <= |progression|
      invariant |pattern| == i
      invariant forall k :: 0 <= k < i ==> pattern[k] == PatternOf(progression[k], base)
    {
      var beat := progression[i];
      var cuts;
      if beat.intensity > 8 {
        cuts := base * 15 / 10;
      } else if beat.intensity < 4 {
        cuts := base * 6 / 10;
      } else {
        cuts := base;
      }
      pattern := pattern + [PatternBeat(beat.beat, cuts, beat.pacing, beat.intensity)];
      i := i + 1;
    }
  }

  /** The seconds and cuts per minute `calculate_pacing` works from, or the error reading the answers raises. */
  function PacingInputs(answers: Answers): (r: Result<(nat, nat), string>)
    ensures r.Ok? ==> r.value.1 in {8, 15, 25, 30}
  {
    var d := Get(answers, DurationKey, Text(""));
    var rhythm := Get(answers, RhythmKey, Text("medium"));
    var platform := TextAnswer(answers, PlatformKey, "");
    if d.Other? || !rhythm.Text? || platform.None? then Err(TypeError)
    else Ok((PacingSeconds(d), PlatformCuts(BaseCuts(rhythm.text), platform.value)))
  }

  /**
   * The pacing recommended for `d` seconds at `cpm` cuts per minute: the cut
   * count and the seconds per shot are the truncated quotients, and the rhythm
   * pattern has one entry per beat.
   */
  predicate DescribesPacing(p: Pacing, d: nat, cpm: nat, progression: seq<Beat>)
  {
    p.totalSeconds == d && p.cutsPerMinute == cpm
    && p.totalCuts * 60 <= d * cpm < (p.totalCuts + 1) * 60
    && p.averageShot * cpm <= 60 < (p.averageShot + 1) * cpm
    && |p.pattern| == |progression|
    && forall k :: 0 <= k < |progression| ==> p.pattern[k] == PatternOf(progression[k], cpm)
  }

  /** `calculate_pacing` */
  method CalculatePacing(answers: Answers, progression: seq<Beat>) returns (r: Result<Pacing, string>)
    ensures r.Err? <==> PacingInputs(answers).Err?
    ensures r.Ok? ==> var (d, cpm) := PacingInputs(answers).value;
      DescribesPacing(r.value, d, cpm, progression)
  {
    var inputs := PacingInputs(answers);
    if inputs.Err? {
      return Err(inputs.error);
    }
    var (d, cpm) := inputs.value;
    var pattern := GenerateRhythmPattern(progression, cpm);
    r := Ok(Pacing(d, cpm, d * cpm / 60, 60 / cpm, pattern));
  }

  // ---------------------------------------------------------------- symbolism

  const JourneyWords: seq<string> := ["journey", "travel", "road", "path"]
  const LightWords: seq<string> := ["light", "sun", "bright", "dark", "shadow"]
  const WaterWords: seq<string> := ["water", "ocean", "river", "rain"]
  const MountainWords: seq<string> := ["mountain", "climb", "peak", "height"]
  const DoorWords: seq<string> := ["door", "gate", "entrance", "threshold"]
  const MirrorWords: seq<string> := ["mirror", "reflection", "glass"]
  const SymbolWords: seq<seq<string>> := [JourneyWords, LightWords, WaterWords, MountainWords, DoorWords, MirrorWords]

  const JourneySymbol: string := "Journey/Path" + " = Life's progression" + " or personal growth"
  const LightSymbol: string := "Light/Dark" + " = Hope/despair," + " knowledge/ignorance," + " good/evil"
  const WaterSymbol: string := "Water" + " = Emotions," + " purification," + " life flow"
  const MountainSymbol: string := "Mountains/Height" + " = Challenges," + " achievement," + " perspective"
  const DoorSymbol: string := "Doors/Gates" + " = New opportunities," + " transitions," + " choices"
  const MirrorSymbol: string := "Mirrors" + " = Self-reflection," + " truth, identity"
  const Symbols: seq<string> := [JourneySymbol, LightSymbol, WaterSymbol, MountainSymbol, DoorSymbol, MirrorSymbol]

  function SymbolFlags(pl: string): (r: seq<bool>)
    ensures |r| == |Symbols|
    ensures forall f :: 0 <= f < |r| ==> r[f] == ContainsAny(pl, SymbolWords[f])
  {
    [ContainsAny(pl, JourneyWords), ContainsAny(pl, LightWords), ContainsAny(pl, WaterWords),
     ContainsAny(pl, MountainWords), ContainsAny(pl, DoorWords), ContainsAny(pl, MirrorWords)]
  }

  /** The symbol families whose keywords occur in the prompt, in family order. */
  function MatchedSymbols(prompt: string): seq<string>
  {
    Pick(SymbolFlags(Lower(prompt)), Symbols)
  }

  /** `detect_symbolism` */
  function Symbolism(prompt: string): Option<string>
  {
    var m := MatchedSymbols(prompt);
    if m == [] then None else Some(Join(m, "; "))
  }

  method DetectSymbolism(prompt: string) returns (r: Option<string>)
    ensures r == Symbolism(prompt)
  {
    var pl := Lower(prompt);
    var symbols := [];
    symbols := symbols + (if ContainsAny(pl, JourneyWords) then [JourneySymbol] else []);
    symbols := symbols + (if ContainsAny(pl, LightWords) then [LightSymbol] else []);
    symbols := symbols + (if ContainsAny(pl, WaterWords) then [WaterSymbol] else []);
    symbols := symbols + (if ContainsAny(pl, MountainWords) then [MountainSymbol] else []);
    symbols := symbols + (if ContainsAny(pl, DoorWords) then [DoorSymbol] else []);
    symbols := symbols + (if ContainsAny(pl, MirrorWords) then [MirrorSymbol] else []);
    PickSix(SymbolFlags(pl), Symbols);
    if symbols != [] {
      return Some(Join(symbols, "; "));
    }
    return None;
  }

  /**
   * No symbolism exactly when no keyword of any family occurs; otherwise the
   * matched families, in family order, each present exactly when one of its
   * keywords occurs.
   */
  lemma {:induction false} SymbolismMeaning(prompt: string)
    ensures Symbolism(prompt).None? <==> forall f :: 0 <= f < |Symbols| ==> !ContainsAny(Lower(prompt), SymbolWords[f])
    ensures Subsequence(MatchedSymbols(prompt), Symbols)
    ensures forall f :: 0 <= f < |Symbols| ==> (Symbols[f] in MatchedSymbols(prompt) <==> ContainsAny(Lower(prompt), SymbolWords[f]))
  {
    var flags := SymbolFlags(Lower(prompt));
    PickEmpty(flags, Symbols);
    PickSubsequence(flags, Symbols);
    assert Distinct(Symbols);
    forall f | 0 <= f < |Symbols|
      ensures Symbols[f] in MatchedSymbols(prompt) <==> ContainsAny(Lower(prompt), SymbolWords[f])
    {
      PickMember(flags, Symbols, f);
    }
  }

  // ---------------------------------------------------------------- the analysis

  /** Kept for the pipeline's own use and never shown to the user. */
  datatype Internal = Internal(arcConfidence: string, beatsCount: nat, contrastCount: nat, pacingNotes: string)

  datatype Analysis = Analysis(
    arc: string,
    progression: seq<Beat>,
    dominantTone: string,
    pacing: Pacing,
    contrasts: seq<Contrast>,
    symbolism: Option<string>,
    internal: Internal)

  /** The answers on which `analyze` raises: the arc, the progression or the pacing cannot be read. */
  predicate AnalysisFails(prompt: string, answers: Answers)
  {
    Arc(prompt, answers).Err? || Progression(answers).Err? || PacingInputs(answers).Err?
  }

  /** `analyze`: every step in turn; the first answer of the wrong kind fails the whole analysis. */
  method Analyze(prompt: string, answers: Answers, scenes: seq<VisualScene>) returns (r: Result<Analysis, string>)
    ensures r.Err? <==> AnalysisFails(prompt, answers)
    ensures r.Ok? ==>
      r.value.arc == Arc(prompt, answers).value
      && r.value.progression == Progression(answers).value
      && FiveBeats(r.value.progression) && IntensitiesInRange(r.value.progression)
      && r.value.dominantTone == TextAnswer(answers, ToneKey, "neutral").value
      && r.value.contrasts == Contrasts(scenes, r.value.progression)
      && DescribesPacing(r.value.pacing, PacingInputs(answers).value.0, PacingInputs(answers).value.1, r.value.progression)
      && r.value.symbolism == Symbolism(prompt)
      && (r.value.internal.arcConfidence == "high" <==> r.value.arc != Documentary)
      && r.value.internal.beatsCount == |BeatNames|
      && r.value.internal.contrastCount == |r.value.contrasts|
      && r.value.internal.pacingNotes == "Base rhythm: " + NatToString(r.value.pacing.cutsPerMinute) + " cuts/min"
  {
    var arc := IdentifyNarrativeArc(prompt, answers);
    if arc.Err? {
      return Err(arc.error);
    }
    var progression := MapEmotionalProgression(answers);
    if progression.Err? {
      return Err(progression.error);
    }
    ProgressionShape(answers);
    var beats := progression.value;
    var contrasts := AnalyzeSceneContrasts(scenes, beats);
    var pacing := CalculatePacing(answers, beats);
    if pacing.Err? {
      return Err(pacing.error);
    }
    var symbolism := DetectSymbolism(prompt);
    var tone := TextAnswer(answers, ToneKey, "neutral").value;
    var confidence := if arc.value != Documentary then "high" else "medium";
    var notes := "Base rhythm: " + NatToString(pacing.value.cutsPerMinute) + " cuts/min";
    r := Ok(Analysis(arc.value, beats, tone, pacing.value, contrasts, symbolism,
      Internal(confidence, |beats|, |contrasts|, notes)));
  }
}
