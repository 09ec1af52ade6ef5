/**
 * Phase 4, scene planning: turn the answers and the narrative analysis into a
 * timed scene plan.  The total length comes from the duration answer, the
 * scene count from the rhythm, and the scenes walk the stages hook, setup,
 * rising action, climax and resolution with contiguous timestamps.
 */
module ScenePlanning {
  import opened Wrappers
  import opened Strings
  import opened Answers
  import opened Schemas
  import Narrative

  // ---------------------------------------------------------------- timestamps

  /** `_seconds_to_timestamp`: "MM:SS" under an hour, "HH:MM:SS" from an hour on, every field zero padded. */
  function Timestamp(seconds: int): (r: string)
  {
    if seconds >= 3600 then Pad2(seconds / 3600) + ":" + Pad2(seconds % 3600 / 60) + ":" + Pad2(seconds % 60)
    else Pad2Signed(seconds / 60) + ":" + Pad2(seconds % 60)
  }

  predicate AllDigits(s: string)
  {
    forall i :: 0 <= i < |s| ==> IsDigit(s[i])
  }

  /** Reading a timestamp back: its colon-separated decimal fields as h·3600 + m·60 + s. */
  function TimestampValue(t: string): Option<nat>
  {
    var f := Split(t, ':');
    if |f| == 2 && AllDigits(f[0]) && AllDigits(f[1]) then
      Some(ParseDigits(f[0]) * 60 + ParseDigits(f[1]))
    else if |f| == 3 && AllDigits(f[0]) && AllDigits(f[1]) && AllDigits(f[2]) then
      Some(ParseDigits(f[0]) * 3600 + ParseDigits(f[1]) * 60 + ParseDigits(f[2]))
    else None
  }

  lemma {:induction false} PadNoColon(n: nat)
    ensures ':' !in Pad2(n) && AllDigits(Pad2(n))
  {
    Pad2Digits(n);
  }

  /** Two colon-free fields joined by a colon split back into those fields. */
  lemma {:induction false} SplitTwo(x: string, y: string)
    requires ':' !in x && ':' !in y
    ensures Split(x + ":" + y, ':') == [x, y]
  {
    SplitNoSep(y, ':');
    assert x + ":" + y == x + [':'] + y;
    SplitAt(x, ':', y);
  }

  lemma {:induction false} SplitThree(x: string, y: string, z: string)
    requires ':' !in x && ':' !in y && ':' !in z
    ensures Split(x + ":" + y + ":" + z, ':') == [x, y, z]
  {
    SplitTwo(y, z);
    assert x + ":" + y + ":" + z == x + [':'] + (y + ":" + z);
    SplitAt(x, ':', y + ":" + z);
  }

  lemma {:induction false} TwoFields(a: nat, b: nat)
    ensures Split(Pad2(a) + ":" + Pad2(b), ':') == [Pad2(a), Pad2(b)]
    ensures TimestampValue(Pad2(a) + ":" + Pad2(b)) == Some(a * 60 + b)
  {
    PadNoColon(a);
    PadNoColon(b);
    SplitTwo(Pad2(a), Pad2(b));
    ParsePad2(a);
    ParsePad2(b);
  }

  lemma {:induction false} ThreeFields(a: nat, b: nat, c: nat)
    ensures Split(Pad2(a) + ":" + Pad2(b) + ":" + Pad2(c), ':') == [Pad2(a), Pad2(b), Pad2(c)]
    ensures TimestampValue(Pad2(a) + ":" + Pad2(b) + ":" + Pad2(c)) == Some(a * 3600 + b * 60 + c)
  {
    PadNoColon(a);
    PadNoColon(b);
    PadNoColon(c);
    SplitThree(Pad2(a), Pad2(b), Pad2(c));
    ParsePad2(a);
    ParsePad2(b);
    ParsePad2(c);
  }

  lemma {:induction false} MinutesSeconds(seconds: nat)
    ensures seconds / 60 * 60 + seconds % 60 == seconds
    ensures seconds / 3600 * 3600 + seconds % 3600 / 60 * 60 + seconds % 60 == seconds
    ensures seconds < 3600 ==> seconds / 60 <= 59
  {
    var q := seconds % 3600;
    assert seconds == seconds / 3600 * 3600 + q;
    assert q == q / 60 * 60 + q % 60;
    assert q % 60 == seconds % 60 by {
      assert seconds == (seconds / 3600 * 60 + q / 60) * 60 + q % 60;
    }
  }

  /** Reading a formatted timestamp gives the seconds back. */
  lemma {:induction false} TimestampRoundTrip(seconds: nat)
    ensures TimestampValue(Timestamp(seconds)) == Some(seconds)
  {
    MinutesSeconds(seconds);
    if seconds >= 3600 {
      ThreeFields(seconds / 3600, seconds % 3600 / 60, seconds % 60);
    } else {
      TwoFields(seconds / 60, seconds % 60);
    }
  }

  /**
   * Under an hour a timestamp has two fields, the minutes at most 59; from an
   * hour on it has three; either way it passes the schema's timestamp check.
   */
  lemma {:induction false} TimestampShape(seconds: nat)
    ensures |Split(Timestamp(seconds), ':')| == (if seconds < 3600 then 2 else 3)
    ensures seconds < 3600 ==>
      (Split(Timestamp(seconds), ':')[0] == Pad2(seconds / 60) && |Pad2(seconds / 60)| == 2
      && AllDigits(Pad2(seconds / 60)) && ParseDigits(Pad2(seconds / 60)) <= 59)
    ensures ValidateTimestamp(Timestamp(seconds))
  {
    MinutesSeconds(seconds);
    if seconds >= 3600 {
      ThreeFields(seconds / 3600, seconds % 3600 / 60, seconds % 60);
    } else {
      TwoFields(seconds / 60, seconds % 60);
      Pad2Short(seconds / 60);
      ParsePad2(seconds / 60);
    }
  }

  // ---------------------------------------------------------------- lookups

  /**
   * `_parse_duration`: the first range the answer mentions, to its
   * representative length in seconds.  It reads the answer only with `in`, so
   * a list answer is tested for the range as an item.
   */
  function ParseDuration(d: Answer): (r: nat)
    requires !d.Other?
    ensures r in {25, 45, 120, 180, 360, 1200}
  {
    if Has(d, "15-30").value then 25
    else if Has(d, "30-60").value then 45
    else if Has(d, "1-3").value then 120
    else if Has(d, "3-10").value then 360
    else if Has(d, "10-30").value then 1200
    else 180
  }

  /** The ranges `_parse_duration` looks for, in order. */
  const DurationRanges: seq<string> := ["15-30", "30-60", "1-3", "3-10", "10-30"]

  /** The default three minutes applies exactly when no range is mentioned. */
  lemma {:induction false} DurationDefault(d: Answer)
    requires !d.Other?
    ensures ParseDuration(d) == 180 <==> forall k :: 0 <= k < |DurationRanges| ==> !Has(d, DurationRanges[k]).value
    ensures d.Text? ==> (ParseDuration(d) == 180 <==> !ContainsAny(d.text, DurationRanges))
  {
    if d.Text? {
      ContainsAnyThree(d.text, "1-3", "3-10", "10-30");
      assert DurationRanges[1..] == ["30-60", "1-3", "3-10", "10-30"];
      assert DurationRanges[1..][1..] == ["1-3", "3-10", "10-30"];
    }
    if ParseDuration(d) != 180 {
      var k :| 0 <= k < |DurationRanges| && Has(d, DurationRanges[k]).value by {
        if Has(d, "15-30").value { assert DurationRanges[0] == "15-30"; }
        else if Has(d, "30-60").value { assert DurationRanges[1] == "30-60"; }
        else if Has(d, "1-3").value { assert DurationRanges[2] == "1-3"; }
        else if Has(d, "3-10").value { assert DurationRanges[3] == "3-10"; }
        else { assert DurationRanges[4] == "10-30"; }
      }
    }
  }

  /**
   * The planner's duration table is the narrative pacing table's lower
   * neighbour: the two agree only on the default, and the planner's value is
   * smaller whenever a range is mentioned.
   */
  lemma {:induction false} DurationTablesDiffer(d: Answer)
    requires !d.Other?
    ensures ParseDuration(d) <= Narrative.PacingSeconds(d)
    ensures ParseDuration(d) == Narrative.PacingSeconds(d) <==> ParseDuration(d) == 180
  {
  }

  /** `_determine_format`, on the lowercased platform answer. */
  function DetermineFormat(platform: string): (r: VideoFormat)
    ensures r == Portrait <==> ContainsAny(Lower(platform), ["tiktok", "reels", "stories"])
    ensures r == Square <==>
      (!ContainsAny(Lower(platform), ["tiktok", "reels", "stories"])
      && Contains(Lower(platform), "instagram") && Contains(Lower(platform), "feed"))
  {
    var pl := Lower(platform);
    ContainsAnyThree(pl, "tiktok", "reels", "stories");
    if Contains(pl, "tiktok") || Contains(pl, "reels") || Contains(pl, "stories") then Portrait
    else if Contains(pl, "instagram") && Contains(pl, "feed") then Square
    else Landscape
  }

  // ---------------------------------------------------------------- voice-over and subtitles

  /** `_generate_voice_over_config` from the voice-over answer and the three voice answers. */
  function VoiceOver(needed: string, gender: string, language: string, age: string): (r: VoiceOverConfig)
    ensures r.enabled <==> Contains(needed, "Yes")
    ensures r.enabled ==> |r.voices| == (if Contains(Lower(needed), "single") then 1 else 2)
    ensures !r.enabled ==> r.voices == []
    ensures forall k :: 0 <= k < |r.voices| ==> r.voices[k].language == Lower(language) && r.voices[k].text == ""
    ensures ValidateVoiceOver(r)
  {
    if Contains(needed, "Yes") then
      if Contains(Lower(needed), "single") then
        VoiceOverConfig(true, [Voice(MapChar(Lower(gender), ' ', '_'), Lower(language),
          MapChar(DeleteChar(DeleteChar(Lower(age), '('), ')'), '-', '_'), "")])
      else
        VoiceOverConfig(true, [Voice("male", Lower(language), "adult", ""), Voice("female", Lower(language), "adult", "")])
    else VoiceOverConfig(false, [])
  }

  /** `_generate_subtitle_config` from the subtitle answer and the style answer. */
  function Subtitles(subs: string, style: string): (r: SubtitleConfig)
    ensures r.enabled <==> Contains(subs, "Yes")
    ensures r.enabled ==>
      (r.kind == Some(if Contains(Lower(subs), "burned") then Burned else Srt)
      && r.style == Some(MapChar(Lower(style), ' ', '_')))
    ensures !r.enabled ==> r.kind.None? && r.style.None?
    ensures ValidateSubtitles(r)
  {
    if Contains(subs, "Yes") then
      SubtitleConfig(true, Some(if Contains(Lower(subs), "burned") then Burned else Srt), Some(MapChar(Lower(style), ' ', '_')))
    else SubtitleConfig(false, None, None)
  }

  // ---------------------------------------------------------------- scene count and durations

  /** Cuts per minute from the first word of the lowercased rhythm; a blank rhythm has no first word. */
  function PlanCuts(rhythm: string): (r: Option<nat>)
    ensures r.None? <==> Words(Lower(rhythm)) == []
    ensures r.Some? ==> r.value in {8, 15, 30}
  {
    var words := Words(Lower(rhythm));
    if words == [] then None
    else if words[0] == "slow" then Some(8)
    else if words[0] == "medium" then Some(15)
    else if words[0] == "fast" then Some(30)
    else Some(15)
  }

  /** `max(3, min(8, int(total / 60 * cpm / 4)))` */
  function NumScenes(total: nat, cpm: nat): (n: nat)
    ensures 3 <= n <= 8
    ensures 3 < n < 8 ==> n == total * cpm / 240
  {
    var raw := total * cpm / 240;
    if raw < 3 then 3 else if raw > 8 then 8 else raw
  }

  /** `sum(s)`, taken from the end so that a prefix extends by one element. */
  function Sum(s: seq<int>): int
    decreases |s|
  {
    if s == [] then 0 else Sum(s[..|s| - 1]) + s[|s| - 1]
  }

  lemma {:induction false} SumPrefix(s: seq<int>, k: nat)
    requires k < |s|
    ensures Sum(s[..k + 1]) == Sum(s[..k]) + s[k]
  {
    assert s[..k + 1][..k] == s[..k];
  }

  /** n equal parts sum to n times the part. */
  lemma {:induction false} SumConstant(s: seq<int>, x: int)
    requires forall k :: 0 <= k < |s| ==> s[k] == x
    ensures Sum(s) == |s| * x
    decreases |s|
  {
    if s != [] {
      SumConstant(s[..|s| - 1], x);
    }
  }

  /** The per-scene length before the drift correction: ×1.2 for a slow rhythm, ×0.8 for a fast one, truncated. */
  function Scaled(base: nat, rhythm: string): (r: nat)
    ensures r <= base * 12 / 10
  {
    if Contains(Lower(rhythm), "slow") then base * 12 / 10
    else if Contains(Lower(rhythm), "fast") then base * 8 / 10
    else base
  }

  /** n − 1 parts of x and a last part that makes the sum up to the total. */
  function Parts(n: nat, x: int, total: int): (d: seq<int>)
    requires n >= 1
    ensures |d| == n
    ensures forall k :: 0 <= k < n - 1 ==> d[k] == x
    ensures Sum(d) == total
  {
    var d := seq(n - 1, k => x) + [total - (n - 1) * x];
    SumConstant(d[..n - 1], x);
    assert d[..n - 1] + [d[n - 1]] == d;
    d
  }

  /**
   * The scene lengths: n equal scaled parts, the last corrected so that they
   * add up to the total.
   */
  function Durations(total: nat, n: nat, rhythm: string): (d: seq<int>)
    requires n >= 1
    ensures |d| == n && Sum(d) == total
  {
    Parts(n, Scaled(total / n, rhythm), total)
  }

  /** The last of the parts is what the first n − 1 leave of the total. */
  lemma {:induction false} PartsLast(n: nat, x: int, total: int)
    requires n >= 1
    ensures Parts(n, x, total)[n - 1] == total - (n - 1) * x
    ensures Sum(Parts(n, x, total)[..n - 1]) == (n - 1) * x
  {
    var d := Parts(n, x, total);
    SumConstant(d[..n - 1], x);
    SumPrefix(d, n - 1);
    assert d[..n] == d;
  }

  /** n parts of x, the last one then corrected by the difference to the total. */
  lemma {:induction false} CorrectedParts(d: seq<int>, n: nat, x: int, total: int)
    requires n >= 1 && |d| == n && forall k :: 0 <= k < n ==> d[k] == x
    ensures Sum(d) == n * x
    ensures d[n - 1 := d[n - 1] + (total - Sum(d))] == Parts(n, x, total)
  {
    SumConstant(d, x);
    assert n * x == (n - 1) * x + x;
  }

  /** `_calculate_scene_durations` */
  method CalculateSceneDurations(total: nat, n: nat, rhythm: string) returns (durations: seq<int>)
    requires n >= 1
    ensures durations == Durations(total, n, rhythm)
  {
    var base := total / n;
    var x := Scaled(base, rhythm);
    durations := [];
    var i := 0;
    while i < n
      invariant 0 <= i <= n
      invariant |durations| == i
      invariant forall k :: 0 <= k < i ==> durations[k] == x
    {
      durations := durations + [x];
      i := i + 1;
    }
    CorrectedParts(durations, n, x, total);
    var current := Sum(durations);
    if current != total {
      durations := durations[n - 1 := durations[n - 1] + (total - current)];
    } else {
      assert durations == durations[n - 1 := durations[n - 1] + (total - current)];
    }
  }

  /** Every scene length is non-negative exactly when the n − 1 scaled parts fit into the total. */
  lemma {:induction false} DurationsNonNegative(total: nat, n: nat, rhythm: string)
    requires n >= 1
    ensures (forall k :: 0 <= k < n ==> Durations(total, n, rhythm)[k] >= 0)
      <==> (n - 1) * Scaled(total / n, rhythm) <= total
  {
    var d := Durations(total, n, rhythm);
    var x := Scaled(total / n, rhythm);
    assert forall k :: 0 <= k < n - 1 ==> d[k] == x;
    assert d[n - 1] == total - (n - 1) * x;
  }

  lemma {:induction false} MulMono(a: nat, b: int, c: int)
    requires b <= c
    ensures a * b <= a * c
  {
    assert a * c - a * b == a * (c - b);
  }

  /** n − 1 parts no longer than total / n fit into the total. */
  lemma {:induction false} PartsFit(total: nat, n: nat, x: int)
    requires n >= 1 && x <= total / n
    ensures (n - 1) * x <= total
  {
    var base := total / n;
    MulMono(n - 1, x, base);
    assert total == n * base + total % n;
    assert (n - 1) * base + base == n * base;
  }

  /** Without a slow rhythm no part is scaled up, so no scene length is negative. */
  lemma {:induction false} UnscaledFits(total: nat, n: nat, rhythm: string)
    requires n >= 1 && !Contains(Lower(rhythm), "slow")
    ensures forall k :: 0 <= k < n ==> Durations(total, n, rhythm)[k] >= 0
  {
    var x := Scaled(total / n, rhythm);
    assert x <= total / n;
    PartsFit(total, n, x);
    DurationsNonNegative(total, n, rhythm);
  }

  /** A "3-10" duration is 360 seconds. */
  lemma {:induction false} TenMinuteRange()
    ensures ParseDuration(Text("3-10")) == 360
  {
    assert Contains("3-10", "3-10") by {
      ContainsAt("3-10", "3-10", 0);
    }
    MissingCharNotContained("3-10", "15-30", 1);
    MissingCharNotContained("3-10", "30-60", 3);
    forall i | 0 <= i <= 1
      ensures !("1-3" <= "3-10"[i..])
    {
      assert "3-10"[i] != '1';
    }
  }

  /** A rhythm answer whose first word is "slow" cuts 8 times a minute and is scaled up. */
  lemma {:induction false} SlowRhythm(rhythm: string)
    requires Words(Lower(rhythm)) != [] && Words(Lower(rhythm))[0] == "slow"
    ensures PlanCuts(rhythm) == Some(8) && Contains(Lower(rhythm), "slow")
  {
    FirstWordContained(Lower(rhythm));
  }

  /** The answer "slow" is such a rhythm. */
  lemma {:induction false} SlowWords()
    ensures Lower("slow") == "slow" && Words("slow") == ["slow"]
  {
    LowerOfLowercase("slow");
    SolidWord("slow");
  }

  /**
   * A slow rhythm over "3-10" minutes: 360 seconds in 8 scenes of 54 seconds
   * leaves −18 seconds for the last scene, which then starts at second 378,
   * after the end of the video.
   */
  lemma {:induction false} SlowDriftCounterexample(rhythm: string)
    requires Words(Lower(rhythm)) != [] && Words(Lower(rhythm))[0] == "slow"
    ensures ParseDuration(Text("3-10")) == 360 && NumScenes(ParseDuration(Text("3-10")), PlanCuts(rhythm).value) == 8
    ensures Durations(360, 8, rhythm)[6] == 54 && Durations(360, 8, rhythm)[7] == -18
    ensures Sum(Durations(360, 8, rhythm)[..7]) == 378
  {
    TenMinuteRange();
    SlowRhythm(rhythm);
    EightSlowScenes();
    assert Scaled(360 / 8, rhythm) == 54;
    PartsLast(8, 54, 360);
  }

  lemma {:induction false} EightSlowScenes()
    ensures NumScenes(360, 8) == 8
  {
    assert 360 * 8 / 240 == 12;
  }

  /** The start of scene k: the lengths of the scenes before it. */
  lemma {:induction false} DurationsPrefixSums(total: nat, n: nat, rhythm: string, k: nat)
    requires n >= 1 && k <= n
    ensures Sum(Durations(total, n, rhythm)[..k]) == if k == n then total else k * Scaled(total / n, rhythm)
  {
    var d := Durations(total, n, rhythm);
    if k == n {
      assert d[..k] == d;
    } else {
      SumConstant(d[..k], Scaled(total / n, rhythm));
    }
  }

  // ---------------------------------------------------------------- the stage walk

  /** The entries of `scene_types`; `StageName` gives the string the source uses for each. */
  datatype Stage = Hook | Setup | Rising | Climax | Resolution | Development

  function StageName(st: Stage): string
  {
    match st
    case Hook => Narrative.Hook
    case Setup => Narrative.Setup
    case Rising => Narrative.RisingAction
    case Climax => Narrative.Climax
    case Resolution => Narrative.Resolution
    case Development => "development"
  }

  /** Position i of a stage list of length m: hook, setup, m − 4 rising actions, climax, resolution. */
  function StageAt(m: nat, i: nat): Stage
  {
    if i == 0 then Hook
    else if i == 1 then Setup
    else if i + 2 < m then Rising
    else if i + 2 == m then Climax
    else Resolution
  }

  /**
   * `scene_types`: the five stages, then a rising action inserted at position
   * 2 until there are as many stages as scenes.
   */
  method StageTypes(n: nat) returns (types: seq<Stage>)
    ensures |types| == if n < 5 then 5 else n
    ensures forall i :: 0 <= i < |types| ==> types[i] == StageAt(|types|, i)
  {
    types := [Hook, Setup, Rising, Climax, Resolution];
    while n > |types|
      invariant 5 <= |types| <= (if n < 5 then 5 else n)
      invariant forall i :: 0 <= i < |types| ==> types[i] == StageAt(|types|, i)
      decreases n - |types|
    {
      types := types[..2] + [Rising] + types[2..];
    }
  }

  /** The stage of scene i in a plan of n scenes. */
  function StageOf(n: nat, i: nat): Stage
  {
    StageAt(if n < 5 then 5 else n, i)
  }

  /**
   * Scene 0 is the hook and scene 1 the setup; from five scenes on the last two
   * are climax and resolution with rising actions between; three scenes end on
   * a rising action and four on the climax.
   */
  lemma {:induction false} StageWalk(n: nat)
    requires n >= 3
    ensures StageOf(n, 0) == Hook && StageOf(n, 1) == Setup
    ensures n >= 5 ==>
      (StageOf(n, n - 2) == Climax && StageOf(n, n - 1) == Resolution
      && forall i :: 2 <= i < n - 2 ==> StageOf(n, i) == Rising)
    ensures n == 3 ==> StageOf(n, 2) == Rising
    ensures n == 4 ==> StageOf(n, 2) == Rising && StageOf(n, 3) == Climax
  {
  }

  // ---------------------------------------------------------------- scenes

  /**
   * The answers `_generate_scenes` reads, each with its default, and the
   * narrative it draws on.  It reads the rhythm, the tone and the ending only
   * through `.lower()`, so they are held lowercased; `useSubtitles` is its
   * `'Yes' in` test of the subtitle answer; `texts` are the fixed texts it
   * writes (`Texts` in a plan).
   */
  datatype SceneInputs = SceneInputs(
    rhythmLower: string,
    toneLower: string,
    endingLower: string,
    voiceNeeded: string,
    useSubtitles: bool,
    hasTranscription: bool,
    progression: seq<Narrative.Beat>,
    texts: SceneTexts)

  /** The emotion and intensity of scene i: its beat, or the lowercased tone at 0.5 past the last beat. */
  function BeatOf(inp: SceneInputs, i: nat): (string, nat)
  {
    if i < |inp.progression| then (inp.progression[i].emotion, inp.progression[i].intensity)
    else (inp.toneLower, 5)
  }

  /**
   * The fixed texts `_generate_scenes` writes: the visual directions, the two
   * halves around the emotion in the rising-action and climax directions, and
   * the voice-over placeholders.
   */
  datatype SceneTexts = SceneTexts(
    hookVisual: string, setupVisual: string,
    risingBefore: string, risingAfter: string, climaxBefore: string, climaxAfter: string,
    openVisual: string, cliffhangerVisual: string, closedVisual: string,
    hookLine: string, setupLine: string, peakBefore: string, peakAfter: string, closingLine: string)

  /** The texts as the source writes them. */
  const Texts: SceneTexts := SceneTexts(
    "Impactful opening shot that establishes tone and grabs attention",
    "Establishing context and introducing key elements",
    "Building tension with ", " energy", "Peak emotional moment: ", " at maximum intensity",
    "Thought-provoking final image that lingers",
    "Suspenseful final moment that hints at continuation",
    "Satisfying conclusion that resolves the narrative",
    "[Opening hook - introduce the journey]",
    "[Context setting - establish the story]",
    "[Emotional peak - ", "]",
    "[Closing reflection - leave the audience with the message]")

  /** The visual direction of a stage; the resolution's depends on the ending answer. */
  function StageVisual(inp: SceneInputs, stage: Stage, emotion: string): string
  {
    var t := inp.texts;
    if stage == Hook then t.hookVisual
    else if stage == Setup then t.setupVisual
    else if stage == Rising then t.risingBefore + emotion + t.risingAfter
    else if stage == Climax then t.climaxBefore + emotion + t.climaxAfter
    else if Contains(inp.endingLower, "open") then t.openVisual
    else if Contains(inp.endingLower, "cliffhanger") then t.cliffhangerVisual
    else t.closedVisual
  }

  /** The audio of a stage; a rising action carries music above intensity 0.6. */
  function StageAudio(inp: SceneInputs, stage: Stage, intensity: nat): AudioType
  {
    if stage == Hook then (if Contains(inp.voiceNeeded, "voice") then VoiceOverAudio else Music)
    else if stage == Setup then (if inp.hasTranscription then Dialogue else Ambient)
    else if stage == Rising then (if intensity > 6 then Music else Dialogue)
    else if stage == Climax then Music
    else if Contains(inp.endingLower, "open") then Ambient
    else Music
  }

  /** The transition out of scene i of n at a stage. */
  function StageTransition(inp: SceneInputs, stage: Stage, i: nat, n: nat): Transition
  {
    if stage == Hook then Cut
    else if stage == Setup then (if Contains(inp.rhythmLower, "slow") then Fade else Cut)
    else if stage == Rising then (if i + 1 < n then MatchCut else Cut)
    else Fade
  }

  /** The voice-over placeholder of a stage, when the voice-over answer starts with "Yes". */
  function VoiceText(inp: SceneInputs, stage: Stage, emotion: string): Option<string>
  {
    if !("Yes" <= inp.voiceNeeded) then None
    else if stage == Hook then Some(inp.texts.hookLine)
    else if stage == Setup then Some(inp.texts.setupLine)
    else if stage == Climax then Some(inp.texts.peakBefore + emotion + inp.texts.peakAfter)
    else if stage == Resolution then Some(inp.texts.closingLine)
    else None
  }

  /** Scene i of n at a stage, from second `start` to second `end`. */
  function SceneAt(inp: SceneInputs, n: nat, i: nat, stage: Stage, start: string, end: string): Scene
  {
    var (emotion, intensity) := BeatOf(inp, i);
    Scene(i + 1, Goal(StageName(stage), emotion, intensity), start, end,
      StageVisual(inp, stage, emotion), StageAudio(inp, stage, intensity), VoiceText(inp, stage, emotion),
      inp.useSubtitles, StageTransition(inp, stage, i, n))
  }

  /** Every prefix of the lengths adds up to a non-negative time. */
  predicate StartsNonNegative(d: seq<int>)
  {
    forall k :: 0 <= k <= |d| ==> Sum(d[..k]) >= 0
  }

  /** The start second of every scene and the end of the last: the running sums of the lengths. */
  function Starts(d: seq<int>): (r: seq<int>)
    ensures |r| == |d| + 1
  {
    seq(|d| + 1, k requires 0 <= k <= |d| => Sum(d[..k]))
  }

  /** The clock readings of these seconds, one per second. */
  function Clock(starts: seq<int>): (r: seq<string>)
    ensures |r| == |starts|
  {
    if starts == [] then [] else Clock(starts[..|starts| - 1]) + [Timestamp(starts[|starts| - 1])]
  }

  /** Reading k of the clock is the timestamp of second k. */
  lemma {:induction false} ClockAt(starts: seq<int>, k: nat)
    requires k < |starts|
    ensures Clock(starts)[k] == Timestamp(starts[k])
    decreases |starts|
  {
    if k < |starts| - 1 {
      assert starts[..|starts| - 1][k] == starts[k];
      ClockAt(starts[..|starts| - 1], k);
    }
  }

  /** The first m of n scenes: scene k at its stage, from reading times[k] to reading times[k + 1]. */
  function ScenesUpTo(inp: SceneInputs, n: nat, times: seq<string>, m: nat): (r: seq<Scene>)
    requires |times| == n + 1 && m <= n
    ensures |r| == m
  {
    if m == 0 then []
    else
      ScenesUpTo(inp, n, times, m - 1) + [SceneAt(inp, n, m - 1, StageOf(n, m - 1), times[m - 1], times[m])]
  }

  /** The scenes for these lengths, one per length. */
  function Scenes(inp: SceneInputs, d: seq<int>): (r: seq<Scene>)
    ensures |r| == |d|
  {
    ScenesUpTo(inp, |d|, Clock(Starts(d)), |d|)
  }

  /** `_generate_scenes`: the stage walk, then one scene per length with a running start time. */
  method GenerateScenes(inp: SceneInputs, durations: seq<int>) returns (scenes: seq<Scene>)
    ensures scenes == Scenes(inp, durations)
  {
    var n := |durations|;
    var types := StageTypes(n);
    ghost var starts := Starts(durations);
    ghost var times := Clock(starts);
    scenes := [];
    var current := 0;
    var i := 0;
    while i < n
      invariant 0 <= i <= n
      invariant current == starts[i]
      invariant scenes == ScenesUpTo(inp, n, times, i)
    {
      var stage := if i < |types| then types[i] else Development;
      ClockStep(durations, i, current);
      var start, end := Timestamp(current), Timestamp(current + durations[i]);
      ScenesStep(inp, n, times, i, stage, start, end);
      scenes := scenes + [SceneAt(inp, n, i, stage, start, end)];
      current := current + durations[i];
      i := i + 1;
    }
  }

  /** The clock at the running time: readings i and i + 1 are the timestamps of a scene's start and end. */
  lemma {:induction false} ClockStep(d: seq<int>, i: nat, current: int)
    requires i < |d| && current == Starts(d)[i]
    ensures Starts(d)[i + 1] == current + d[i]
    ensures Clock(Starts(d))[i] == Timestamp(current) && Clock(Starts(d))[i + 1] == Timestamp(current + d[i])
  {
    StartsStep(d, i);
    ClockAt(Starts(d), i);
    ClockAt(Starts(d), i + 1);
  }

  /** One more scene: the first i + 1 scenes are the first i and scene i. */
  lemma {:induction false} ScenesStep(inp: SceneInputs, n: nat, times: seq<string>, i: nat, stage: Stage, start: string, end: string)
    requires |times| == n + 1 && i < n && stage == StageOf(n, i) && start == times[i] && end == times[i + 1]
    ensures ScenesUpTo(inp, n, times, i + 1) == ScenesUpTo(inp, n, times, i) + [SceneAt(inp, n, i, stage, start, end)]
  {
  }

  /** Each start is the one before it plus that scene's length. */
  lemma {:induction false} StartsStep(d: seq<int>, i: nat)
    requires i < |d|
    ensures Starts(d)[i + 1] == Starts(d)[i] + d[i]
  {
    SumPrefix(d, i);
  }

  /** Scene k of the first m is the scene at stage k between readings k and k + 1. */
  lemma {:induction false} SceneUpTo(inp: SceneInputs, n: nat, times: seq<string>, m: nat, k: nat)
    requires |times| == n + 1 && k < m <= n
    ensures ScenesUpTo(inp, n, times, m)[k] == SceneAt(inp, n, k, StageOf(n, k), times[k], times[k + 1])
    decreases m
  {
    if k < m - 1 {
      SceneUpTo(inp, n, times, m - 1, k);
    }
  }

  /** Scene k of n has id k + 1 and runs from reading k to reading k + 1. */
  lemma {:induction false} SceneTimes(inp: SceneInputs, n: nat, times: seq<string>, k: nat)
    requires |times| == n + 1 && k < n
    ensures ScenesUpTo(inp, n, times, n)[k].id == k + 1
    ensures ScenesUpTo(inp, n, times, n)[k].start == times[k]
    ensures ScenesUpTo(inp, n, times, n)[k].end == times[k + 1]
  {
    SceneUpTo(inp, n, times, n, k);
  }

  /** The fields of scene k of n that depend on its stage and its beat, not on its times. */
  lemma {:induction false} SceneFields(inp: SceneInputs, n: nat, times: seq<string>, k: nat)
    requires |times| == n + 1 && k < n
    ensures ScenesUpTo(inp, n, times, n)[k].transition == StageTransition(inp, StageOf(n, k), k, n)
    ensures ScenesUpTo(inp, n, times, n)[k].audio == StageAudio(inp, StageOf(n, k), BeatOf(inp, k).1)
    ensures ScenesUpTo(inp, n, times, n)[k].voiceOverText == VoiceText(inp, StageOf(n, k), BeatOf(inp, k).0)
    ensures ScenesUpTo(inp, n, times, n)[k].subtitles == inp.useSubtitles
  {
    SceneUpTo(inp, n, times, n, k);
  }

  /** The running sums start at 0 and end at the sum of the lengths. */
  lemma {:induction false} StartsEnds(d: seq<int>)
    ensures Starts(d)[0] == 0 && Starts(d)[|d|] == Sum(d)
  {
    assert d[..0] == [];
    assert d[..|d|] == d;
  }

  /**
   * Scene ids run 1..N; the first scene starts at "00:00", each scene starts
   * where the one before it ends, the last ends at the sum of the lengths, and
   * every start reads back as the sum of the lengths before it.
   */
  lemma {:induction false} ScenesContiguous(inp: SceneInputs, d: seq<int>)
    requires StartsNonNegative(d) && |d| > 0
    ensures forall k :: 0 <= k < |d| ==> Scenes(inp, d)[k].id == k + 1
    ensures Scenes(inp, d)[0].start == Timestamp(0)
    ensures forall k :: 0 < k < |d| ==> Scenes(inp, d)[k].start == Scenes(inp, d)[k - 1].end
    ensures Sum(d) >= 0 && Scenes(inp, d)[|d| - 1].end == Timestamp(Sum(d))
    ensures forall k :: 0 <= k < |d| ==> TimestampValue(Scenes(inp, d)[k].start) == Some(Sum(d[..k]))
  {
    var starts := Starts(d);
    StartsEnds(d);
    forall k | 0 <= k < |d|
      ensures Scenes(inp, d)[k].id == k + 1
      ensures Scenes(inp, d)[k].start == Timestamp(starts[k]) && Scenes(inp, d)[k].end == Timestamp(starts[k + 1])
      ensures TimestampValue(Scenes(inp, d)[k].start) == Some(Sum(d[..k]))
    {
      SceneTimes(inp, |d|, Clock(starts), k);
      ClockAt(starts, k);
      ClockAt(starts, k + 1);
      TimestampRoundTrip(Sum(d[..k]));
    }
  }

  /**
   * The hook cuts, the setup fades only for a slow rhythm, a rising action
   * match-cuts unless it is the last scene, climax and resolution fade.
   */
  lemma {:induction false} ScenesTransitions(inp: SceneInputs, n: nat, times: seq<string>)
    requires |times| == n + 1 && n >= 3
    ensures ScenesUpTo(inp, n, times, n)[0].transition == Cut
    ensures ScenesUpTo(inp, n, times, n)[1].transition == (if Contains(inp.rhythmLower, "slow") then Fade else Cut)
    ensures forall k :: 2 <= k < n - 1 ==>
      ScenesUpTo(inp, n, times, n)[k].transition == (if k == n - 2 && n >= 5 then Fade else MatchCut)
    ensures ScenesUpTo(inp, n, times, n)[n - 1].transition == (if n == 3 then Cut else Fade)
  {
    StageWalk(n);
    SceneFields(inp, n, times, 0);
    SceneFields(inp, n, times, 1);
    SceneFields(inp, n, times, n - 1);
    forall k | 2 <= k < n - 1
      ensures ScenesUpTo(inp, n, times, n)[k].transition == (if k == n - 2 && n >= 5 then Fade else MatchCut)
    {
      SceneFields(inp, n, times, k);
    }
  }

  /**
   * Every scene carries the same subtitle flag, the `'Yes' in` test of the answer;
   * voice-over text appears only when the answer starts with "Yes" and never
   * on a rising action, and then the hook and the setup both carry it; the
   * hook is voiced exactly when the answer mentions "voice".
   */
  lemma {:induction false} ScenesAudio(inp: SceneInputs, n: nat, times: seq<string>)
    requires |times| == n + 1 && n >= 3
    ensures forall k :: 0 <= k < n ==> ScenesUpTo(inp, n, times, n)[k].subtitles == inp.useSubtitles
    ensures forall k :: 0 <= k < n && ScenesUpTo(inp, n, times, n)[k].voiceOverText.Some? ==>
      ("Yes" <= inp.voiceNeeded && StageOf(n, k) != Rising)
    ensures "Yes" <= inp.voiceNeeded ==>
      (ScenesUpTo(inp, n, times, n)[0].voiceOverText == Some(inp.texts.hookLine) && ScenesUpTo(inp, n, times, n)[1].voiceOverText == Some(inp.texts.setupLine))
    ensures ScenesUpTo(inp, n, times, n)[0].audio == VoiceOverAudio <==> Contains(inp.voiceNeeded, "voice")
  {
    StageWalk(n);
    SceneFields(inp, n, times, 0);
    SceneFields(inp, n, times, 1);
    forall k | 0 <= k < n
      ensures ScenesUpTo(inp, n, times, n)[k].subtitles == inp.useSubtitles
      ensures ScenesUpTo(inp, n, times, n)[k].voiceOverText.Some? ==>
        ("Yes" <= inp.voiceNeeded && StageOf(n, k) != Rising)
    {
      SceneFields(inp, n, times, k);
    }
  }

  /** The catalog answer declining voice-over. */
  const NoVoiceOver: string := "No " + "voice-over" + " needed"

  /**
   * Declining voice-over with the catalog's own answer leaves voice-over
   * disabled, yet the hook scene's audio is "voice_over": the answer mentions
   * "voice".
   */
  lemma {:induction false} DeclinedVoiceOverVoicesHook(inp: SceneInputs, d: seq<int>, gender: string, language: string, age: string)
    requires |d| >= 3 && inp.voiceNeeded == NoVoiceOver
    ensures !VoiceOver(NoVoiceOver, gender, language, age).enabled
    ensures Scenes(inp, d)[0].audio == VoiceOverAudio
  {
    NoVoiceOverMentionsVoice();
    ScenesAudio(inp, |d|, Clock(Starts(d)));
  }

  lemma {:induction false} NoVoiceOverMentionsVoice()
    ensures !Contains(NoVoiceOver, "Yes") && Contains(NoVoiceOver, "voice")
  {
    MissingCharNotContained(NoVoiceOver, "Yes", 0);
    ContainsPrefix("voice", "-over");
    assert "voice" + "-over" == "voice-over";
    ContainsInRight("No ", "voice-over", "voice");
    ContainsInLeft("No " + "voice-over", " needed", "voice");
  }

  /**
   * Under five scenes there is no resolution, the only stage that reads the
   * ending, so the scenes do not depend on it.
   */
  lemma {:induction false} EndingUnreadUpTo(inp: SceneInputs, n: nat, times: seq<string>, m: nat, ending: string)
    requires |times| == n + 1 && m <= n < 5
    ensures ScenesUpTo(inp.(endingLower := ending), n, times, m) == ScenesUpTo(inp, n, times, m)
    decreases m
  {
    if m > 0 {
      EndingUnreadUpTo(inp, n, times, m - 1, ending);
      assert StageOf(n, m - 1) != Resolution;
    }
  }

  /** The scenes of a plan with fewer than five scenes are the same whatever the ending answer. */
  lemma {:induction false} EndingUnreadBeforeFive(inp: SceneInputs, d: seq<int>, ending: string)
    requires |d| < 5
    ensures Scenes(inp.(endingLower := ending), d) == Scenes(inp, d)
  {
    EndingUnreadUpTo(inp, |d|, Clock(Starts(d)), |d|, ending);
  }

  // ---------------------------------------------------------------- title, theme and style

  const VoicesTitle: string := "Voices: A Personal Story"
  const WeddingTitle: string := "Forever Begins"
  const TravelTitle: string := "Wanderlust: A Journey Captured"
  const DocumentaryTitle: string := "The Untold Story"
  const ProductTitle: string := "Innovation Revealed"
  const EventTitle: string := "The Moment"
  const FallbackTitle: string := "The Edit"

  /** The tone table, in its order: a tone mentioning the key gets the title beside it. */
  const ToneKeys: seq<string> := ["joyful", "melancholic", "suspenseful", "romantic", "inspirational",
    "nostalgic", "energetic", "calm", "dramatic"]
  const ToneTitles: seq<string> := ["Radiance", "Echoes of Yesterday", "The Edge", "Two Hearts", "Rise",
    "Time Remembered", "Momentum", "Serenity", "The Turning Point"]

  /** The first tone key, from position i on, that the lowercased tone mentions. */
  function ToneTitle(tl: string, i: nat): (r: Option<string>)
    requires i <= |ToneKeys|
    ensures r.Some? ==> exists j :: i <= j < |ToneKeys| && r.value == ToneTitles[j] && Contains(tl, ToneKeys[j])
    ensures r.None? <==> forall j :: i <= j < |ToneKeys| ==> !Contains(tl, ToneKeys[j])
    decreases |ToneKeys| - i
  {
    if i == |ToneKeys| then None
    else if Contains(tl, ToneKeys[i]) then Some(ToneTitles[i])
    else ToneTitle(tl, i + 1)
  }

  /** The title the request's words pick ahead of the tone, if any. */
  function RequestTitle(words: seq<string>): (r: Option<string>)
  {
    if "interview" in words then Some(VoicesTitle)
    else if "wedding" in words then Some(WeddingTitle)
    else if "travel" in words || "vacation" in words || "trip" in words then Some(TravelTitle)
    else if "documentary" in words then Some(DocumentaryTitle)
    else if "product" in words || "commercial" in words then Some(ProductTitle)
    else if "event" in words then Some(EventTitle)
    else None
  }

  /** `_generate_title`: a word of the request first, then the tone table, then the generic title. */
  function Title(request: string, tone: string): string
  {
    match RequestTitle(Words(Lower(request)))
    case Some(t) => t
    case None =>
      match ToneTitle(Lower(tone), 0)
      case Some(t) => t
      case None => FallbackTitle
  }

  /** No specific title is spelled like the generic one. */
  lemma {:induction false} FallbackTitleDistinct(words: seq<string>)
    ensures RequestTitle(words) != Some(FallbackTitle)
    ensures FallbackTitle !in ToneTitles
  {
    assert FallbackTitle[6] == 'i';
    assert "The Edge"[6] == 'g';
    assert "The Moment"[4] == 'M';
    assert forall k :: 0 <= k < |ToneTitles| && k != 2 ==> |ToneTitles[k]| != 8 || ToneTitles[k][0] != 'T';
  }

  /**
   * The generic title comes out exactly when no word of the request picks a
   * title and the tone mentions none of the tone keys; a request word wins over
   * the tone.
   */
  lemma {:induction false} TitleFallback(request: string, tone: string)
    ensures Title(request, tone) == FallbackTitle <==>
      (RequestTitle(Words(Lower(request))).None? && forall j :: 0 <= j < |ToneKeys| ==> !Contains(Lower(tone), ToneKeys[j]))
    ensures RequestTitle(Words(Lower(request))).Some? ==> Title(request, tone) == RequestTitle(Words(Lower(request))).value
  {
    FallbackTitleDistinct(Words(Lower(request)));
    var t := ToneTitle(Lower(tone), 0);
    if t.Some? {
      var j :| 0 <= j < |ToneKeys| && t.value == ToneTitles[j] && Contains(Lower(tone), ToneKeys[j]);
      assert t.value in ToneTitles;
    }
  }

  const Themes: seq<string> := [
    "Personal transformation through challenge and triumph",
    "Internal change and self-discovery",
    "Connection and relationship development",
    "Loss, reflection, and emotional truth",
    "Joy, humor, and lighthearted moments",
    "Discovery and revelation",
    "Authentic human experience and truth",
    "Time, memory, and progression",
    "Personal narrative and intimate perspective",
    "Celebration and shared experience"]
  const FallbackTheme: string := "Human experience captured through cinematic lens"

  /** The theme of the first archetype from position i on named `arc`. */
  function ThemeFrom(arc: string, i: nat): (r: string)
    requires i <= |Narrative.ArcNames|
    ensures r == FallbackTheme <==> forall j :: i <= j < |Narrative.ArcNames| ==> Narrative.ArcNames[j] != arc
    decreases |Narrative.ArcNames| - i
  {
    if i == |Narrative.ArcNames| then FallbackTheme
    else if Narrative.ArcNames[i] == arc then (assert Themes[i] != FallbackTheme; Themes[i])
    else ThemeFrom(arc, i + 1)
  }

  /** `_generate_theme`: the archetype's theme, or the generic one for a name outside the table. */
  function Theme(arc: string): (r: string)
    ensures r == FallbackTheme <==> arc !in Narrative.ArcNames
  {
    ThemeFrom(arc, 0)
  }

  /** Each archetype gets the theme beside it in the table. */
  lemma {:induction false} ThemeOfArchetype(i: nat)
    requires i < |Narrative.ArcNames|
    ensures Theme(Narrative.ArcNames[i]) == Themes[i]
  {
    var j := 0;
    while j < i
      invariant j <= i
      invariant ThemeFrom(Narrative.ArcNames[i], 0) == ThemeFrom(Narrative.ArcNames[i], j)
    {
      assert Narrative.ArcNames[j] != Narrative.ArcNames[i];
      j := j + 1;
    }
  }

  const SlowStyle: string := "Contemplative pacing with deliberate, measured cuts"
  const FastStyle: string := "Dynamic, energetic editing with rapid cuts"
  const BalancedStyle: string := "Balanced rhythm with natural flow"

  /** The pacing descriptor: slow is checked before fast. */
  function RhythmStyle(rhythm: string): string
  {
    if Contains(Lower(rhythm), "slow") then SlowStyle
    else if Contains(Lower(rhythm), "fast") then FastStyle
    else BalancedStyle
  }

  /** `_generate_style`: the rhythm, tone and colour descriptors joined by "; ". */
  function Style(rhythm: string, tone: string, color: string): (r: string)
    ensures RhythmStyle(rhythm) + "; " <= r
    ensures Contains(r, Lower(tone) + " emotional tone")
    ensures |r| >= |Lower(color) + " color palette"|
      && r[|r| - |Lower(color) + " color palette"|..] == Lower(color) + " color palette"
  {
    var head, tone', color' := RhythmStyle(rhythm), Lower(tone) + " emotional tone", Lower(color) + " color palette";
    JoinThree(head, tone', color', "; ");
    ContainsMiddle(head + "; ", tone', "; " + color');
    var r := Join([head, tone', color'], "; ");
    assert r == (head + "; ") + tone' + ("; " + color');
    assert r == (head + "; " + tone' + "; ") + color';
    r
  }

  // ---------------------------------------------------------------- the plan

  const PlatformKey: string := "target_platform"
  const DurationKey: string := "target_duration"
  const RhythmKey: string := "editing_rhythm"
  const ToneKey: string := "emotional_tone"
  const VoiceKey: string := "voice_over_needed"
  const SubtitlesKey: string := "subtitles_enabled"
  const EndingKey: string := "ending_style"
  const GenderKey: string := "voice_gender"
  const LanguageKey: string := "voice_language"
  const AgeKey: string := "voice_age"
  const StyleKey: string := "subtitle_style"
  const ColorKey: string := "color_grade"

  /** The string an answer holds, or the default when it is absent or not a string. */
  function TextOr(a: Answers, key: string, default: string): (r: string)
    ensures TextAnswer(a, key, default).Some? ==> TextAnswer(a, key, default) == Some(r)
    ensures TextAnswer(a, key, default).None? ==> r == default
  {
    if key in a && a[key].Text? then a[key].text else default
  }

  /** The subtitle answer's default in `_generate_subtitle_config`. */
  const NoSubtitles: string := "No subtitles needed"

  /**
   * `_generate_voice_over_config` on the answers.  The voice-over answer is
   * tested with `in`, a list for the item "Yes"; only when that test passes is
   * it lowercased, and then the voice answers that branch lowercases are read:
   * gender, language and age for a single voice, the language alone for two.
   * Nothing where a string method meets an answer that is not a string.
   */
  function VoiceOverOf(a: Answers): (r: Option<VoiceOverConfig>)
    ensures var needed := Get(a, VoiceKey, Text(NoVoiceOver));
      r.None? <==>
        (needed.Other? || (Has(needed, "Yes").value && (!needed.Text? ||
          !TextAt(a, if Contains(Lower(needed.text), "single") then [GenderKey, LanguageKey, AgeKey] else [LanguageKey]))))
    ensures r.Some? ==> var needed := Get(a, VoiceKey, Text(NoVoiceOver));
      && (r.value.enabled <==> Has(needed, "Yes") == Some(true))
      && (needed.Text? ==>
        r.value == VoiceOver(needed.text, TextOr(a, GenderKey, "No preference"), TextOr(a, LanguageKey, "English"), TextOr(a, AgeKey, "Adult")))
      && (!needed.Text? ==> r.value == VoiceOverConfig(false, []))
      && ValidateVoiceOver(r.value)
  {
    var needed := Get(a, VoiceKey, Text(NoVoiceOver));
    match Has(needed, "Yes")
    case None => None
    case Some(yes) =>
      if !yes then Some(VoiceOverConfig(false, []))
      else if !needed.Text? then None
      else
        var single := Contains(Lower(needed.text), "single");
        if !TextAt(a, if single then [GenderKey, LanguageKey, AgeKey] else [LanguageKey]) then None
        else Some(VoiceOver(needed.text, TextOr(a, GenderKey, "No preference"), TextOr(a, LanguageKey, "English"), TextOr(a, AgeKey, "Adult")))
  }

  /**
   * `_generate_subtitle_config` on the answers: the subtitle answer is tested
   * with `in`; only when it mentions "Yes" are it and the style answer
   * lowercased.  Nothing where a string method meets an answer that is not a
   * string.
   */
  function SubtitlesOf(a: Answers): (r: Option<SubtitleConfig>)
    ensures var subs := Get(a, SubtitlesKey, Text(NoSubtitles));
      r.None? <==> (subs.Other? || (Has(subs, "Yes").value && (!subs.Text? || !TextAt(a, [StyleKey]))))
    ensures r.Some? ==> var subs := Get(a, SubtitlesKey, Text(NoSubtitles));
      && (r.value.enabled <==> Has(subs, "Yes") == Some(true))
      && (subs.Text? ==> r.value == Subtitles(subs.text, TextOr(a, StyleKey, "Professional")))
      && (!subs.Text? ==> r.value == SubtitleConfig(false, None, None))
      && ValidateSubtitles(r.value)
  {
    var subs := Get(a, SubtitlesKey, Text(NoSubtitles));
    match Has(subs, "Yes")
    case None => None
    case Some(yes) =>
      if !yes then Some(SubtitleConfig(false, None, None))
      else if !subs.Text? || !TextAt(a, [StyleKey]) then None
      else Some(Subtitles(subs.text, TextOr(a, StyleKey, "Professional")))
  }

  /**
   * The answers `generate_plan` reads with their source defaults, and the two
   * configurations.  The voice-over answer is read by the scenes with the
   * default "" and through `startswith`, so it is a string there; the ending
   * is kept as it is, because only a resolution scene lowercases it.
   */
  datatype PlanAnswers = PlanAnswers(
    platform: string, duration: Answer, rhythm: string, tone: string, color: string,
    voiceOver: VoiceOverConfig, subtitles: SubtitleConfig,
    voice: string, useSubtitles: bool, ending: Answer)

  /** The keys `generate_plan` always reads through a string method. */
  const StringKeys: seq<string> := [PlatformKey, RhythmKey, ToneKey, ColorKey, VoiceKey]

  /**
   * Reading the planner's answers: nothing when an answer always read as a
   * string is not one, when the duration or the subtitle answer cannot be
   * tested with `in`, or when a configuration fails.
   */
  function ReadPlanAnswers(a: Answers): (r: Option<PlanAnswers>)
    ensures r.Some? <==>
      TextAt(a, StringKeys) && !Get(a, DurationKey, Text("")).Other? && VoiceOverOf(a).Some? && SubtitlesOf(a).Some?
    ensures r.Some? ==>
      && TextAnswer(a, PlatformKey, "YouTube") == Some(r.value.platform)
      && TextAnswer(a, RhythmKey, "Medium") == Some(r.value.rhythm)
      && TextAnswer(a, ToneKey, "neutral") == Some(r.value.tone)
      && TextAnswer(a, ColorKey, "Natural") == Some(r.value.color)
      && TextAnswer(a, VoiceKey, "") == Some(r.value.voice)
      && r.value.duration == Get(a, DurationKey, Text("1-3 minutes")) && !r.value.duration.Other?
      && r.value.voiceOver == VoiceOverOf(a).value && r.value.subtitles == SubtitlesOf(a).value
      && r.value.useSubtitles == Has(Get(a, SubtitlesKey, Text("")), "Yes").value
      && r.value.ending == Get(a, EndingKey, Text("Closed ending"))
  {
    var duration := Get(a, DurationKey, Text("1-3 minutes"));
    if TextAt(a, StringKeys) && !duration.Other? && VoiceOverOf(a).Some? && SubtitlesOf(a).Some? then
      assert StringKeys[0] == PlatformKey && StringKeys[1] == RhythmKey && StringKeys[2] == ToneKey;
      assert StringKeys[3] == ColorKey && StringKeys[4] == VoiceKey;
      Some(PlanAnswers(
        TextOr(a, PlatformKey, "YouTube"), duration, TextOr(a, RhythmKey, "Medium"),
        TextOr(a, ToneKey, "neutral"), TextOr(a, ColorKey, "Natural"), VoiceOverOf(a).value, SubtitlesOf(a).value,
        TextOr(a, VoiceKey, ""), Has(Get(a, SubtitlesKey, Text("")), "Yes").value, Get(a, EndingKey, Text("Closed ending"))))
    else None
  }

  /**
   * A list for the voice gender is not read when voice-over is not asked for:
   * answers holding only `{"voice_gender": ["Male"]}` are readable.
   */
  lemma {:induction false} UnreadVoiceGender()
    ensures ReadPlanAnswers(map[GenderKey := Choices(["Male"])]).Some?
  {
    var a := map[GenderKey := Choices(["Male"])];
    NoVoiceOverMentionsVoice();
    MissingCharNotContained(NoSubtitles, "Yes", 0);
    assert forall k :: k in StringKeys ==> k !in a;
  }

  /** The scene inputs of a plan; an ending that is not a string stands as "" and no scene reads it. */
  function PlanInputs(pa: PlanAnswers, hasTranscription: bool, progression: seq<Narrative.Beat>): SceneInputs
  {
    SceneInputs(Lower(pa.rhythm), Lower(pa.tone), if pa.ending.Text? then Lower(pa.ending.text) else "",
      pa.voice, pa.useSubtitles, hasTranscription, progression, Texts)
  }

  /** The number of scenes of a plan over readable answers with a non-blank rhythm. */
  function PlanSceneCount(pa: PlanAnswers): (n: nat)
    requires !pa.duration.Other? && PlanCuts(pa.rhythm).Some?
    ensures 3 <= n <= 8
  {
    NumScenes(ParseDuration(pa.duration), PlanCuts(pa.rhythm).value)
  }

  /**
   * Where `generate_plan` raises: the answers are unreadable, the rhythm is
   * blank (it has no first word), or a resolution scene, present from five
   * scenes on, lowercases an ending that is not a string.
   */
  predicate PlanFails(a: Answers)
  {
    var read := ReadPlanAnswers(a);
    read.None? || PlanCuts(read.value.rhythm).None? || (PlanSceneCount(read.value) >= 5 && !read.value.ending.Text?)
  }

  /**
   * The timeline of a plan: the scene count from the total and the cuts per
   * minute, the lengths, and the scenes over them.  Three to eight scenes with
   * ids 1..N, valid timestamps, contiguous from "00:00" to the total.
   */
  method PlanTimeline(inp: SceneInputs, rhythm: string, total: nat, cpm: nat) returns (scenes: seq<Scene>)
    ensures scenes == Scenes(inp, Durations(total, NumScenes(total, cpm), rhythm))
    ensures 3 <= |scenes| <= 8 && |scenes| == NumScenes(total, cpm)
    ensures ValidateScenes(scenes)
    ensures forall k :: 0 <= k < |scenes| ==> ValidateTimestamp(scenes[k].start) && ValidateTimestamp(scenes[k].end)
    ensures scenes[0].start == Timestamp(0) && scenes[|scenes| - 1].end == Timestamp(total)
    ensures forall k :: 0 < k < |scenes| ==> scenes[k].start == scenes[k - 1].end
  {
    var n := NumScenes(total, cpm);
    var durations := CalculateSceneDurations(total, n, rhythm);
    forall k | 0 <= k <= n
      ensures Sum(durations[..k]) >= 0
    {
      DurationsPrefixSums(total, n, rhythm, k);
    }
    scenes := GenerateScenes(inp, durations);
    ScenesContiguous(inp, durations);
    var starts := Starts(durations);
    forall k | 0 <= k < n
      ensures ValidateTimestamp(scenes[k].start) && ValidateTimestamp(scenes[k].end)
    {
      SceneTimes(inp, n, Clock(starts), k);
      ClockAt(starts, k);
      ClockAt(starts, k + 1);
      TimestampShape(starts[k]);
      TimestampShape(starts[k + 1]);
    }
  }

  /**
   * `generate_plan` for a request, the narrative's archetype and progression,
   * and whether a transcription is present: the plan of title, theme, style,
   * format, the two configurations and the scenes over the lengths, or an
   * error exactly where the source raises.
   */
  method GeneratePlan(request: string, arc: string, progression: seq<Narrative.Beat>, hasTranscription: bool,
    answers: Answers) returns (r: Result<ScenePlan, string>)
    ensures r.Err? <==> PlanFails(answers)
    ensures r.Ok? ==> ValidPlan(r.value) && 3 <= |r.value.scenes| <= 8
    ensures r.Ok? ==> var pa := ReadPlanAnswers(answers).value; var total := ParseDuration(pa.duration);
      && r.value == ScenePlan(Title(request, pa.tone), Theme(arc), Style(pa.rhythm, pa.tone, pa.color),
        DetermineFormat(pa.platform), pa.voiceOver, pa.subtitles,
        Scenes(PlanInputs(pa, hasTranscription, progression), Durations(total, PlanSceneCount(pa), pa.rhythm)))
      && r.value.scenes[0].start == Timestamp(0)
      && r.value.scenes[|r.value.scenes| - 1].end == Timestamp(total)
  {
    var read := ReadPlanAnswers(answers);
    if read.None? {
      return Err("TypeError");
    }
    var pa := read.value;
    var total := ParseDuration(pa.duration);
    var format := DetermineFormat(pa.platform);
    var title := Title(request, pa.tone);
    var theme := Theme(arc);
    var style := Style(pa.rhythm, pa.tone, pa.color);
    var cpm := PlanCuts(pa.rhythm);
    if cpm.None? {
      return Err("IndexError");
    }
    if NumScenes(total, cpm.value) >= 5 && !pa.ending.Text? {
      return Err("AttributeError");
    }
    var scenes := PlanTimeline(PlanInputs(pa, hasTranscription, progression), pa.rhythm, total, cpm.value);
    r := Ok(ScenePlan(title, theme, style, format, pa.voiceOver, pa.subtitles, scenes));
  }
}
