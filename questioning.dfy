/**
 * Phase 2, intelligent questioning: find the topics neither the prompt nor the
 * answers cover, turn them into questions from a fixed template table, sort
 * the questions required-first, decide whether enough has been answered, and
 * tidy the answers the client sends.
 */
module Questioning {
  import opened Wrappers
  import opened Strings
  import opened Seqs
  import opened Answers
  import opened Schemas

  // ---------------------------------------------------------------- topic names and answer keys

  const FormatTopic: string := "format"
  const PlatformTopic: string := "platform"
  const DurationTopic: string := "duration"
  const RhythmTopic: string := "rhythm"
  const ToneTopic: string := "tone"
  const MusicTopic: string := "music"
  const VoiceTopic: string := "voice_over"
  const SubtitlesTopic: string := "subtitles"
  const EndingTopic: string := "ending"
  const SourceTopic: string := "source_material"

  const FormatKey: string := "video_format"
  const PlatformKey: string := "target_platform"
  const DurationKey: string := "target_duration"
  const RhythmKey: string := "editing_rhythm"
  const ToneKey: string := "emotional_tone"
  const MusicKey: string := "music_style"
  const VoiceKey: string := "voice_over_needed"
  const SubtitlesKey: string := "subtitles_enabled"
  const EndingKey: string := "ending_style"
  const SourceKey: string := "source_material"

  // ---------------------------------------------------------------- templates

  /** A `"key:value"` condition: ask only when `value` occurs in the answer under `key`. */
  datatype Condition = Condition(key: string, value: string)

  datatype Template = Template(
    id: string,
    category: string,
    text: string,
    kind: string,
    options: seq<string>,
    required: bool,
    help: string,
    condition: Option<Condition>)

  const FormatTemplate := Template(FormatKey, "format", "What video format do you need?", "single_choice",
    ["16:9 (Landscape - YouTube, Film, TV)", "9:16 (Portrait - TikTok, Instagram Reels, Stories)",
     "1:1 (Square - Instagram Feed, Facebook)"],
    true, "This determines the aspect ratio and framing of your video", None)
  const PlatformTemplate := Template(PlatformKey, "platform", "Which platform is this video for?", "single_choice",
    ["YouTube (long-form, 16:9)", "TikTok (short-form, 9:16, fast-paced)", "Instagram Reels (9:16, trendy)",
     "Instagram Feed (1:1 or 4:5)", "Facebook (various)", "Cinema/Film (16:9, high quality)",
     "TV Broadcast (16:9, standard)", "Internal/Private (flexible)"],
    true, "Platform affects pacing, style, and technical requirements", None)
  const DurationTemplate := Template(DurationKey, "duration", "What is your target duration?", "single_choice",
    ["15-30 seconds (Short social media)", "30-60 seconds (Standard social)", "1-3 minutes (YouTube short/Medium)",
     "3-10 minutes (Long YouTube)", "10-30 minutes (Extended content)", "Feature length (30+ minutes)"],
    true, "Duration affects pacing and how much content we can include", None)
  const RhythmTemplate := Template(RhythmKey, "rhythm", "What editing rhythm do you prefer?", "single_choice",
    ["Slow (contemplative, long takes, artistic)", "Medium (balanced, standard pacing)",
     "Fast (dynamic, quick cuts, energetic)", "Variable (mix of paces for emotional effect)"],
    true, "Rhythm sets the overall energy and feel of the edit", None)
  const ToneTemplate := Template(ToneKey, "tone", "What is the primary emotional tone?", "single_choice",
    ["Joyful / Uplifting", "Melancholic / Sad", "Suspenseful / Tense", "Romantic / Tender",
     "Inspirational / Motivational", "Nostalgic / Reflective", "Energetic / Exciting", "Calm / Peaceful",
     "Dramatic / Intense", "Humorous / Light"],
    true, "The emotional tone guides music selection, pacing, and color grading", None)
  const MusicTemplate := Template(MusicKey, "music", "What music style should accompany the video?", "single_choice",
    ["Cinematic orchestral", "Electronic / Synth", "Acoustic / Folk", "Jazz / Blues", "Rock / Alternative",
     "Hip-hop / Rap", "Classical", "Ambient / Atmospheric", "Pop / Modern", "No music (dialogue only)",
     "Custom (specify in notes)"],
    false, "Music significantly impacts the emotional impact", None)
  const VoiceOverTemplate := Template(VoiceKey, "voice_over", "Do you need voice-over narration?", "single_choice",
    ["Yes, single voice", "Yes, multiple voices", "No voice-over needed"],
    false, "Voice-over can guide the narrative and add professional polish", None)
  const VoiceLanguageTemplate := Template("voice_language", "voice_over", "What language for the voice-over?", "single_choice",
    ["English", "Spanish", "French", "German", "Italian", "Portuguese", "Chinese", "Japanese", "Other (specify)"],
    false, "Language affects voice talent selection", Some(Condition("voice_over_needed", "Yes")))
  const VoiceGenderTemplate := Template("voice_gender", "voice_over", "Preferred voice gender?", "single_choice",
    ["Male", "Female", "Non-binary / Androgynous", "No preference"],
    false, "Voice characteristics affect the feel of the narration", Some(Condition("voice_over_needed", "Yes")))
  const VoiceAgeTemplate := Template("voice_age", "voice_over", "Preferred voice age range?", "single_choice",
    ["Young (18-25)", "Adult (25-40)", "Middle-aged (40-55)", "Senior (55+)", "No preference"],
    false, "Age range affects voice casting", Some(Condition("voice_over_needed", "Yes")))
  const SubtitlesTemplate := Template(SubtitlesKey, "subtitles", "Do you need subtitles?", "single_choice",
    ["Yes, burned-in (permanent on video)", "Yes, SRT file (separate, optional)", "No subtitles needed"],
    false, "Subtitles improve accessibility and engagement", None)
  const SubtitleStyleTemplate := Template("subtitle_style", "subtitles", "What subtitle style?", "single_choice",
    ["Cinematic (elegant, minimal)", "Social Media (bold, colorful)", "Professional (clean, readable)",
     "Minimal (small, unobtrusive)", "Custom (specify)"],
    false, "Style should match your platform and tone", Some(Condition("subtitles_enabled", "Yes")))
  const EndingTemplate := Template(EndingKey, "ending", "How should the video end?", "single_choice",
    ["Closed ending (clear resolution)", "Open ending (thought-provoking)", "Call-to-action (subscribe, visit, etc.)",
     "Cliffhanger (continued in next video)", "Circular (returns to opening)", "Emotional peak (strong feeling)",
     "Informational summary"],
    false, "The ending shapes how viewers remember your video", None)
  const ColorGradeTemplate := Template("color_grade", "style", "Preferred color grading style?", "single_choice",
    ["Natural / Realistic", "Warm / Golden", "Cool / Blue tones", "High contrast / Dramatic", "Desaturated / Muted",
     "Vibrant / Saturated", "Black & White", "Vintage / Film look", "Teal & Orange (cinematic)", "Custom (specify)"],
    false, "Color grading sets the visual mood", None)
  const SourceMaterialTemplate := Template(SourceKey, "technical", "What is your source footage like?", "multiple_choice",
    ["Single continuous take", "Multiple camera angles", "Interview footage", "B-roll / supplementary footage",
     "Screen recordings", "Mobile phone footage", "Professional camera footage", "Mixed sources"],
    true, "Helps determine editing approach and technical requirements", None)

  /** A template table keyed by topic: the questioner's `question_templates`. */
  type Table = map<string, Template>

  /** The table the questioner is constructed with. */
  const Templates: Table := map[
    FormatTopic := FormatTemplate,
    PlatformTopic := PlatformTemplate,
    DurationTopic := DurationTemplate,
    RhythmTopic := RhythmTemplate,
    ToneTopic := ToneTemplate,
    MusicTopic := MusicTemplate,
    VoiceTopic := VoiceOverTemplate,
    "voice_language" := VoiceLanguageTemplate,
    "voice_gender" := VoiceGenderTemplate,
    "voice_age" := VoiceAgeTemplate,
    SubtitlesTopic := SubtitlesTemplate,
    "subtitle_style" := SubtitleStyleTemplate,
    EndingTopic := EndingTemplate,
    "color_grade" := ColorGradeTemplate,
    SourceTopic := SourceMaterialTemplate]

  /** The question a template turns into. */
  function TemplateQuestion(t: Template): (q: Question)
    ensures q.id == t.id && q.required == t.required && q.kind == t.kind
  {
    Question(t.id, t.category, t.text, t.kind, Some(t.options), t.required, Some(t.help))
  }

  // ---------------------------------------------------------------- missing topics

  /** The topics checked, in the order they are checked. */
  const Categories: seq<string> :=
    [FormatTopic, PlatformTopic, DurationTopic, RhythmTopic, ToneTopic, MusicTopic, VoiceTopic, SubtitlesTopic,
     EndingTopic, SourceTopic]

  /** The answer key that settles each topic. */
  const AnswerKeys: seq<string> :=
    [FormatKey, PlatformKey, DurationKey, RhythmKey, ToneKey, MusicKey, VoiceKey, SubtitlesKey, EndingKey, SourceKey]

  const FormatWords: seq<string> := ["16:9", "9:16", "1:1", "landscape", "portrait", "square"]
  const PlatformWords: seq<string> := ["youtube", "tiktok", "instagram", "facebook", "film", "cinema", "tv"]
  const DurationWords: seq<string> := ["minute", "second", "hour", "min", "sec", "long", "short"]
  const RhythmWords: seq<string> := ["slow", "fast", "quick", "paced", "rhythm", "dynamic", "calm"]
  const ToneWords: seq<string> := ["emotional", "happy", "sad", "exciting", "dramatic", "funny", "serious"]
  const MusicWords: seq<string> := ["music", "song", "soundtrack", "audio"]
  const VoiceWords: seq<string> := ["voice", "narration", "narrator", "speak", "tell"]
  const SubtitleWords: seq<string> := ["subtitle", "caption", "text on screen"]
  const EndingWords: seq<string> := ["end", "finish", "conclude", "close", "wrap up"]

  /** The prompt words that count as covering each topic; source material is asked whatever the prompt says. */
  const Keywords: seq<seq<string>> :=
    [FormatWords, PlatformWords, DurationWords, RhythmWords, ToneWords, MusicWords, VoiceWords, SubtitleWords,
     EndingWords, []]

  /** A topic is uncovered: none of its words in the lower-cased prompt and no answer under its key. */
  predicate Uncovered(lower: string, words: seq<string>, key: string, answers: Answers)
  {
    !ContainsAny(lower, words) && key !in answers
  }

  /** Topic `i` is missing: no keyword of it in the lower-cased prompt and no answer under its key. */
  function MissingFlags(prompt: string, answers: Answers): (f: seq<bool>)
    ensures |f| == |Categories|
  {
    var lower := Lower(prompt);
    [ Uncovered(lower, FormatWords, FormatKey, answers),
      Uncovered(lower, PlatformWords, PlatformKey, answers),
      Uncovered(lower, DurationWords, DurationKey, answers),
      Uncovered(lower, RhythmWords, RhythmKey, answers),
      Uncovered(lower, ToneWords, ToneKey, answers),
      Uncovered(lower, MusicWords, MusicKey, answers),
      Uncovered(lower, VoiceWords, VoiceKey, answers),
      Uncovered(lower, SubtitleWords, SubtitlesKey, answers),
      Uncovered(lower, EndingWords, EndingKey, answers),
      SourceKey !in answers ]
  }

  /** Each flag reads the topic's keyword list and answer key from the tables. */
  lemma {:induction false} MissingFlagsAt(prompt: string, answers: Answers, i: nat)
    requires i < |Categories|
    ensures MissingFlags(prompt, answers)[i] == Uncovered(Lower(prompt), Keywords[i], AnswerKeys[i], answers)
  {
    if i == 9 {
      assert Keywords[9] == [];
      assert !ContainsAny(Lower(prompt), []);
    }
  }

  /** The missing topics in table order. */
  function Missing(prompt: string, answers: Answers): seq<string>
  {
    Pick(MissingFlags(prompt, answers), Categories)
  }

  /**
   * `detect_missing_info`: ten checks in a row, each appending its topic.  The
   * nested `if`s of each check are one conjunction here.
   */
  method DetectMissingInfo(prompt: string, answers: Answers) returns (missing: seq<string>)
    ensures missing == Missing(prompt, answers)
  {
    var lower := Lower(prompt);
    missing := [];
    var format := Uncovered(lower, FormatWords, FormatKey, answers);
    missing := missing + (if format then [FormatTopic] else []);
    var platform := Uncovered(lower, PlatformWords, PlatformKey, answers);
    missing := missing + (if platform then [PlatformTopic] else []);
    var duration := Uncovered(lower, DurationWords, DurationKey, answers);
    missing := missing + (if duration then [DurationTopic] else []);
    var rhythm := Uncovered(lower, RhythmWords, RhythmKey, answers);
    missing := missing + (if rhythm then [RhythmTopic] else []);
    var tone := Uncovered(lower, ToneWords, ToneKey, answers);
    missing := missing + (if tone then [ToneTopic] else []);
    var music := Uncovered(lower, MusicWords, MusicKey, answers);
    missing := missing + (if music then [MusicTopic] else []);
    var voice := Uncovered(lower, VoiceWords, VoiceKey, answers);
    missing := missing + (if voice then [VoiceTopic] else []);
    var subtitles := Uncovered(lower, SubtitleWords, SubtitlesKey, answers);
    missing := missing + (if subtitles then [SubtitlesTopic] else []);
    var ending := Uncovered(lower, EndingWords, EndingKey, answers);
    missing := missing + (if ending then [EndingTopic] else []);
    var source := SourceKey !in answers;
    missing := missing + (if source then [SourceTopic] else []);
    MissingSpelledOut(prompt, answers);
  }

  /** The missing list as the ten appends produce it. */
  lemma {:induction false} MissingSpelledOut(prompt: string, answers: Answers)
    ensures var lower := Lower(prompt);
      Missing(prompt, answers) == []
      + (if Uncovered(lower, FormatWords, FormatKey, answers) then [FormatTopic] else [])
      + (if Uncovered(lower, PlatformWords, PlatformKey, answers) then [PlatformTopic] else [])
      + (if Uncovered(lower, DurationWords, DurationKey, answers) then [DurationTopic] else [])
      + (if Uncovered(lower, RhythmWords, RhythmKey, answers) then [RhythmTopic] else [])
      + (if Uncovered(lower, ToneWords, ToneKey, answers) then [ToneTopic] else [])
      + (if Uncovered(lower, MusicWords, MusicKey, answers) then [MusicTopic] else [])
      + (if Uncovered(lower, VoiceWords, VoiceKey, answers) then [VoiceTopic] else [])
      + (if Uncovered(lower, SubtitleWords, SubtitlesKey, answers) then [SubtitlesTopic] else [])
      + (if Uncovered(lower, EndingWords, EndingKey, answers) then [EndingTopic] else [])
      + (if SourceKey !in answers then [SourceTopic] else [])
  {
    PickTen(MissingFlags(prompt, answers), Categories);
  }

  lemma {:induction false} CategoriesDistinct()
    ensures Distinct(Categories)
  {
  }

  /**
   * A topic is listed exactly when none of its words is in the lower-cased prompt
   * and its answer key is absent; the list follows the table order without repeats.
   */
  lemma {:induction false} MissingMeaning(prompt: string, answers: Answers, i: nat)
    requires i < |Categories|
    ensures Categories[i] in Missing(prompt, answers) <==>
      !ContainsAny(Lower(prompt), Keywords[i]) && AnswerKeys[i] !in answers
    ensures Subsequence(Missing(prompt, answers), Categories) && Distinct(Missing(prompt, answers))
  {
    CategoriesDistinct();
    MissingFlagsAt(prompt, answers, i);
    PickMember(MissingFlags(prompt, answers), Categories, i);
    PickSubsequence(MissingFlags(prompt, answers), Categories);
    SubsequenceDistinct(Missing(prompt, answers), Categories);
  }

  /** Source material is listed exactly when its answer is absent, whatever the prompt says. */
  lemma {:induction false} SourceMaterialAlwaysAsked(prompt: string, answers: Answers)
    ensures "source_material" in Missing(prompt, answers) <==> SourceKey !in answers
  {
    MissingMeaning(prompt, answers, 9);
  }

  /** Answering more never brings a topic back: the longer answer set lists a sub-list. */
  lemma {:induction false} MoreAnswersFewerTopics(prompt: string, a: Answers, b: Answers)
    requires a.Keys <= b.Keys
    ensures Subsequence(Missing(prompt, b), Missing(prompt, a))
  {
    PickMonotone(MissingFlags(prompt, a), MissingFlags(prompt, b), Categories);
  }

  // ---------------------------------------------------------------- questions

  /**
   * `condition_value in answers.get(condition_key, '')`: substring test on a
   * string, membership on a list; `None` for any other value, where `in` raises.
   */
  function ConditionMet(answers: Answers, c: Condition): (r: Option<bool>)
    ensures r.None? <==> c.key in answers && answers[c.key].Other?
  {
    if c.key !in answers then Some(Contains("", c.value))
    else match answers[c.key]
      case Text(t) => Some(Contains(t, c.value))
      case Choices(items) => Some(c.value in items)
      case Other => None
  }

  /** The questions the loop of `generate_questions` has appended after the given topics. */
  function Instantiate(tbl: Table, categories: seq<string>, answers: Answers): (r: Result<seq<Question>, string>)
    ensures r.Ok? ==> |r.value| <= |categories|
  {
    if categories == [] then Ok([])
    else
      var prev := Instantiate(tbl, categories[..|categories| - 1], answers);
      var category := categories[|categories| - 1];
      if prev.Err? || category !in tbl then prev
      else
        var t := tbl[category];
        if t.condition.None? then Ok(prev.value + [TemplateQuestion(t)])
        else match ConditionMet(answers, t.condition.value)
          case None => Err("TypeError: argument of type is not iterable")
          case Some(met) => if met then Ok(prev.value + [TemplateQuestion(t)]) else prev
  }

  /** The questions one per topic, in topic order. */
  function QuestionsFor(tbl: Table, categories: seq<string>): seq<Question>
    requires forall c :: c in categories ==> c in tbl
  {
    seq(|categories|, i requires 0 <= i < |categories| => TemplateQuestion(tbl[categories[i]]))
  }

  /**
   * Every checked topic has a template, without a condition, asked under the
   * topic's own answer key.
   */
  predicate CheckedTable(tbl: Table)
  {
    forall i :: 0 <= i < |Categories| ==>
      Categories[i] in tbl && tbl[Categories[i]].condition.None? && tbl[Categories[i]].id == AnswerKeys[i]
  }

  /** The constructed table serves every checked topic unconditionally, under its answer key. */
  lemma {:induction false} TemplatesChecked()
    ensures CheckedTable(Templates)
  {
  }

  lemma {:induction false} CheckedTopicsUnconditioned(tbl: Table, c: string)
    requires CheckedTable(tbl) && c in Categories
    ensures c in tbl && tbl[c].condition.None?
  {
    var i :| 0 <= i < |Categories| && Categories[i] == c;
  }

  /** Topics that all have a template without a condition: the loop never skips and never fails. */
  lemma {:induction false} InstantiateChecked(tbl: Table, categories: seq<string>, answers: Answers)
    requires forall c :: c in categories ==> c in tbl && tbl[c].condition.None?
    ensures Instantiate(tbl, categories, answers) == Ok(QuestionsFor(tbl, categories))
    decreases |categories|
  {
    if categories != [] {
      var n := |categories| - 1;
      var init := categories[..n];
      assert forall c :: c in init ==> c in categories;
      InstantiateChecked(tbl, init, answers);
      assert categories[n] in categories;
      var t := tbl[categories[n]];
      assert Instantiate(tbl, categories, answers) == Ok(QuestionsFor(tbl, init) + [TemplateQuestion(t)]);
      assert QuestionsFor(tbl, categories) == QuestionsFor(tbl, init) + [TemplateQuestion(t)];
    } else {
      assert QuestionsFor(tbl, categories) == [];
    }
  }

  /** The questions for the missing topics, before sorting. */
  function Asked(tbl: Table, prompt: string, answers: Answers): seq<Question>
    requires forall c :: c in Missing(prompt, answers) ==> c in tbl
  {
    QuestionsFor(tbl, Missing(prompt, answers))
  }

  lemma {:induction false} MissingChecked(tbl: Table, prompt: string, answers: Answers)
    requires CheckedTable(tbl)
    ensures forall c :: c in Missing(prompt, answers) ==> c in Categories && c in tbl && tbl[c].condition.None?
  {
    PickSubsequence(MissingFlags(prompt, answers), Categories);
    SubsequenceMembers(Missing(prompt, answers), Categories);
    forall c | c in Missing(prompt, answers)
      ensures c in tbl && tbl[c].condition.None?
    {
      CheckedTopicsUnconditioned(tbl, c);
    }
  }

  /** The questions asked are exactly the missing topics' template questions. */
  lemma {:induction false} InstantiateMissing(tbl: Table, prompt: string, answers: Answers)
    requires CheckedTable(tbl)
    ensures forall c :: c in Missing(prompt, answers) ==> c in tbl
    ensures Instantiate(tbl, Missing(prompt, answers), answers) == Ok(Asked(tbl, prompt, answers))
  {
    MissingChecked(tbl, prompt, answers);
    InstantiateChecked(tbl, Missing(prompt, answers), answers);
  }

  /** Python's sort key `(not q.required, q.id)` compared with `<=`. */
  predicate KeyLe(p: Question, q: Question)
  {
    (p.required && !q.required) || (p.required == q.required && LexLe(p.id, q.id))
  }

  predicate SortedByKey(qs: seq<Question>)
  {
    forall i, j :: 0 <= i < j < |qs| ==> KeyLe(qs[i], qs[j])
  }

  function Ids(qs: seq<Question>): (ids: seq<string>)
    ensures |ids| == |qs|
    ensures forall i :: 0 <= i < |qs| ==> ids[i] == qs[i].id
  {
    seq(|qs|, i requires 0 <= i < |qs| => qs[i].id)
  }

  lemma {:induction false} KeyLeTotal(p: Question, q: Question)
    ensures KeyLe(p, q) || KeyLe(q, p)
  {
    LexLeTotal(p.id, q.id);
  }

  lemma {:induction false} KeyLeTrans(p: Question, q: Question, r: Question)
    requires KeyLe(p, q) && KeyLe(q, r)
    ensures KeyLe(p, r)
  {
    if p.required == q.required && q.required == r.required {
      LexLeTrans(p.id, q.id, r.id);
    }
  }

  /** Insert `q` after every question whose key is not above it, as a stable sort places it. */
  method InsertByKey(sorted: seq<Question>, q: Question) returns (r: seq<Question>)
    requires SortedByKey(sorted)
    ensures SortedByKey(r)
    ensures multiset(r) == multiset(sorted) + multiset{q}
  {
    var j := 0;
    while j < |sorted| && KeyLe(sorted[j], q)
      invariant 0 <= j <= |sorted|
      invariant forall k :: 0 <= k < j ==> KeyLe(sorted[k], q)
    {
      j := j + 1;
    }
    if j < |sorted| {
      KeyLeTotal(sorted[j], q);
      forall k | j <= k < |sorted|
        ensures KeyLe(q, sorted[k])
      {
        if k > j {
          KeyLeTrans(q, sorted[j], sorted[k]);
        }
      }
    }
    r := sorted[..j] + [q] + sorted[j..];
    assert sorted == sorted[..j] + sorted[j..];
    InsertedSorted(sorted, j, q);
  }

  lemma {:induction false} InsertedSorted(sorted: seq<Question>, j: nat, q: Question)
    requires SortedByKey(sorted) && j <= |sorted|
    requires forall k :: 0 <= k < j ==> KeyLe(sorted[k], q)
    requires forall k :: j <= k < |sorted| ==> KeyLe(q, sorted[k])
    ensures SortedByKey(sorted[..j] + [q] + sorted[j..])
  {
    var r := sorted[..j] + [q] + sorted[j..];
    forall a, b | 0 <= a < b < |r|
      ensures KeyLe(r[a], r[b])
    {
      if b < j {
        assert r[a] == sorted[a] && r[b] == sorted[b];
      } else if b == j {
        assert r[a] == sorted[a] && r[b] == q;
      } else if a == j {
        assert r[b] == sorted[b - 1];
      } else if a > j {
        assert r[a] == sorted[a - 1] && r[b] == sorted[b - 1];
      } else {
        assert r[a] == sorted[a] && r[b] == sorted[b - 1];
      }
    }
  }

  /** `questions.sort(key=lambda q: (not q.required, q.id))` */
  method SortQuestions(qs: seq<Question>) returns (r: seq<Question>)
    ensures SortedByKey(r)
    ensures multiset(r) == multiset(qs)
  {
    r := [];
    var i := 0;
    while i < |qs|
      invariant 0 <= i <= |qs|
      invariant SortedByKey(r)
      invariant multiset(r) == multiset(qs[..i])
    {
      r := InsertByKey(r, qs[i]);
      assert qs[..i + 1] == qs[..i] + [qs[i]];
      i := i + 1;
    }
    assert qs[..|qs|] == qs;
  }

  /**
   * `generate_questions`: one question per missing topic that has a template
   * whose condition holds, then sorted required-first and by id.
   */
  method GenerateQuestions(tbl: Table, prompt: string, answers: Answers) returns (r: Result<seq<Question>, string>)
    ensures r.Err? <==> Instantiate(tbl, Missing(prompt, answers), answers).Err?
    ensures r.Ok? ==> SortedByKey(r.value)
    ensures r.Ok? ==> multiset(r.value) == multiset(Instantiate(tbl, Missing(prompt, answers), answers).value)
  {
    var missing := DetectMissingInfo(prompt, answers);
    var questions: seq<Question> := [];
    var i := 0;
    while i < |missing|
      invariant 0 <= i <= |missing|
      invariant Instantiate(tbl, missing[..i], answers) == Ok(questions)
    {
      var category := missing[i];
      assert missing[..i + 1][..i] == missing[..i];
      if category in tbl {
        var template := tbl[category];
        if template.condition.Some? {
          var met := ConditionMet(answers, template.condition.value);
          if met.None? {
            InstantiateStaysErr(tbl, missing, i + 1, answers);
            return Err("TypeError: argument of type is not iterable");
          }
          if !met.value {
            i := i + 1;
            continue;
          }
        }
        questions := questions + [TemplateQuestion(template)];
      }
      i := i + 1;
    }
    assert missing[..|missing|] == missing;
    var sorted := SortQuestions(questions);
    return Ok(sorted);
  }

  /** Once the loop has failed it stays failed. */
  lemma {:induction false} InstantiateStaysErr(tbl: Table, categories: seq<string>, k: nat, answers: Answers)
    requires k <= |categories| && Instantiate(tbl, categories[..k], answers).Err?
    ensures Instantiate(tbl, categories, answers).Err?
    decreases |categories| - k
  {
    if k < |categories| {
      assert categories[..k + 1][..k] == categories[..k];
      InstantiateStaysErr(tbl, categories, k + 1, answers);
    } else {
      assert categories[..k] == categories;
    }
  }

  lemma {:induction false} AnswerKeysDistinct()
    ensures Distinct(AnswerKeys)
  {
  }

  /** Two checked topics with the same question id are the same topic. */
  lemma {:induction false} TemplateIdsInjective(tbl: Table, c: string, d: string)
    requires CheckedTable(tbl) && c in Categories && d in Categories
    ensures c in tbl && d in tbl
    ensures tbl[c].id == tbl[d].id ==> c == d
  {
    var i :| 0 <= i < |Categories| && Categories[i] == c;
    var j :| 0 <= j < |Categories| && Categories[j] == d;
    AnswerKeysDistinct();
  }

  /** Questions for distinct checked topics have distinct ids, each a checked topic's answer key. */
  lemma {:induction false} QuestionsForFacts(tbl: Table, m: seq<string>)
    requires CheckedTable(tbl) && Distinct(m) && forall c :: c in m ==> c in Categories && c in tbl
    ensures Distinct(Ids(QuestionsFor(tbl, m)))
    ensures forall q :: q in QuestionsFor(tbl, m) ==> q.id in AnswerKeys
  {
    var qs := QuestionsFor(tbl, m);
    forall i, j | 0 <= i < j < |qs|
      ensures qs[i].id != qs[j].id
    {
      assert m[i] in m && m[j] in m;
      TemplateIdsInjective(tbl, m[i], m[j]);
    }
    forall q | q in qs
      ensures q.id in AnswerKeys
    {
      var i :| 0 <= i < |qs| && qs[i] == q;
      assert m[i] in m;
      var k :| 0 <= k < |Categories| && Categories[k] == m[i];
    }
  }

  /** One question per missing topic, no two with the same id, each asked under a checked topic's answer key. */
  lemma {:induction false} AskedFacts(tbl: Table, prompt: string, answers: Answers)
    requires CheckedTable(tbl)
    ensures forall c :: c in Missing(prompt, answers) ==> c in tbl
    ensures |Asked(tbl, prompt, answers)| == |Missing(prompt, answers)|
    ensures Distinct(Ids(Asked(tbl, prompt, answers)))
    ensures forall q :: q in Asked(tbl, prompt, answers) ==> q.id in AnswerKeys
  {
    MissingChecked(tbl, prompt, answers);
    MissingMeaning(prompt, answers, 0);
    QuestionsForFacts(tbl, Missing(prompt, answers));
  }

  /**
   * The five templates outside the ten checked topics are never asked: the three
   * voice-over follow-ups (language, gender, age), the subtitle style, which is
   * conditional on subtitles, and the unconditional color grade. Their ids are
   * not answer keys of checked topics.
   */
  lemma {:induction false} FollowUpsNeverAsked(tbl: Table, prompt: string, answers: Answers, q: Question)
    requires CheckedTable(tbl)
    requires forall c :: c in Missing(prompt, answers) ==> c in tbl
    requires q in Asked(tbl, prompt, answers)
    ensures q.id !in ["voice_language", "voice_gender", "voice_age", "subtitle_style", "color_grade"]
  {
    AskedFacts(tbl, prompt, answers);
  }

  /** Sorting questions with distinct ids has one outcome: the order does not depend on the input order. */
  lemma {:induction false} SortedUnique(a: seq<Question>, b: seq<Question>)
    requires SortedByKey(a) && SortedByKey(b) && multiset(a) == multiset(b)
    requires Distinct(Ids(a))
    ensures a == b
    decreases |a|
  {
    if a != [] {
      SortedHeads(a, b);
      TailMultiset(a, b);
      TailIdsDistinct(a);
      SortedUnique(a[1..], b[1..]);
      assert a == [a[0]] + a[1..] && b == [b[0]] + b[1..];
    }
  }

  /** Two sorted arrangements of the same questions with distinct ids start alike. */
  lemma {:induction false} SortedHeads(a: seq<Question>, b: seq<Question>)
    requires SortedByKey(a) && SortedByKey(b) && multiset(a) == multiset(b)
    requires Distinct(Ids(a)) && a != []
    ensures b != [] && a[0] == b[0]
  {
    assert a[0] in multiset(a);
    assert b[0] in multiset(b) by { assert |b| == |multiset(b)|; }
    var i :| 0 <= i < |b| && b[i] == a[0];
    var j :| 0 <= j < |a| && a[j] == b[0];
    assert KeyLe(a[0], a[j]) by { if j == 0 { KeyLeTotal(a[0], a[0]); } }
    assert KeyLe(b[0], b[i]) by { if i == 0 { KeyLeTotal(b[0], b[0]); } }
    LexLeAntisymKey(a[0], b[0]);
    assert Ids(a)[0] == a[0].id && Ids(a)[j] == a[j].id;
  }

  lemma {:induction false} TailMultiset<T>(a: seq<T>, b: seq<T>)
    requires a != [] && b != [] && a[0] == b[0] && multiset(a) == multiset(b)
    ensures multiset(a[1..]) == multiset(b[1..])
  {
    assert a == [a[0]] + a[1..] && b == [b[0]] + b[1..];
    assert multiset(a) == multiset{a[0]} + multiset(a[1..]);
    assert multiset(b) == multiset{b[0]} + multiset(b[1..]);
    forall x
      ensures multiset(a[1..])[x] == multiset(b[1..])[x]
    {
      assert multiset(a)[x] == multiset{a[0]}[x] + multiset(a[1..])[x];
      assert multiset(b)[x] == multiset{b[0]}[x] + multiset(b[1..])[x];
    }
  }

  lemma {:induction false} TailIdsDistinct(a: seq<Question>)
    requires a != [] && Distinct(Ids(a))
    ensures Distinct(Ids(a[1..]))
  {
    forall p, q | 0 <= p < q < |a| - 1
      ensures Ids(a[1..])[p] != Ids(a[1..])[q]
    {
      assert Ids(a)[p + 1] != Ids(a)[q + 1];
    }
  }

  lemma {:induction false} LexLeAntisymKey(p: Question, q: Question)
    requires KeyLe(p, q) && KeyLe(q, p)
    ensures p.required == q.required && p.id == q.id
  {
    LexLeAntisym(p.id, q.id);
  }

  // ---------------------------------------------------------------- completeness

  /** A question as the completeness check receives it: a `Question`, or a plain dict whose keys may be absent. */
  datatype QuestionEntry = Typed(q: Question) | Untyped(required: Option<bool>, id: Option<string>)

  /** `q.get('required', True)` for a dict, `q.required` for a question. */
  predicate IsRequired(e: QuestionEntry)
  {
    match e
    case Typed(q) => q.required
    case Untyped(r, _) => r.None? || r.value
  }

  /** `q.get('id', '')` for a dict, `q.id` for a question. */
  function EntryId(e: QuestionEntry): string
  {
    match e
    case Typed(q) => q.id
    case Untyped(_, id) => if id.Some? then id.value else ""
  }

  /** The required entries, every one of them, in their order. */
  function RequiredEntries(qs: seq<QuestionEntry>): (r: seq<QuestionEntry>)
    ensures |r| <= |qs|
    ensures Subsequence(r, qs)
    ensures forall e :: e in r <==> e in qs && IsRequired(e)
    ensures forall e :: multiset(r)[e] == if IsRequired(e) then multiset(qs)[e] else 0
  {
    if qs == [] then []
    else
      var rest := RequiredEntries(qs[1..]);
      assert qs == [qs[0]] + qs[1..];
      if IsRequired(qs[0]) then
        assert ([qs[0]] + rest)[1..] == rest;
        [qs[0]] + rest
      else rest
  }

  /** The number of entries whose id is answered: all of them, none of them, or between. */
  function AnsweredCount(qs: seq<QuestionEntry>, answers: Answers): (n: nat)
    ensures n <= |qs|
    ensures n == |qs| <==> forall i :: 0 <= i < |qs| ==> EntryId(qs[i]) in answers
    ensures n == 0 <==> forall i :: 0 <= i < |qs| ==> EntryId(qs[i]) !in answers
  {
    if qs == [] then 0
    else
      var rest := AnsweredCount(qs[1..], answers);
      assert forall i :: 1 <= i < |qs| ==> qs[i] == qs[1..][i - 1];
      (if EntryId(qs[0]) in answers then 1 else 0) + rest
  }

  /** The answered count of two lists of entries adds up. */
  lemma {:induction false} AnsweredCountAppend(a: seq<QuestionEntry>, b: seq<QuestionEntry>, answers: Answers)
    ensures AnsweredCount(a + b, answers) == AnsweredCount(a, answers) + AnsweredCount(b, answers)
    decreases |a|
  {
    if a == [] {
      assert a + b == b;
    } else {
      assert (a + b)[0] == a[0] && (a + b)[1..] == a[1..] + b;
      AnsweredCountAppend(a[1..], b, answers);
    }
  }

  /**
   * `check_completeness`: true without required questions, otherwise when at
   * least 80% of them are answered (`answered >= 0.8 * required`, which over
   * the integers is `5 * answered >= 4 * required`).
   */
  function CheckCompleteness(qs: seq<QuestionEntry>, answers: Answers): (complete: bool)
    ensures complete <==> 5 * AnsweredCount(RequiredEntries(qs), answers) >= 4 * |RequiredEntries(qs)|
    ensures (forall e :: e in qs && IsRequired(e) ==> EntryId(e) in answers) ==> complete
    ensures complete && (exists e :: e in qs && IsRequired(e)) ==> exists e :: e in qs && IsRequired(e) && EntryId(e) in answers
  {
    var required := RequiredEntries(qs);
    assert forall i :: 0 <= i < |required| ==> required[i] in required;
    required == [] || 5 * AnsweredCount(required, answers) >= 4 * |required|
  }

  lemma {:induction false} AnsweredCountGrows(qs: seq<QuestionEntry>, a: Answers, b: Answers)
    requires a.Keys <= b.Keys
    ensures AnsweredCount(qs, a) <= AnsweredCount(qs, b)
  {
    if qs != [] {
      AnsweredCountGrows(qs[1..], a, b);
    }
  }

  /** More answers never make a complete set incomplete. */
  lemma {:induction false} CompletenessMonotone(qs: seq<QuestionEntry>, a: Answers, b: Answers)
    requires a.Keys <= b.Keys && CheckCompleteness(qs, a)
    ensures CheckCompleteness(qs, b)
  {
    AnsweredCountGrows(RequiredEntries(qs), a, b);
  }

  // ---------------------------------------------------------------- answer processing

  /** One value of `process_answers`: strings stripped, list elements stripped, anything else kept. */
  function CleanAnswer(v: Answer): (r: Answer)
    ensures v.Text? ==> r == Text(Strip(v.text))
    ensures v.Choices? ==> r.Choices? && |r.items| == |v.items| && forall i :: 0 <= i < |v.items| ==> r.items[i] == Strip(v.items[i])
    ensures v.Other? ==> r == v
  {
    match v
    case Text(t) => Text(Strip(t))
    case Choices(items) => Choices(seq(|items|, i requires 0 <= i < |items| => Strip(items[i])))
    case Other => Other
  }

  /** The processed answers: the same keys, each value cleaned. */
  function Processed(answers: Answers): (r: Answers)
    ensures r.Keys == answers.Keys
    ensures forall k :: k in answers ==> r[k] == CleanAnswer(answers[k])
  {
    map k | k in answers :: CleanAnswer(answers[k])
  }

  /** `process_answers`: a fresh dict filled key by key. */
  method ProcessAnswers(answers: Answers) returns (processed: Answers)
    ensures processed == Processed(answers)
  {
    processed := map[];
    var todo := answers.Keys;
    while todo != {}
      invariant todo <= answers.Keys
      invariant processed.Keys == answers.Keys - todo
      invariant forall k :: k in processed ==> processed[k] == CleanAnswer(answers[k])
      decreases |todo|
    {
      var key :| key in todo;
      processed := processed[key := CleanAnswer(answers[key])];
      todo := todo - {key};
    }
  }

  /** Cleaning an answer twice is cleaning it once. */
  lemma {:induction false} CleanAnswerIdempotent(v: Answer)
    ensures CleanAnswer(CleanAnswer(v)) == CleanAnswer(v)
  {
    match v
    case Text(t) =>
      StripIdempotent(t);
    case Choices(items) =>
      var once := CleanAnswer(v).items;
      forall i | 0 <= i < |items|
        ensures Strip(once[i]) == once[i]
      {
        StripIdempotent(items[i]);
      }
    case Other =>
  }

  /** Processing the processed answers changes nothing. */
  lemma {:induction false} ProcessedIdempotent(answers: Answers)
    ensures Processed(Processed(answers)) == Processed(answers)
  {
    forall k | k in answers
      ensures Processed(Processed(answers))[k] == Processed(answers)[k]
    {
      CleanAnswerIdempotent(answers[k]);
    }
  }

  /** A processed text answer has no surrounding blanks. */
  lemma {:induction false} ProcessedTextTrimmed(answers: Answers, k: string)
    requires k in answers && answers[k].Text?
    ensures var t := Processed(answers)[k].text;
      t == [] || (!IsSpace(t[0]) && !IsSpace(t[|t| - 1]))
  {
    var t := Processed(answers)[k].text;
    if t != [] {
      StripStartsSolid(answers[k].text);
    }
  }
}
