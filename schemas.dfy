/**
 * The output records of the four phases, their constant enumerations and the
 * field validators that accept or reject them.
 */
module Schemas {
  import opened Wrappers
  import opened Strings

  // ---------------------------------------------------------------- enumerations

  datatype VideoFormat = Landscape | Portrait | Square

  function FormatValue(f: VideoFormat): string
  {
    match f
    case Landscape => "16:9"
    case Portrait => "9:16"
    case Square => "1:1"
  }

  const FormatValues: seq<string> := ["16:9", "9:16", "1:1"]

  /** Reading the `format` field: only the three aspect ratios are accepted. */
  function ParseFormat(s: string): (r: Option<VideoFormat>)
    ensures r.Some? <==> s in FormatValues
    ensures r.Some? ==> FormatValue(r.value) == s
  {
    if s == "16:9" then Some(Landscape)
    else if s == "9:16" then Some(Portrait)
    else if s == "1:1" then Some(Square)
    else None
  }

  lemma {:induction false} FormatRoundTrip(f: VideoFormat)
    ensures ParseFormat(FormatValue(f)) == Some(f)
  {
  }

  datatype SubtitleType = Burned | Srt

  function SubtitleTypeValue(t: SubtitleType): string
  {
    match t
    case Burned => "burned"
    case Srt => "srt"
  }

  function ParseSubtitleType(s: string): (r: Option<SubtitleType>)
    ensures r.Some? <==> s in ["burned", "srt"]
    ensures r.Some? ==> SubtitleTypeValue(r.value) == s
  {
    if s == "burned" then Some(Burned) else if s == "srt" then Some(Srt) else None
  }

  datatype Transition = Cut | Fade | Dissolve | Wipe | MatchCut

  function TransitionValue(t: Transition): string
  {
    match t
    case Cut => "cut"
    case Fade => "fade"
    case Dissolve => "dissolve"
    case Wipe => "wipe"
    case MatchCut => "match_cut"
  }

  function ParseTransition(s: string): (r: Option<Transition>)
    ensures r.Some? <==> s in ["cut", "fade", "dissolve", "wipe", "match_cut"]
    ensures r.Some? ==> TransitionValue(r.value) == s
  {
    if s == "cut" then Some(Cut)
    else if s == "fade" then Some(Fade)
    else if s == "dissolve" then Some(Dissolve)
    else if s == "wipe" then Some(Wipe)
    else if s == "match_cut" then Some(MatchCut)
    else None
  }

  datatype AudioType = Dialogue | Music | VoiceOverAudio | Ambient | Silence

  function AudioValue(a: AudioType): string
  {
    match a
    case Dialogue => "dialogue"
    case Music => "music"
    case VoiceOverAudio => "voice_over"
    case Ambient => "ambient"
    case Silence => "silence"
  }

  function ParseAudio(s: string): (r: Option<AudioType>)
    ensures r.Some? <==> s in ["dialogue", "music", "voice_over", "ambient", "silence"]
    ensures r.Some? ==> AudioValue(r.value) == s
  {
    if s == "dialogue" then Some(Dialogue)
    else if s == "music" then Some(Music)
    else if s == "voice_over" then Some(VoiceOverAudio)
    else if s == "ambient" then Some(Ambient)
    else if s == "silence" then Some(Silence)
    else None
  }

  /** The progress events a webhook can be told about. */
  datatype EventType =
    | VideoUploadStarted | VideoUploadCompleted
    | AudioTranscriptionStarted | AudioTranscriptionCompleted
    | VisualAnalysisStarted | VisualAnalysisCompleted
    | PromptRefinementStarted | PromptRefinementImproved
    | PromptRefinementApproved | PromptRefinementRevision
    | IntelligentQuestioningStarted | IntelligentQuestioningCompleted
    | NarrativeReasoningStarted | NarrativeReasoningCompleted
    | ScenePlanningStarted | ScenePlanningCompleted
    | VideoCutCreation | VoiceOverGeneration | SubtitleGeneration
    | FinalRenderStarted | FinalRenderCompleted
    | WebhookTest | Error | Warning

  function EventValue(e: EventType): string
  {
    match e
    case VideoUploadStarted => "VIDEO_UPLOAD_STARTED"
    case VideoUploadCompleted => "VIDEO_UPLOAD_COMPLETED"
    case AudioTranscriptionStarted => "AUDIO_TRANSCRIPTION_STARTED"
    case AudioTranscriptionCompleted => "AUDIO_TRANSCRIPTION_COMPLETED"
    case VisualAnalysisStarted => "VISUAL_ANALYSIS_STARTED"
    case VisualAnalysisCompleted => "VISUAL_ANALYSIS_COMPLETED"
    case PromptRefinementStarted => "PROMPT_REFINEMENT_STARTED"
    case PromptRefinementImproved => "PROMPT_REFINEMENT_IMPROVED"
    case PromptRefinementApproved => "PROMPT_REFINEMENT_APPROVED"
    case PromptRefinementRevision => "PROMPT_REFINEMENT_REVISION"
    case IntelligentQuestioningStarted => "INTELLIGENT_QUESTIONING_STARTED"
    case IntelligentQuestioningCompleted => "INTELLIGENT_QUESTIONING_COMPLETED"
    case NarrativeReasoningStarted => "NARRATIVE_REASONING_STARTED"
    case NarrativeReasoningCompleted => "NARRATIVE_REASONING_COMPLETED"
    case ScenePlanningStarted => "SCENE_PLANNING_STARTED"
    case ScenePlanningCompleted => "SCENE_PLANNING_COMPLETED"
    case VideoCutCreation => "VIDEO_CUT_CREATION"
    case VoiceOverGeneration => "VOICE_OVER_GENERATION"
    case SubtitleGeneration => "SUBTITLE_GENERATION"
    case FinalRenderStarted => "FINAL_RENDER_STARTED"
    case FinalRenderCompleted => "FINAL_RENDER_COMPLETED"
    case WebhookTest => "WEBHOOK_TEST"
    case Error => "ERROR"
    case Warning => "WARNING"
  }

  const AllEvents: seq<EventType> := [
    VideoUploadStarted, VideoUploadCompleted,
    AudioTranscriptionStarted, AudioTranscriptionCompleted,
    VisualAnalysisStarted, VisualAnalysisCompleted,
    PromptRefinementStarted, PromptRefinementImproved,
    PromptRefinementApproved, PromptRefinementRevision,
    IntelligentQuestioningStarted, IntelligentQuestioningCompleted,
    NarrativeReasoningStarted, NarrativeReasoningCompleted,
    ScenePlanningStarted, ScenePlanningCompleted,
    VideoCutCreation, VoiceOverGeneration, SubtitleGeneration,
    FinalRenderStarted, FinalRenderCompleted,
    WebhookTest, Error, Warning]

  lemma {:induction false} AllEventsListed(e: EventType)
    ensures e in AllEvents
  {
  }

  // ---------------------------------------------------------------- phase 1 output

  datatype Refinement = Refinement(
    original: string,
    improved: string,
    issues: seq<string>,
    improvements: seq<string>,
    action: string)

  /** The two validators of the phase 1 record together. */
  function ValidateRefinement(r: Refinement): (ok: bool)
    ensures ok <==> !IsBlank(r.improved) && (r.action == "accept" || r.action == "revise")
  {
    StripEmptyIffBlank(r.improved);
    !(r.improved == [] || Strip(r.improved) == []) && r.action in ["accept", "revise"]
  }

  // ---------------------------------------------------------------- phase 2 output

  datatype Question = Question(
    id: string,
    category: string,
    text: string,
    kind: string,
    options: Option<seq<string>>,
    required: bool,
    help: Option<string>)

  const QuestionKinds: seq<string> := ["single_choice", "multiple_choice", "text", "number"]

  predicate ValidQuestion(q: Question)
  {
    q.kind in QuestionKinds
  }

  // ---------------------------------------------------------------- phase 4 output

  datatype Voice = Voice(gender: string, language: string, age: string, text: string)

  datatype VoiceOverConfig = VoiceOverConfig(enabled: bool, voices: seq<Voice>)

  datatype SubtitleConfig = SubtitleConfig(enabled: bool, kind: Option<SubtitleType>, style: Option<string>)

  /** A scene's goal: its stage name, emotion and intensity in tenths, rendered as text by the source. */
  datatype Goal = Goal(stage: string, emotion: string, intensity: int)

  datatype Scene = Scene(
    id: int,
    goal: Goal,
    start: string,
    end: string,
    visual: string,
    audio: AudioType,
    voiceOverText: Option<string>,
    subtitles: bool,
    transition: Transition)

  datatype ScenePlan = ScenePlan(
    title: string,
    theme: string,
    style: string,
    format: VideoFormat,
    voiceOver: VoiceOverConfig,
    subtitles: SubtitleConfig,
    scenes: seq<Scene>)

  /** Enabled voice-over with an empty voice list is rejected. */
  function ValidateVoiceOver(v: VoiceOverConfig): (ok: bool)
    ensures !ok <==> v.enabled && |v.voices| == 0
  {
    !(v.enabled && v.voices == [])
  }

  /** Enabled subtitles without a type are rejected. */
  function ValidateSubtitles(s: SubtitleConfig): (ok: bool)
    ensures !ok <==> s.enabled && s.kind.None?
  {
    !(s.enabled && s.kind == None)
  }

  /** A timestamp field passes when it has one or two colons; the fields are not checked to be numeric. */
  function ValidateTimestamp(v: string): (ok: bool)
    ensures ok <==> CountChar(v, ':') == 1 || CountChar(v, ':') == 2
  {
    SplitCount(v, ':');
    |Split(v, ':')| in [2, 3]
  }

  function SceneIds(scenes: seq<Scene>): (ids: seq<int>)
    ensures |ids| == |scenes|
    ensures forall i :: 0 <= i < |scenes| ==> ids[i] == scenes[i].id
  {
    seq(|scenes|, i requires 0 <= i < |scenes| => scenes[i].id)
  }

  /** `list(range(a, b))` */
  function Range(a: int, b: int): (r: seq<int>)
    ensures |r| == if a <= b then b - a else 0
    ensures forall i :: 0 <= i < |r| ==> r[i] == a + i
    decreases b - a
  {
    if a < b then [a] + Range(a + 1, b) else []
  }

  /** The scene list is accepted exactly when it is non-empty and the k-th scene has id k. */
  function ValidateScenes(scenes: seq<Scene>): (ok: bool)
    ensures ok <==> |scenes| > 0 && forall i :: 0 <= i < |scenes| ==> scenes[i].id == i + 1
  {
    var ids := SceneIds(scenes);
    var expected := Range(1, |scenes| + 1);
    assert (forall i :: 0 <= i < |scenes| ==> scenes[i].id == i + 1) ==> ids == expected by {
      if forall i :: 0 <= i < |scenes| ==> scenes[i].id == i + 1 {
        assert forall i :: 0 <= i < |scenes| ==> ids[i] == expected[i];
      }
    }
    scenes != [] && ids == expected
  }

  /** All validators of the phase 4 record; the format field is typed, so it holds one of the three ratios. */
  predicate ValidPlan(p: ScenePlan)
  {
    && ValidateVoiceOver(p.voiceOver)
    && ValidateSubtitles(p.subtitles)
    && ValidateScenes(p.scenes)
    && forall i :: 0 <= i < |p.scenes| ==> ValidateTimestamp(p.scenes[i].start) && ValidateTimestamp(p.scenes[i].end)
  }

  // ---------------------------------------------------------------- webhook configuration

  datatype WebhookConfig = WebhookConfig(url: Option<string>, enabled: bool, events: map<string, bool>)

  const DiscordPrefix: string := "https://discord.com/api/webhooks/"

  /** An absent or empty URL passes; any other must be a Discord webhook URL. */
  function ValidateWebhookUrl(url: Option<string>): (ok: bool)
    ensures ok <==> url.None? || url.value == "" || DiscordPrefix <= url.value
  {
    if url.Some? && url.value != [] then DiscordPrefix <= url.value else true
  }

  function EventNames(): (names: seq<string>)
    ensures |names| == |AllEvents|
    ensures forall i :: 0 <= i < |AllEvents| ==> names[i] == EventValue(AllEvents[i])
  {
    seq(|AllEvents|, i requires 0 <= i < |AllEvents| => EventValue(AllEvents[i]))
  }

  lemma {:induction false} EventNamed(e: EventType)
    ensures EventValue(e) in EventNames()
  {
    AllEventsListed(e);
    var i :| 0 <= i < |AllEvents| && AllEvents[i] == e;
    assert EventNames()[i] == EventValue(e);
  }

  /** The events map a new configuration starts with: every event switched on. */
  function DefaultEvents(): (m: map<string, bool>)
    ensures forall e :: EventValue(e) in m && m[EventValue(e)]
  {
    var m := map k | k in EventNames() :: true;
    assert forall e :: EventValue(e) in m by {
      forall e {
        EventNamed(e);
      }
    }
    m
  }

  function IsEventEnabled(c: WebhookConfig, e: EventType): (on: bool)
    ensures on <==> c.enabled && EventValue(e) in c.events && c.events[EventValue(e)]
  {
    if !c.enabled then false
    else if EventValue(e) in c.events then c.events[EventValue(e)]
    else false
  }

  /** With the default events map, the master switch alone decides. */
  lemma {:induction false} DefaultConfigEnablesAll(url: Option<string>, enabled: bool, e: EventType)
    ensures IsEventEnabled(WebhookConfig(url, enabled, DefaultEvents()), e) == enabled
  {
  }
}
