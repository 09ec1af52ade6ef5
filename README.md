# FrameForge edit pipeline — a Dafny model

FrameForge turns a user's free-text request for a video edit into a cinematic
scene plan. It does this in four phases, driven by a small HTTP service that
keeps one in-memory record per editing session:

1. **Prompt refinement.** The request is checked for six kinds of vagueness and
   a structured "Goal:" prompt is produced with placeholder lines. A rejected
   refinement is revised from the user's feedback.
2. **Intelligent questioning.** The service finds which of ten topics the
   request and the answers so far leave open. It asks the matching template
   questions, required ones first, and decides whether enough required
   questions (80 %) have been answered.
3. **Narrative reasoning.** It scores ten narrative archetypes, builds a
   five-beat emotional progression, notes the contrasts between consecutive
   visual scenes, computes pacing and a per-beat cut rhythm, and detects symbols.
4. **Scene planning.** It derives the title, theme, style, format, voice-over and
   subtitle configuration. It splits the target duration into 3 to 8 scenes,
   each with a stage (hook, setup, rising, climax, resolution), contiguous
   `MM:SS` / `HH:MM:SS` timestamps, audio, transition and voice-over text.

The model covers the deterministic core of these phases, the output-record
validators, the JSON dictionary utilities (sanitise, drop empties, deep merge)
and the session store behind the phase endpoints.

Modules, one file each:

- `Wrappers`: Option and Result.
- `Strings`: Python string built-ins — lower-casing, stripping, splitting, and
  substring tests.
- `Seqs`: sums, distinctness and subsequences.
- `Answers`: the answer map and `dict.get`.
- `Schemas`: the enumerations, output records and field validators.
- `JsonValues`: the JSON values and the three dictionary utilities.
- `PromptRefiner`: phase 1.
- `Questioning`: phase 2.
- `Narrative`: phase 3.
- `ScenePlanning`: phase 4.
- `SessionStore`: the session store and the phase endpoints.

Two kinds of code in the source are modelled in two ways:

- Loops that build a list or dictionary step by step become methods with loop
  invariants. Each is proved equal to a specification function, and that
  function's properties are proved as lemmas.
- The session dictionary, which the endpoints mutate in place, becomes the
  class `SessionStore.Store` with a `map` field.

Where Python raises on an unexpected value (a string method called on a list
answer, `.split` on `None`), the model returns an `Err`/`None` rather than
requiring the value away. An answer is read only where the source reads it: a
test with `in` works on a list answer (a membership test), and an answer
lowercased on one branch only (the voice gender, age and language, the subtitle
style, the ending) must be a string only when that branch is taken.

## Model

| member | source | states |
|---|---|---|
| Schemas.ParseFormat | models/schemas.py:12-15 | a string is a video format exactly when it is one of "16:9", "9:16", "1:1", and the parsed value renders back to it |
| Schemas.FormatRoundTrip | models/schemas.py:12-15 | every format parses back from its own value |
| Schemas.ParseSubtitleType | models/schemas.py:17-19 | accepted exactly on "burned" and "srt", rendering back to the same string |
| Schemas.ParseTransition | models/schemas.py:21-26 | accepted exactly on the five transition values, rendering back to the same string |
| Schemas.ParseAudio | models/schemas.py:28-33 | accepted exactly on the five audio values, rendering back to the same string |
| Schemas.AllEventsListed | models/schemas.py:35-78 | the event list names every webhook event type |
| Schemas.ValidateRefinement | models/schemas.py:96-108 | a refinement is valid iff its improved prompt is not blank and its action is "accept" or "revise" |
| Schemas.ValidateVoiceOver | models/schemas.py:189-193 | rejected exactly when voice-over is enabled with no voices |
| Schemas.ValidateSubtitles | models/schemas.py:204-208 | rejected exactly when subtitles are enabled with no type |
| Schemas.ValidateTimestamp | models/schemas.py:258-264 | a timestamp is accepted iff it splits on ':' into two or three parts |
| Schemas.ValidateScenes | models/schemas.py:308-316 | scenes are accepted iff there is at least one and the ids run 1, 2, …, n |
| Schemas.ValidateWebhookUrl | models/schemas.py:339-343 | a webhook URL is accepted iff it is absent, empty or starts with the Discord webhook prefix |
| Schemas.DefaultEvents | models/schemas.py:334-337 | the default event map switches every event on |
| Schemas.EventNamed | models/schemas.py:35-78 | every event's value is among the event names |
| Schemas.IsEventEnabled | models/schemas.py:345-349 | an event fires iff the webhook is enabled and the event is present and true in its map |
| Schemas.DefaultConfigEnablesAll | models/schemas.py:320-349 | with the default event map, every event fires exactly when the webhook is enabled |
| JsonValues.Sanitize | utils/validators.py:86-109 | dictionaries keep their keys; lists, tuples and sets become lists of the same length |
| JsonValues.SanitizeJson | utils/validators.py:86-140 | sanitising a value that is already JSON returns it unchanged |
| JsonValues.Cleaned | utils/validators.py:142-171 | only dictionaries change; the cleaned dictionary's keys are a subset of the original's |
| JsonValues.CleanEmptyValues | utils/validators.py:142-171 | the loop over the entries computes `Cleaned` |
| JsonValues.CleanedHasNoEmpties | utils/validators.py:156-166 | no None, blank string, empty list or empty nested dictionary survives cleaning, at any depth |
| JsonValues.CleanedKeepsValues | utils/validators.py:156-168 | an entry survives iff it is not null, a blank string, an empty list or a dictionary that cleans to nothing; a surviving dictionary holds its cleaned form, any other surviving entry its own value |
| JsonValues.CleanedIdempotent | utils/validators.py:142-171 | cleaning twice equals cleaning once |
| JsonValues.Merged | utils/validators.py:173-187 | the merge has the keys of both maps; keys only in the base keep the base value, keys in the override take the merged entry |
| JsonValues.MergeSchemas | utils/validators.py:173-187 | the loop over the override's keys computes `Merged` |
| JsonValues.MergedEntries | utils/validators.py:181-186 | two dictionaries under one key merge recursively; otherwise the override wins |
| JsonValues.MergeEmptyOverride | utils/validators.py:173-187 | merging an empty override returns the base |
| JsonValues.MergeEmptyBase | utils/validators.py:173-187 | merging into an empty base returns the override |
| JsonValues.MergeSelf | utils/validators.py:173-187 | merging a map with itself returns it |
| Answers.TextAnswer | phases/scene_planning.py:308-311 | `answers.get(key, default)` used as a string: the default when absent, and defined iff the stored answer is text |
| Answers.Get | phases/narrative_reasoning.py:105-107 | `answers.get(key, default)`: the stored answer when present, the default otherwise |
| Answers.Has | phases/narrative_reasoning.py:80-84 | Python's `in` on an answer: substring test on text, membership on a list, raises otherwise |
| PromptRefiner.DiagnosesDetermined | phases/prompt_refiner.py:38-74 | the detected issues are determined by the prompt: at most six, distinct, in check order |
| PromptRefiner.IssuesDistinct | phases/prompt_refiner.py:43-68 | the six issue messages are pairwise different |
| PromptRefiner.PickedDiagnoses | phases/prompt_refiner.py:38-74 | the issues picked from the six checks satisfy the diagnosis relation |
| PromptRefiner.AnalyzePrompt | phases/prompt_refiner.py:38-74 | each of the six issues is reported iff its keyword test on the lower-cased prompt holds, in check order; the length and complexity are recorded |
| PromptRefiner.Complexity | phases/prompt_refiner.py:76-86 | the complexity score is capped at 10, is at least min(word count / 10, 10), and is below the word score plus the technical terms |
| PromptRefiner.ShortPromptComplexity | phases/prompt_refiner.py:76-86 | under ten words the score is the number of technical terms present, at most 5 |
| PromptRefiner.ImprovePrompt | phases/prompt_refiner.py:88-132 | fails exactly on a blank prompt (`improved[0]` raises); otherwise it yields the improvement built on the stripped, capitalised "Goal:" header |
| PromptRefiner.Heading | phases/prompt_refiner.py:96-97 | the header is defined exactly on a non-empty prompt |
| PromptRefiner.AppendPlaceholders | phases/prompt_refiner.py:99-120 | appends the placeholder line and note for each issue the analysis mentions, in order |
| PromptRefiner.IssueMentionsPhrase | phases/prompt_refiner.py:102-120 | each detected issue message contains the phrase the improver looks for |
| PromptRefiner.NoActionMention | phases/prompt_refiner.py:122-125 | no issue list of the analysis mentions "vague action" (its action issue, line 68, reads "action verbs are vague"), so the rewording step of the improver never fires on one |
| PromptRefiner.DetectedIssueAddsLine | phases/prompt_refiner.py:99-120 | every detected issue of the first five kinds leads to its placeholder line in the prompt and its note in the improvements |
| PromptRefiner.ImprovedStartsSolid | phases/prompt_refiner.py:93-129 | the improved prompt starts with a non-space character, so the schema's non-blank check accepts it |
| PromptRefiner.Refine | phases/prompt_refiner.py:134-171 | a blank prompt gives the fixed "Empty prompt provided" record; otherwise the record keeps the original, lists the diagnosed issues and says "revise" iff there are more than two; it is valid iff the prompt is not blank |
| PromptRefiner.RefineWithFeedback | phases/prompt_refiner.py:173-212 | fails iff the adjusted prompt is blank; otherwise it re-diagnoses the adjusted prompt, puts the feedback note first and always says "accept" |
| PromptRefiner.AdjustPrompt | phases/prompt_refiner.py:180-200 | computes `Adjusted` |
| PromptRefiner.ShortenedIsFirstLine | phases/prompt_refiner.py:185-188 | "too long" or "verbose" feedback keeps exactly the first line: a prefix without line breaks ending at the first break or at the end; other feedback keeps the prompt |
| PromptRefiner.SimplifiedHasNoPlaceholders | phases/prompt_refiner.py:190-193 | "too technical" or "simple" feedback leaves no technical and no duration placeholder line, and keeps a prompt that has neither |
| PromptRefiner.ElaboratedIdempotent | phases/prompt_refiner.py:195-200 | "elaborate" feedback adds Style and Audio lines, and applying it twice adds nothing more |
| PromptRefiner.NeutralFeedbackKeepsPrompt | phases/prompt_refiner.py:180-200 | feedback with none of the keywords leaves the prompt unchanged |
| Questioning.TemplateQuestion | phases/intelligent_questioning.py:253-261 | the question copies the template's id, required flag and type |
| Questioning.MissingFlagsAt | phases/intelligent_questioning.py:176-228 | the i-th flag is set iff no keyword of that topic is in the lower-cased prompt and its answer key is absent |
| Questioning.DetectMissingInfo | phases/intelligent_questioning.py:173-234 | the sequence of checks computes `Missing` |
| Questioning.MissingSpelledOut | phases/intelligent_questioning.py:173-234 | the missing topics are the ten checks in source order, source material whenever it is unanswered |
| Questioning.CategoriesDistinct | phases/intelligent_questioning.py:173-234 | the ten topics are pairwise different |
| Questioning.MissingMeaning | phases/intelligent_questioning.py:173-234 | a topic is missing iff none of its keywords is in the prompt and its answer is absent; the result is an ordered, duplicate-free subsequence of the topics |
| Questioning.SourceMaterialAlwaysAsked | phases/intelligent_questioning.py:230-232 | source material is asked iff it has not been answered, whatever the prompt says |
| Questioning.MoreAnswersFewerTopics | phases/intelligent_questioning.py:173-234 | answering more questions can only remove topics |
| Questioning.ConditionMet | phases/intelligent_questioning.py:246-250 | a template condition is undecidable exactly when its answer is neither text nor a list |
| Questioning.Instantiate | phases/intelligent_questioning.py:241-262 | at most one question per topic |
| Questioning.TemplatesChecked | phases/intelligent_questioning.py:31-171 | every topic has a template, its id is an answer key, and none of the topic templates carries a condition |
| Questioning.InstantiateMissing | phases/intelligent_questioning.py:236-262 | with the source's templates, the questions for the missing topics are built without error |
| Questioning.InsertByKey | phases/intelligent_questioning.py:265 | inserting into a list sorted by (not required, id) keeps it sorted and adds exactly the one question |
| Questioning.SortQuestions | phases/intelligent_questioning.py:265 | the result is sorted by (not required, id) and is a permutation of the input |
| Questioning.GenerateQuestions | phases/intelligent_questioning.py:236-267 | fails iff building the questions fails; otherwise the questions are sorted and are a permutation of those built for the missing topics |
| Questioning.AskedFacts | phases/intelligent_questioning.py:236-267 | one question per missing topic, with distinct ids that are all answer keys |
| Questioning.FollowUpsNeverAsked | phases/intelligent_questioning.py:31-171 | the five templates outside the ten checked topics are never generated: the voice language, gender and age (conditional on voice-over), the subtitle style (conditional on subtitles) and the unconditional colour grade |
| Questioning.SortedUnique | phases/intelligent_questioning.py:265 | with distinct ids the sorted order is unique |
| Questioning.RequiredEntries | phases/intelligent_questioning.py:282 | exactly the required entries, in their order, each as many times as in the input |
| Questioning.AnsweredCount | phases/intelligent_questioning.py:287 | at most the number of entries; equal to it iff every entry is answered, zero iff none is |
| Questioning.AnsweredCountAppend | phases/intelligent_questioning.py:287 | the answered counts of two lists add up, so the count is one per answered entry |
| Questioning.CheckCompleteness | phases/intelligent_questioning.py:269-288 | complete iff at least 80 % of the required entries are answered (so always without required entries); answering every required entry completes; complete answers with a required entry answer at least one |
| Questioning.CompletenessMonotone | phases/intelligent_questioning.py:269-288 | adding answers never makes complete answers incomplete |
| Questioning.CleanAnswer | phases/intelligent_questioning.py:296-302 | a string is stripped, a list becomes the list of its stripped items, any other value passes through |
| Questioning.Processed | phases/intelligent_questioning.py:291-304 | the same keys, each holding its cleaned answer |
| Questioning.ProcessAnswers | phases/intelligent_questioning.py:291-304 | the loop over the answers computes `Processed` |
| Questioning.ProcessedIdempotent | phases/intelligent_questioning.py:291-304 | processing twice equals processing once |
| Questioning.ProcessedTextTrimmed | phases/intelligent_questioning.py:297-298 | a processed text answer neither starts nor ends with white space |
| Narrative.BaseScores | phases/narrative_reasoning.py:52-66 | one non-negative keyword score per archetype |
| Narrative.AdjustedGrows | phases/narrative_reasoning.py:68-84 | the tone and source-material bonuses only raise scores |
| Narrative.FirstMax | phases/narrative_reasoning.py:86-90 | the chosen index holds a maximum, and every earlier score is strictly smaller (the first maximum wins) |
| Narrative.DefaultArc | phases/narrative_reasoning.py:92-98 | the fallback archetype (interview, montage or documentary) is one of the ten |
| Narrative.IdentifyNarrativeArc | phases/narrative_reasoning.py:46-98 | the scoring loops compute `Arc` |
| Narrative.ArcErr | phases/narrative_reasoning.py:69-84 | arc identification fails exactly when the tone answer is not text or the source answer is neither text nor list |
| Narrative.ArcIsArchetype | phases/narrative_reasoning.py:46-98 | the identified arc is always one of the ten archetypes |
| Narrative.ArcFirstMax | phases/narrative_reasoning.py:86-98 | with a positive score the arc is the first archetype of maximal score; with all scores zero it is the keyword default |
| Narrative.EmptyPromptIsDocumentary | phases/narrative_reasoning.py:46-98 | an empty prompt with no answers gives the documentary arc |
| Narrative.CatalogSourceEarnsNoBonus | phases/narrative_reasoning.py:80-84 | source-material choices from the question's own option list never earn the interview or documentary bonus |
| Narrative.CurveFor | phases/narrative_reasoning.py:107-129 | a progression table exists for every text or list rhythm answer |
| Narrative.TableShape | phases/narrative_reasoning.py:110-136 | every table has the five beats in order with intensities between 3 and 10 tenths |
| Narrative.EndingOverride | phases/narrative_reasoning.py:138-145 | an ending override sets an intensity between 3 and 10 |
| Narrative.MapEmotionalProgression | phases/narrative_reasoning.py:100-147 | computes `Progression` |
| Narrative.ProgressionShape | phases/narrative_reasoning.py:100-147 | a progression has five beats with intensities in range |
| Narrative.EndingTouchesOnlyLastBeat | phases/narrative_reasoning.py:138-145 | the ending answer changes only the last beat's emotion and intensity |
| Narrative.OpenEnding | phases/narrative_reasoning.py:139-142 | an "open" ending ends in contemplation at intensity 4 |
| Narrative.ContrastKindsMeaning | phases/narrative_reasoning.py:166-183 | each contrast kind is listed iff that attribute differs; none iff the scenes are equal |
| Narrative.ContrastTypes | phases/narrative_reasoning.py:166-183 | computes `ContrastKinds` |
| Narrative.AnalyzeSceneContrasts | phases/narrative_reasoning.py:149-196 | the loop over consecutive scene pairs computes `Contrasts` |
| Narrative.PairContrast | phases/narrative_reasoning.py:163-192 | one turn of the pair loop appends exactly the record `Contrasts` holds for that pair, or nothing when the scenes agree |
| Narrative.ContrastsArePairs | phases/narrative_reasoning.py:157-194 | each record describes a consecutive pair, records are in order, and a pair is recorded iff its scenes differ |
| Narrative.CutIffMovement | phases/narrative_reasoning.py:185-193 | a recorded contrast suggests a cut iff the movement differs, a fade otherwise |
| Narrative.LightingOnly | phases/narrative_reasoning.py:166-193 | two scenes differing only in lighting give one lighting contrast with a fade |
| Narrative.PacingSeconds | phases/narrative_reasoning.py:204-215 | the duration answer maps to 30, 60, 180, 600 or 1800 seconds |
| Narrative.BaseCuts | phases/narrative_reasoning.py:217-222 | 8, 15 or 30 cuts per minute, 15 unless the rhythm is slow or fast |
| Narrative.CatalogRhythmCuts | phases/narrative_reasoning.py:217-222 | every rhythm option the questions offer maps to the medium rate, because the options are capitalised phrases |
| Narrative.PlatformCuts | phases/narrative_reasoning.py:224-227 | TikTok and Reels raise the rate to at least 25; other platforms keep it |
| Narrative.BeatCuts | phases/narrative_reasoning.py:248-254 | the per-beat rate stays between 0.6 and 1.5 times the base, unchanged for intensities 4 to 8 |
| Narrative.BeatCutsMonotone | phases/narrative_reasoning.py:248-254 | a more intense beat never gets fewer cuts |
| Narrative.GenerateRhythmPattern | phases/narrative_reasoning.py:239-263 | one pattern entry per beat, copying its name, pacing and intensity, with the intensity-scaled cut rate |
| Narrative.PacingInputs | phases/narrative_reasoning.py:204-227 | the final rate is 8, 15, 25 or 30 cuts per minute |
| Narrative.CalculatePacing | phases/narrative_reasoning.py:198-237 | fails exactly when the inputs cannot be read; otherwise total cuts and average shot are the floors of duration × rate / 60 and 60 / rate, and the pattern follows the progression |
| Narrative.SymbolFlags | phases/narrative_reasoning.py:268-289 | flag f is set iff one of symbol f's words occurs in the lower-cased prompt |
| Narrative.DetectSymbolism | phases/narrative_reasoning.py:265-293 | computes `Symbolism` |
| Narrative.SymbolismMeaning | phases/narrative_reasoning.py:265-293 | no symbolism iff no symbol word occurs; the matched symbols are those with a word in the prompt, in table order |
| Narrative.Analyze | phases/narrative_reasoning.py:295-342 | fails exactly when arc, progression or pacing fail; otherwise combines them: the pacing is the one described for the answered duration and rate (total cuts, seconds per shot, one pattern entry per beat), confidence is high iff the arc is not documentary, the counts of beats and contrasts are kept, and the pacing note reads "Base rhythm: N cuts/min" with N in decimal |
| ScenePlanning.TimestampRoundTrip | phases/scene_planning.py:99-109 | reading a generated timestamp back gives the same number of seconds |
| ScenePlanning.TimestampShape | phases/scene_planning.py:99-109 | MM:SS below an hour, HH:MM:SS from an hour on, always accepted by the scene validator |
| ScenePlanning.ParseDuration | phases/scene_planning.py:111-124 | the first range the duration answer mentions (as a substring of a string, as an item of a list) maps to 25, 45, 120, 360 or 1200 seconds; none gives 180 |
| ScenePlanning.DurationDefault | phases/scene_planning.py:111-124 | 180 seconds exactly when no listed range occurs in the answer |
| ScenePlanning.DurationTablesDiffer | phases/scene_planning.py:111-124 | the planner's duration table never exceeds the pacing table, and agrees with it only on the 180-second default |
| ScenePlanning.DetermineFormat | phases/scene_planning.py:126-134 | 9:16 iff TikTok, Reels or Stories is named; 1:1 iff otherwise Instagram feed; 16:9 otherwise |
| ScenePlanning.VoiceOver | phases/scene_planning.py:136-165 | enabled iff the answer contains "Yes", with one voice for "single" and two otherwise, none when disabled; always valid |
| ScenePlanning.Subtitles | phases/scene_planning.py:167-176 | enabled iff the answer contains "Yes", burned or SRT by the answer, style with spaces as underscores; always valid |
| ScenePlanning.PlanCuts | phases/scene_planning.py:332-336 | undefined exactly when the rhythm has no word (`split()[0]` raises); otherwise 8, 15 or 30 |
| ScenePlanning.NumScenes | phases/scene_planning.py:338 | between 3 and 8, and equal to duration × rate / 240 when strictly inside |
| ScenePlanning.Durations | phases/scene_planning.py:178-199 | one duration per scene, summing exactly to the total |
| ScenePlanning.CalculateSceneDurations | phases/scene_planning.py:178-199 | the loop and the last-scene correction compute `Durations` |
| ScenePlanning.CorrectedParts | phases/scene_planning.py:192-197 | correcting the last scene by the shortfall gives the equal-parts-plus-remainder split |
| ScenePlanning.DurationsPrefixSums | phases/scene_planning.py:178-199 | every prefix of k scenes lasts k base durations, the whole plan the total |
| ScenePlanning.DurationsNonNegative | phases/scene_planning.py:178-199 | all durations are non-negative iff the first n − 1 scaled durations fit in the total |
| ScenePlanning.UnscaledFits | phases/scene_planning.py:178-199 | without "slow" in the rhythm no duration is negative |
| ScenePlanning.SlowDriftCounterexample | phases/scene_planning.py:185-197 | a slow 3-10 minute plan has 8 scenes whose first seven last 378 s, so the last one lasts −18 s |
| ScenePlanning.StageTypes | phases/scene_planning.py:220-227 | the stage walk has max(n, 5) entries, each the stage its position gives |
| ScenePlanning.StageWalk | phases/scene_planning.py:220-264 | hook, setup, then rising, with climax and resolution as the last two scenes from five scenes on |
| ScenePlanning.GenerateScenes | phases/scene_planning.py:201-296 | the loop over the durations computes `Scenes` |
| ScenePlanning.ScenesContiguous | phases/scene_planning.py:201-296 | ids run from 1; the first scene starts at 00:00; each scene starts where the previous ends; the last ends at the total; each start reads back as the prefix sum |
| ScenePlanning.SceneFields | phases/scene_planning.py:230-291 | each scene's transition, audio, voice-over text and subtitle flag are those of its stage and beat |
| ScenePlanning.ScenesTransitions | phases/scene_planning.py:236-264 | the hook cuts; the setup fades on slow rhythm; rising scenes match-cut; the climax and the last scene fade (a cut for three scenes) |
| ScenePlanning.ScenesAudio | phases/scene_planning.py:236-279 | every scene carries the same subtitle flag; voice-over text appears only when the answer starts with "Yes" and never on rising scenes; the hook's audio is voice-over iff the answer mentions "voice" |
| ScenePlanning.DeclinedVoiceOverVoicesHook | phases/scene_planning.py:136-165 | when the voice-over answer is the catalog's "No voice-over needed", voice-over is disabled yet the hook scene's audio is voice-over |
| ScenePlanning.ToneTitle | phases/scene_planning.py:375-392 | a tone title comes from a tone keyword in the tone; none iff no keyword occurs |
| ScenePlanning.TitleFallback | phases/scene_planning.py:359-395 | the request's title wins when it has one; the fallback title appears iff neither the request nor the tone gives one |
| ScenePlanning.Theme | phases/scene_planning.py:397-414 | the fallback theme appears iff the arc is not one of the archetypes |
| ScenePlanning.ThemeOfArchetype | phases/scene_planning.py:397-414 | each archetype gets its own theme |
| ScenePlanning.Style | phases/scene_planning.py:416-438 | the style starts with the rhythm style, mentions the tone and ends with the colour palette |
| ScenePlanning.VoiceOverOf | phases/scene_planning.py:136-165 | fails exactly when the voice-over answer cannot be tested with `in`, or passes the "Yes" test and then it, or a voice answer that branch lowercases, is not a string; otherwise enabled iff the test passes, with the configuration `VoiceOver` gives, always valid |
| ScenePlanning.SubtitlesOf | phases/scene_planning.py:167-176 | fails exactly when the subtitle answer cannot be tested with `in`, or mentions "Yes" and then it or the style answer is not a string; otherwise enabled iff it mentions "Yes", with the configuration `Subtitles` gives, always valid |
| ScenePlanning.ReadPlanAnswers | phases/scene_planning.py:304-325 | readable iff the platform, rhythm, tone, colour and voice-over answers are strings or absent, the duration can be tested with `in`, and both configurations succeed; each answer gets its source default |
| ScenePlanning.UnreadVoiceGender | phases/scene_planning.py:136-165 | a list for the voice gender, never read when voice-over is not asked for, leaves the answers readable |
| ScenePlanning.EndingUnreadBeforeFive | phases/scene_planning.py:220-264 | below five scenes there is no resolution scene, and the scenes do not depend on the ending answer |
| ScenePlanning.PlanTimeline | phases/scene_planning.py:337-344 | the scenes over the durations of the scene count; 3 to 8 scenes, valid ids and timestamps, from 00:00 to the total, contiguous |
| ScenePlanning.GeneratePlan | phases/scene_planning.py:298-357 | fails exactly when the answers are unreadable, the rhythm has no word, or a resolution scene (five scenes or more) meets an ending that is not a string; otherwise a valid plan of 3 to 8 scenes made of the title, theme, style, format, both configurations and the scenes over the parsed duration |
| SessionStore.AllowedFileSplit | app.py:72-73 | `stem.ext` is accepted iff the lower-cased last extension is one of mp4, mov, avi, mkv, webm |
| SessionStore.AllowedFileNeedsDot | app.py:72-73 | a name without a dot is never accepted |
| SessionStore.Fresh | app.py:75-87 | a new session has no phase, no transcription, no visual analysis and empty data |
| SessionStore.Store.constructor | app.py:70 | the store starts empty |
| SessionStore.Store.GetSession | app.py:75-87 | returns the stored session, creating a fresh one on first access and changing nothing else |
| SessionStore.Store.Refine | app.py:226-294 | always creates the session and sets the refinement phase; 500 iff the prompt is blank with data unchanged; otherwise 200 storing only the refinement and its non-blank improved prompt |
| SessionStore.Store.Approve | app.py:296-353 | 400 for an unknown session; approval sets the approved flag and copies the improved prompt to the final prompt; a rejection stores nothing and answers 200 iff an improved prompt exists and its revision is not blank, else 500 |
| SessionStore.Store.Questions | app.py:357-418 | 400 for an unknown session; sets the questioning phase before its guard; 400 unless approved, 500 without a final prompt, and 200 otherwise, since the templates always instantiate; on 200 only the questions change, to one record per missing topic |
| SessionStore.Store.SubmitAnswer | app.py:420-450 | 400 for an unknown session; otherwise stores the answer under its id and reports completeness of the stored questions |
| SessionStore.Store.Analyze | app.py:454-526 | 400 for an unknown session; sets the narrative phase; 400 without answers, 500 without a final prompt; with both, 200 exactly when the analysis does not raise on the stored answers; on 200 only the analysis changes |
| SessionStore.Store.Plan | app.py:530-601 | 400 for an unknown session; sets the planning phase; 400 without an analysis, 500 without a final prompt; with both, 200 exactly when the planner does not raise on the stored answers; on 200 only a valid plan is stored |

## Left out

- HTTP transport, JSON request parsing, uuid generation, timestamps, logging, Socket.IO events and the webhook notifications are not modelled. The endpoints take the parsed fields as parameters.
- Video upload, transcription, visual analysis, cutting, voice-over synthesis, subtitle rendering and final rendering are left out. They call ffmpeg, Whisper, vision models or the file system. A session's transcription and visual-analysis fields are set only by those endpoints, so the store keeps them as inputs.
- generate_dynamic_questions is left out because it calls a language model.
- validate_json_schema and validate_partial are left out because they are pydantic machinery. The field validators they run are modelled in `Schemas`. The model applies `Schemas.ValidateVoiceOver` and `Schemas.ValidateSubtitles` to every configuration it checks. Pydantic runs a field validator only on a value that is supplied, so `VoiceOver(enabled=True)` with `voices` omitted passes in the source (models/schemas.py:184-193). Scene planning supplies `voices` and `type` whenever it enables voice-over or subtitles, so the difference does not reach the modelled pipeline.
- The sanitiser's datetime, bytes (base64), float (NaN and infinity), pydantic-model and fall-back-to-`str` branches are left out. Only JSON-shaped values, tuples and sets are modelled; numbers are integers.
- Floating-point arithmetic is modelled exactly in integers. The 1.2, 0.8, 1.5 and 0.6 multipliers become `x * 12 / 10` and similar. The 80 % completeness threshold becomes `5 * answered >= 4 * required`. `int(...)` truncation of non-negative values is integer division.
- Lower-casing and white-space tests cover ASCII only: the blanks are the space, characters 9 to 13 and the separators 28 to 31; Unicode spaces are not modelled.
- Some texts are kept abstract: the goal sentence's percentage formatting, the scene visual descriptions and the voice-over script lines. The model takes them as a parameter (`SceneTexts`) and instantiates it with the source's constants.
- Stage names are an enumeration, not strings. The walk never produces "development" for a scene that exists, so that name is not needed.
- `Questioning.SortQuestions` uses insertion sort rather than Python's Timsort. Both are stable; with distinct ids the sorted result is unique (`Questioning.SortedUnique`).
- A `None` question id in the answer endpoint is not modelled; the answer key is a string.
- Questioning.CleanAnswer: a list holding a non-string is `Other` in the model, so it passes through unchanged, where the source raises on `.strip()` of that item.
- An answer that is a JSON object is `Other`, which the model treats as unreadable everywhere. Python's `in` on a dict tests its keys, so the duration, subtitle and voice-over tests would not raise on one.
- Concurrent requests on one session are not modelled.
- SessionStore.Store.Approve: the revision's own contents are not stored by the source and are not stated. Only whether it succeeds is stated. The original prompt passed to the revision is never stored by the source, so it is `None` there and `""` here.
- SessionStore.Store.Questions: the stored questions are stated only as untyped question records, one per missing topic, not as the generated list.
- SessionStore.Store.Analyze: the stored analysis is stated only through its five-beat progression with intensities in range, not field by field.
- SessionStore.Store.Plan: the stored plan is stated only as a valid plan of 3 to 8 scenes, not field by field.
- SessionStore.Store.Refine: the stored refinement is stated only as having a non-blank improved prompt. Its full contents are the postcondition of `PromptRefiner.Refine`.

