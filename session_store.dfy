/**
 * The web application's session store and the guards of its phase handlers
 * (app.py): a map from session id to session record, created on first access
 * by the refine handler, and one handler per phase that checks a data flag
 * left by the phase before it.  HTTP, webhooks, sockets, uploads, clocks and
 * uuids are not modelled: a handler takes the request fields it reads and
 * returns the status code it answers with.
 */
module SessionStore {
  import opened Wrappers
  import opened Strings
  import opened Answers
  import opened Schemas
  import PromptRefiner
  import Questioning
  import Narrative
  import ScenePlanning

  // ---------------------------------------------------------------- upload names

  /** `ALLOWED_EXTENSIONS` */
  const Extensions: set<string> := {"mp4", "mov", "avi", "mkv", "webm"}

  /** The position of the last '.' of a name, if it has one. */
  function LastDot(s: string): (r: Option<nat>)
    ensures r.None? <==> '.' !in s
    ensures r.Some? ==> r.value < |s| && s[r.value] == '.' && '.' !in s[r.value + 1..]
  {
    if s == [] then None
    else if s[|s| - 1] == '.' then Some(|s| - 1)
    else
      var r := LastDot(s[..|s| - 1]);
      assert '.' in s[..|s| - 1] ==> '.' in s;
      assert '.' in s ==> '.' in s[..|s| - 1] by {
        if '.' in s {
          var j :| 0 <= j < |s| && s[j] == '.';
          assert s[..|s| - 1][j] == '.';
        }
      }
      if r.Some? then
        assert s[r.value + 1..] == s[..|s| - 1][r.value + 1..] + [s[|s| - 1]];
        r
      else r
  }

  /** `allowed_file`: the name has a '.' and what follows the last one, lowercased, is a video extension. */
  function AllowedFile(name: string): bool
  {
    match LastDot(name)
    case None => false
    case Some(i) => Lower(name[i + 1..]) in Extensions
  }

  /** A name made of a stem, a '.' and an extension without dots is allowed exactly when the extension is. */
  lemma {:induction false} AllowedFileSplit(stem: string, ext: string)
    requires '.' !in ext
    ensures AllowedFile(stem + "." + ext) <==> Lower(ext) in Extensions
  {
    var name := stem + "." + ext;
    assert name[|stem|] == '.';
    var i := LastDot(name).value;
    assert name[i + 1..] == ext;
  }

  /** Every name with a '.' is a stem, a '.' and an extension without dots; a name without one is refused. */
  lemma {:induction false} AllowedFileNeedsDot(name: string)
    ensures '.' !in name ==> !AllowedFile(name)
    ensures '.' in name ==> exists stem, ext :: name == stem + "." + ext && '.' !in ext
  {
    if '.' in name {
      var i := LastDot(name).value;
      assert name == name[..i] + "." + name[i + 1..];
    }
  }

  // ---------------------------------------------------------------- sessions

  /** The value last written to `session['phase']`; it is never read. */
  datatype Phase = RefinementPhase | QuestioningPhase | NarrativePhase | PlanningPhase

  /**
   * The keys of `session['data']` the handlers write, `None` while a key is
   * absent.  The questions are kept as the dicts the source stores.
   */
  datatype SessionData = SessionData(
    phase1: Option<Refinement>,
    improvedPrompt: Option<string>,
    promptApproved: bool,
    finalPrompt: Option<string>,
    answers: Option<Answers>,
    questions: Option<seq<Questioning.QuestionEntry>>,
    narrative: Option<Narrative.Analysis>,
    plan: Option<ScenePlan>)

  /**
   * A session record.  `transcribed` and `visual` stand for the
   * `transcription` and `visual_analysis` entries, which only the media
   * handlers outside this model fill in.
   */
  datatype Session = Session(id: string, phase: Option<Phase>, transcribed: bool,
    visual: seq<Narrative.VisualScene>, data: SessionData)

  const NoData: SessionData := SessionData(None, None, false, None, None, None, None, None)

  /** The record `get_session` creates. */
  function Fresh(id: string): (s: Session)
    ensures s.id == id && s.phase.None? && !s.transcribed && s.visual == [] && s.data == NoData
  {
    Session(id, None, false, [], NoData)
  }

  /** `not session_id or session_id not in sessions` fails: the id is given, non-empty and known. */
  predicate Known(sessions: map<string, Session>, id: Option<string>)
  {
    id.Some? && id.value != "" && id.value in sessions
  }

  /** The questions as `q.dict()` hands them to the completeness check. */
  function AsDicts(qs: seq<Question>): (r: seq<Questioning.QuestionEntry>)
    ensures |r| == |qs|
    ensures forall i :: 0 <= i < |qs| ==>
      (r[i].Untyped? && Questioning.IsRequired(r[i]) == qs[i].required && Questioning.EntryId(r[i]) == qs[i].id)
  {
    if qs == [] then [] else [Questioning.Untyped(Some(qs[0].required), Some(qs[0].id))] + AsDicts(qs[1..])
  }

  /** `session['data'].get('phase2_answers', {})` */
  function StoredAnswers(d: SessionData): Answers
  {
    if d.answers.Some? then d.answers.value else map[]
  }

  // ---------------------------------------------------------------- the phases as the handlers see them

  /**
   * Phase 1 on the request's prompt, passed through the output schema: a
   * refinement comes back exactly when the prompt is not blank, and its
   * improved prompt is never blank.
   */
  method RunRefine(prompt: string) returns (r: Option<Refinement>)
    ensures r.Some? <==> !IsBlank(prompt)
    ensures r.Some? ==> ValidateRefinement(r.value) && !IsBlank(r.value.improved)
  {
    var result := PromptRefiner.Refine(prompt);
    r := if ValidateRefinement(result) then Some(result) else None;
  }

  /**
   * The revision a rejection computes from the improved prompt and the
   * feedback; the original prompt it echoes is never stored, so it is empty.
   * It succeeds exactly when the adjusted prompt is not blank.
   */
  method RunRevision(previous: string, feedback: string) returns (ok: bool)
    ensures ok <==> !IsBlank(PromptRefiner.Adjusted(previous, feedback))
  {
    var revision := PromptRefiner.RefineWithFeedback("", previous, feedback);
    ok := revision.Ok?;
  }

  /** Phase 2 on the final prompt and the answers so far, as the dicts the handler stores. */
  method RunQuestions(prompt: string, answers: Answers) returns (r: Option<seq<Questioning.QuestionEntry>>)
    ensures r.Some?
    ensures |r.value| == |Questioning.Missing(prompt, answers)|
    ensures forall i :: 0 <= i < |r.value| ==> r.value[i].Untyped?
  {
    Questioning.TemplatesChecked();
    Questioning.InstantiateMissing(Questioning.Templates, prompt, answers);
    Questioning.AskedFacts(Questioning.Templates, prompt, answers);
    var questions := Questioning.GenerateQuestions(Questioning.Templates, prompt, answers);
    assert |multiset(questions.value)| == |Questioning.Asked(Questioning.Templates, prompt, answers)|;
    r := if questions.Ok? then Some(AsDicts(questions.value)) else None;
  }

  /** Phase 3 on the final prompt, the answers and the visual scenes. */
  method RunAnalysis(prompt: string, answers: Answers, visual: seq<Narrative.VisualScene>) returns (r: Option<Narrative.Analysis>)
    ensures r.None? <==> Narrative.AnalysisFails(prompt, answers)
    ensures r.Some? ==> Narrative.FiveBeats(r.value.progression) && Narrative.IntensitiesInRange(r.value.progression)
  {
    var analysis := Narrative.Analyze(prompt, answers, visual);
    r := if analysis.Ok? then Some(analysis.value) else None;
  }

  /** Phase 4 on the final prompt, the stored narrative and the answers: a plan the output schema accepts. */
  method RunPlan(prompt: string, narrative: Narrative.Analysis, transcribed: bool, answers: Answers) returns (r: Option<ScenePlan>)
    ensures r.None? <==> ScenePlanning.PlanFails(answers)
    ensures r.Some? ==> ValidPlan(r.value) && 3 <= |r.value.scenes| <= 8
  {
    var plan := ScenePlanning.GeneratePlan(prompt, narrative.arc, narrative.progression, transcribed, answers);
    r := if plan.Ok? then Some(plan.value) else None;
  }

  class Store {
    /** The module-level `sessions` dict. */
    var sessions: map<string, Session>

    constructor()
      ensures sessions == map[]
    {
      sessions := map[];
    }

    /** `get_session`: the record under the id, inserting a fresh one on first access. */
    method GetSession(id: string) returns (s: Session)
      modifies this
      ensures id in old(sessions) ==> sessions == old(sessions) && s == old(sessions)[id]
      ensures id !in old(sessions) ==> sessions == old(sessions)[id := Fresh(id)] && s == Fresh(id)
      ensures id in sessions && s == sessions[id]
    {
      if id !in sessions {
        sessions := sessions[id := Fresh(id)];
      }
      s := sessions[id];
    }

    /**
     * `phase1_refine_prompt`: the session is created if need be and its phase
     * set before the refinement runs; a refinement the output schema rejects
     * answers 500 and stores nothing, any other is stored with its prompt.
     */
    method Refine(id: string, prompt: string) returns (status: nat)
      modifies this
      ensures var s := if id in old(sessions) then old(sessions)[id] else Fresh(id);
        && sessions.Keys == old(sessions).Keys + {id}
        && (forall k :: k in old(sessions) && k != id ==> sessions[k] == old(sessions)[k])
        && sessions[id].phase == Some(RefinementPhase)
        && sessions[id].id == s.id && sessions[id].transcribed == s.transcribed && sessions[id].visual == s.visual
        && (status == 500 <==> IsBlank(prompt))
        && (status == 500 ==> sessions[id].data == s.data)
        && (status != 500 ==>
          (status == 200
           && sessions[id].data.phase1.Some?
           && sessions[id].data == s.data.(phase1 := sessions[id].data.phase1,
                improvedPrompt := Some(sessions[id].data.phase1.value.improved))
           && !IsBlank(sessions[id].data.phase1.value.improved)))
    {
      var s := GetSession(id);
      s := s.(phase := Some(RefinementPhase));
      var result := RunRefine(prompt);
      if result.None? {
        sessions := sessions[id := s];
        return 500;
      }
      sessions := sessions[id := s.(data := s.data.(phase1 := result, improvedPrompt := Some(result.value.improved)))];
      status := 200;
    }

    /**
     * `phase1_approve`: approval marks the prompt approved and copies the
     * improved prompt, possibly absent, into the final prompt; a rejection
     * computes a revision it does not store, and fails when there is no
     * improved prompt or the revision comes out blank.
     */
    method Approve(id: Option<string>, approved: bool, feedback: string) returns (status: nat)
      modifies this
      ensures !Known(old(sessions), id) ==> status == 400 && sessions == old(sessions)
      ensures Known(old(sessions), id) && approved ==>
        var s := old(sessions)[id.value];
        && status == 200
        && sessions == old(sessions)[id.value := s.(data := s.data.(promptApproved := true, finalPrompt := s.data.improvedPrompt))]
      ensures Known(old(sessions), id) && !approved ==>
        var d := old(sessions)[id.value].data;
        && sessions == old(sessions)
        && (status == 200 <==> d.improvedPrompt.Some? && !IsBlank(PromptRefiner.Adjusted(d.improvedPrompt.value, feedback)))
        && (status != 200 ==> status == 500)
    {
      if id.None? || id.value == "" || id.value !in sessions {
        return 400;
      }
      var s := sessions[id.value];
      if approved {
        s := s.(data := s.data.(promptApproved := true, finalPrompt := s.data.improvedPrompt));
        sessions := sessions[id.value := s];
        return 200;
      }
      if s.data.improvedPrompt.None? {
        return 500;
      }
      var revised := RunRevision(s.data.improvedPrompt.value, feedback);
      status := if revised then 200 else 500;
    }

    /**
     * `phase2_generate_questions`: the phase is written, then the approval is
     * checked; an approved session gets the questions for its final prompt
     * and its answers so far.
     */
    method Questions(id: Option<string>) returns (status: nat)
      modifies this
      ensures !Known(old(sessions), id) ==> status == 400 && sessions == old(sessions)
      ensures Known(old(sessions), id) ==>
        var s := old(sessions)[id.value];
        var stamped := s.(phase := Some(QuestioningPhase));
        && sessions.Keys == old(sessions).Keys
        && (forall k :: k in old(sessions) && k != id.value ==> sessions[k] == old(sessions)[k])
        && sessions[id.value].phase == Some(QuestioningPhase)
        && (!s.data.promptApproved ==> status == 400 && sessions[id.value] == stamped)
        && (s.data.promptApproved && s.data.finalPrompt.None? ==> status == 500 && sessions[id.value] == stamped)
        && (s.data.promptApproved && s.data.finalPrompt.Some? ==> status == 200)
        && (status != 200 ==> sessions[id.value] == stamped)
        && (status == 200 ==>
          (s.data.promptApproved && s.data.finalPrompt.Some?
           && sessions[id.value].data.questions.Some?
           && |sessions[id.value].data.questions.value| == |Questioning.Missing(s.data.finalPrompt.value, StoredAnswers(s.data))|
           && sessions[id.value] == stamped.(data := s.data.(questions := sessions[id.value].data.questions))))
    {
      if id.None? || id.value == "" || id.value !in sessions {
        return 400;
      }
      var s := sessions[id.value];
      s := s.(phase := Some(QuestioningPhase));
      sessions := sessions[id.value := s];
      if !s.data.promptApproved {
        return 400;
      }
      if s.data.finalPrompt.None? {
        return 500;
      }
      // The handler's exception branch cannot fire: the question templates always instantiate.
      var questions := RunQuestions(s.data.finalPrompt.value, StoredAnswers(s.data));
      s := s.(data := s.data.(questions := questions));
      sessions := sessions[id.value := s];
      status := 200;
    }

    /**
     * `phase2_submit_answer`: no phase guard; the answer is stored under its
     * question id beside the others and completeness is judged against the
     * stored questions, none when questions were never generated.
     */
    method SubmitAnswer(id: Option<string>, questionId: string, answer: Answer) returns (status: nat, allAnswered: bool)
      modifies this
      ensures !Known(old(sessions), id) ==> status == 400 && sessions == old(sessions)
      ensures Known(old(sessions), id) ==>
        var s := old(sessions)[id.value];
        var answers := StoredAnswers(s.data)[questionId := answer];
        var questions := if s.data.questions.Some? then s.data.questions.value else [];
        && status == 200
        && sessions == old(sessions)[id.value := s.(data := s.data.(answers := Some(answers)))]
        && allAnswered == Questioning.CheckCompleteness(questions, answers)
    {
      allAnswered := false;
      if id.None? || id.value == "" || id.value !in sessions {
        return 400, allAnswered;
      }
      var s := sessions[id.value];
      var answers := StoredAnswers(s.data)[questionId := answer];
      s := s.(data := s.data.(answers := Some(answers)));
      sessions := sessions[id.value := s];
      var questions := if s.data.questions.Some? then s.data.questions.value else [];
      allAnswered := Questioning.CheckCompleteness(questions, answers);
      status := 200;
    }

    /**
     * `phase3_narrative_analysis`: the phase is written, then the answers are
     * checked; a session with answers gets the narrative analysis of its final
     * prompt, which fails when there is no final prompt.
     */
    method Analyze(id: Option<string>) returns (status: nat)
      modifies this
      ensures !Known(old(sessions), id) ==> status == 400 && sessions == old(sessions)
      ensures Known(old(sessions), id) ==>
        var s := old(sessions)[id.value];
        var stamped := s.(phase := Some(NarrativePhase));
        && sessions.Keys == old(sessions).Keys
        && (forall k :: k in old(sessions) && k != id.value ==> sessions[k] == old(sessions)[k])
        && sessions[id.value].phase == Some(NarrativePhase)
        && (StoredAnswers(s.data) == map[] ==> status == 400 && sessions[id.value] == stamped)
        && (StoredAnswers(s.data) != map[] && s.data.finalPrompt.None? ==> status == 500 && sessions[id.value] == stamped)
        && (StoredAnswers(s.data) != map[] && s.data.finalPrompt.Some? ==>
              (status == 200 <==> !Narrative.AnalysisFails(s.data.finalPrompt.value, StoredAnswers(s.data))))
        && (status != 200 ==> sessions[id.value] == stamped)
        && (status == 200 ==>
          (StoredAnswers(s.data) != map[] && s.data.finalPrompt.Some?
           && sessions[id.value].data.narrative.Some?
           && sessions[id.value] == stamped.(data := s.data.(narrative := sessions[id.value].data.narrative))))
    {
      if id.None? || id.value == "" || id.value !in sessions {
        return 400;
      }
      var s := sessions[id.value];
      s := s.(phase := Some(NarrativePhase));
      sessions := sessions[id.value := s];
      if StoredAnswers(s.data) == map[] {
        return 400;
      }
      if s.data.finalPrompt.None? {
        return 500;
      }
      var analysis := RunAnalysis(s.data.finalPrompt.value, StoredAnswers(s.data), s.visual);
      if analysis.None? {
        return 500;
      }
      s := s.(data := s.data.(narrative := analysis));
      sessions := sessions[id.value := s];
      status := 200;
    }

    /**
     * `phase4_scene_planning`: the phase is written, then the narrative is
     * checked; a session with a narrative gets a scene plan for its final
     * prompt, which the output schema accepts.
     */
    method Plan(id: Option<string>) returns (status: nat)
      modifies this
      ensures !Known(old(sessions), id) ==> status == 400 && sessions == old(sessions)
      ensures Known(old(sessions), id) ==>
        var s := old(sessions)[id.value];
        var stamped := s.(phase := Some(PlanningPhase));
        && sessions.Keys == old(sessions).Keys
        && (forall k :: k in old(sessions) && k != id.value ==> sessions[k] == old(sessions)[k])
        && sessions[id.value].phase == Some(PlanningPhase)
        && (s.data.narrative.None? ==> status == 400 && sessions[id.value] == stamped)
        && (s.data.narrative.Some? && s.data.finalPrompt.None? ==> status == 500 && sessions[id.value] == stamped)
        && (status != 200 ==> sessions[id.value] == stamped)
        && (s.data.narrative.Some? && s.data.finalPrompt.Some? ==>
          (status == 200 <==> !ScenePlanning.PlanFails(StoredAnswers(s.data))))
        && (status == 200 ==>
          (s.data.narrative.Some? && s.data.finalPrompt.Some?
           && sessions[id.value].data.plan.Some? && ValidPlan(sessions[id.value].data.plan.value)
           && sessions[id.value] == stamped.(data := s.data.(plan := sessions[id.value].data.plan))))
    {
      if id.None? || id.value == "" || id.value !in sessions {
        return 400;
      }
      var s := sessions[id.value];
      s := s.(phase := Some(PlanningPhase));
      sessions := sessions[id.value := s];
      if s.data.narrative.None? {
        return 400;
      }
      if s.data.finalPrompt.None? {
        return 500;
      }
      var plan := RunPlan(s.data.finalPrompt.value, s.data.narrative.value, s.transcribed, StoredAnswers(s.data));
      if plan.None? {
        return 500;
      }
      s := s.(data := s.data.(plan := plan));
      sessions := sessions[id.value := s];
      status := 200;
    }
  }
}
