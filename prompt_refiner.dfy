/**
 * Phase 1: the prompt refiner.  It lists the ambiguities of a prompt, appends a
 * placeholder line per ambiguity, decides between accept and revise, and re-edits
 * an improved prompt from the user's feedback.
 */
module PromptRefiner {
  import opened Wrappers
  import opened Strings
  import opened Seqs
  import opened Schemas

  // ---------------------------------------------------------------- issue texts

  // Each text is written around the phrase by which the improver later recognises it,
  // and opens with a short piece so that its first letter is plain to see.
  /** The phrases the improver looks for in the lower-cased issue texts. */
  const TimingPhrase: string := "vague timing"
  const EmotionWords: string := "E" + "motional" + " descriptors"
  const EmotionPhrase: string := "e" + "motional" + " descriptors"
  const TechnicalPhrase: string := "technical" + " specifications"
  const DurationPhrase: string := "duration"
  const PlatformPhrase: string := "platform"
  const ActionPhrase: string := "vague action"

  const TimingIssue: string := "Contains " + TimingPhrase + " words that need specification"
  const EmotionIssue: string := EmotionWords + " are too generic - needs specificity"
  const TechnicalIssue: string := "Missing " + TechnicalPhrase + " (format, resolution," + " aspect ratio)"
  const DurationIssue: string := "No " + DurationPhrase + " or length constraints specified"
  const PlatformIssue: string := "Target " + PlatformPhrase + " not specified " + "(affects format" + " and style decisions)"
  const ActionIssue: string := "A" + "ction " + "verbs are " + "vague - needs " + "specific editing actions"
  const EmptyPromptIssue: string := "Empty prompt provided"

  /** The six checks, in the order they are made. */
  const AllIssues: seq<string> := [TimingIssue, EmotionIssue, TechnicalIssue, DurationIssue, PlatformIssue, ActionIssue]

  const VagueTiming: seq<string> := ["soon", "later", "eventually", "sometime", "at some point"]
  const VagueEmotions: seq<string> := ["good", "nice", "bad", "interesting", "emotional"]
  const TechnicalWords: seq<string> := ["format", "resolution", "aspect ratio"]
  const DurationWords: seq<string> := ["minute", "second", "hour", "length", "duration", "short", "long"]
  const Platforms: seq<string> := ["youtube", "tiktok", "instagram", "facebook", "twitter", "film", "cinema", "tv"]
  const VagueActions: seq<string> := ["make", "do", "create something", "fix", "improve"]
  const TechnicalTerms: seq<string> := ["transition", "color grade", "sound design", "b-roll", "montage"]

  lemma {:induction false} IssuesDistinct()
    ensures Distinct(AllIssues)
  {
    assert TimingIssue[0] == 'C' && EmotionIssue[0] == 'E' && TechnicalIssue[0] == 'M';
    assert DurationIssue[0] == 'N' && PlatformIssue[0] == 'T' && ActionIssue[0] == 'A';
  }

  /** The outcome of each of the six checks on a prompt, in table order. */
  function Checks(prompt: string): (c: seq<bool>)
    ensures |c| == 6
  {
    var l := Lower(prompt);
    [ ContainsAny(l, VagueTiming),
      ContainsAny(l, VagueEmotions),
      Contains(l, "video") && !ContainsAny(l, TechnicalWords),
      !ContainsAny(l, DurationWords),
      !ContainsAny(l, Platforms),
      ContainsAny(l, VagueActions) ]
  }

  /**
   * The issue list of a prompt: each check contributes its text exactly when its
   * condition holds on the lower-cased prompt, in table order.
   */
  predicate Diagnoses(prompt: string, issues: seq<string>)
  {
    var l := Lower(prompt);
    && Subsequence(issues, AllIssues)
    && (TimingIssue in issues <==> ContainsAny(l, VagueTiming))
    && (EmotionIssue in issues <==> ContainsAny(l, VagueEmotions))
    && (TechnicalIssue in issues <==> Contains(l, "video") && !ContainsAny(l, TechnicalWords))
    && (DurationIssue in issues <==> !ContainsAny(l, DurationWords))
    && (PlatformIssue in issues <==> !ContainsAny(l, Platforms))
    && (ActionIssue in issues <==> ContainsAny(l, VagueActions))
  }

  /** At most six issues, none twice, and the prompt decides them. */
  lemma {:induction false} DiagnosesDetermined(prompt: string, a: seq<string>, b: seq<string>)
    requires Diagnoses(prompt, a) && Diagnoses(prompt, b)
    ensures a == b
    ensures |a| <= 6 && Distinct(a)
  {
    IssuesDistinct();
    SubsequenceMembers(a, AllIssues);
    SubsequenceMembers(b, AllIssues);
    SubsequenceUnique(a, b, AllIssues);
    SubsequenceLength(a, AllIssues);
    SubsequenceDistinct(a, AllIssues);
  }

  // ---------------------------------------------------------------- analysis

  datatype Analysis = Analysis(issues: seq<string>, originalLength: nat, complexity: nat)

  function CountPresent(s: string, terms: seq<string>): (n: nat)
    ensures n <= |terms|
  {
    if terms == [] then 0
    else (if Contains(s, terms[0]) then 1 else 0) + CountPresent(s, terms[1..])
  }

  /** One point per ten words and per technical term named, capped at ten. */
  function Complexity(prompt: string): (score: nat)
    ensures score <= 10
    ensures score >= if |Words(prompt)| / 10 < 10 then |Words(prompt)| / 10 else 10
    ensures score < 10 ==> score <= |Words(prompt)| / 10 + |TechnicalTerms|
  {
    var score := |Words(prompt)| / 10 + CountPresent(Lower(prompt), TechnicalTerms);
    if score < 10 then score else 10
  }

  /** A prompt of fewer than ten words scores the number of technical terms it names. */
  lemma {:induction false} ShortPromptComplexity(prompt: string)
    requires |Words(prompt)| < 10
    ensures Complexity(prompt) == CountPresent(Lower(prompt), TechnicalTerms) <= 5
  {
  }

  /** The first `k` checks have been made, with the outcomes `flags`. */
  ghost predicate FoundUpTo(issues: seq<string>, flags: seq<bool>, k: nat)
    requires |flags| == 6 && k <= 6
  {
    && Subsequence(issues, AllIssues[..k])
    && forall j :: 0 <= j < 6 ==> (AllIssues[j] in issues <==> j < k && flags[j])
  }

  lemma {:induction false} FoundNothing(flags: seq<bool>)
    requires |flags| == 6
    ensures FoundUpTo([], flags, 0)
  {
    SubsequenceEmpty(AllIssues[..0]);
  }

  lemma {:induction false} FoundStep(issues: seq<string>, flags: seq<bool>, k: nat, found: bool, text: string)
    requires |flags| == 6 && k < 6 && FoundUpTo(issues, flags, k)
    requires flags[k] == found && AllIssues[k] == text
    ensures FoundUpTo(issues + (if found then [text] else []), flags, k + 1)
  {
    IssuesDistinct();
    SubsequenceExtend(issues, AllIssues[..k], AllIssues[k]);
    assert AllIssues[..k + 1] == AllIssues[..k] + [AllIssues[k]];
    var next := issues + (if found then [text] else []);
    if found {
      assert Subsequence(next, AllIssues[..k + 1]);
    } else {
      assert next == issues;
      assert Subsequence(next, AllIssues[..k + 1]);
    }
    forall j | 0 <= j < 6
      ensures AllIssues[j] in next <==> j < k + 1 && flags[j]
    {
      if j != k {
        assert AllIssues[j] != AllIssues[k];
      }
    }
  }

  /** The issue texts whose check came out true, in table order. */
  function Picked(c: seq<bool>): seq<string>
    requires |c| == 6
  {
    (if c[0] then [TimingIssue] else []) + (if c[1] then [EmotionIssue] else [])
    + (if c[2] then [TechnicalIssue] else []) + (if c[3] then [DurationIssue] else [])
    + (if c[4] then [PlatformIssue] else []) + (if c[5] then [ActionIssue] else [])
  }

  lemma {:induction false} PickedFound(c: seq<bool>)
    requires |c| == 6
    ensures FoundUpTo(Picked(c), c, 6)
  {
    FoundNothing(c);
    var p0 := if c[0] then [TimingIssue] else [];
    FoundStep([], c, 0, c[0], TimingIssue);
    assert [] + p0 == p0;
    var p1 := p0 + if c[1] then [EmotionIssue] else [];
    FoundStep(p0, c, 1, c[1], EmotionIssue);
    var p2 := p1 + if c[2] then [TechnicalIssue] else [];
    FoundStep(p1, c, 2, c[2], TechnicalIssue);
    var p3 := p2 + if c[3] then [DurationIssue] else [];
    FoundStep(p2, c, 3, c[3], DurationIssue);
    var p4 := p3 + if c[4] then [PlatformIssue] else [];
    FoundStep(p3, c, 4, c[4], PlatformIssue);
    FoundStep(p4, c, 5, c[5], ActionIssue);
  }

  /** The picked issue texts are exactly the diagnosis of the prompt. */
  lemma {:induction false} PickedDiagnoses(prompt: string)
    ensures Diagnoses(prompt, Picked(Checks(prompt)))
  {
    var c := Checks(prompt);
    var issues := Picked(c);
    PickedFound(c);
    assert AllIssues[..6] == AllIssues;
    assert AllIssues[0] in issues <==> c[0];
    assert AllIssues[1] in issues <==> c[1];
    assert AllIssues[2] in issues <==> c[2];
    assert AllIssues[3] in issues <==> c[3];
    assert AllIssues[4] in issues <==> c[4];
    assert AllIssues[5] in issues <==> c[5];
  }

  /** `analyze_prompt`: the six checks, each appending its issue text. */
  method AnalyzePrompt(prompt: string) returns (a: Analysis)
    ensures Diagnoses(prompt, a.issues)
    ensures a.originalLength == |prompt| && a.complexity == Complexity(prompt)
  {
    var lower := Lower(prompt);
    var timing := ContainsAny(lower, VagueTiming);
    var emotion := ContainsAny(lower, VagueEmotions);
    var technical := Contains(lower, "video") && !ContainsAny(lower, TechnicalWords);
    var duration := !ContainsAny(lower, DurationWords);
    var platform := !ContainsAny(lower, Platforms);
    var action := ContainsAny(lower, VagueActions);
    // Each check appends its text when it fires.
    var issues: seq<string> := if timing then [TimingIssue] else [];
    issues := issues + (if emotion then [EmotionIssue] else []);
    issues := issues + (if technical then [TechnicalIssue] else []);
    issues := issues + (if duration then [DurationIssue] else []);
    issues := issues + (if platform then [PlatformIssue] else []);
    issues := issues + (if action then [ActionIssue] else []);
    var c := Checks(prompt);
    assert c[0] == timing && c[1] == emotion && c[2] == technical;
    assert c[3] == duration && c[4] == platform && c[5] == action;
    assert issues == Picked(c);
    PickedDiagnoses(prompt);
    a := Analysis(issues, |prompt|, Complexity(prompt));
  }

  // ---------------------------------------------------------------- improvement

  /** Python's `phrase in str(issues).lower()`, read issue by issue. */
  predicate Mentioned(issues: seq<string>, phrase: string)
  {
    issues != [] && (Contains(Lower(issues[0]), phrase) || Mentioned(issues[1..], phrase))
  }

  datatype Addition = Addition(phrase: string, line: string, note: string)

  const TimingLine: string := "\n- Timing: Specific timestamps or sequence to be defined"
  const EmotionLine: string := "\n- Emotional tone: [Specify exact emotion - e.g., melancholic, triumphant, suspenseful]"
  const TechnicalLine: string := "\n- Technical: [Format: 16:9/9:16/1:1], [Resolution: 1080p/4K], [Frame rate if relevant]"
  const DurationLine: string := "\n- Duration: [Target length - e.g., 30 seconds, 2 minutes, feature length]"
  const PlatformLine: string := "\n- Platform: [YouTube/TikTok/Instagram/Film/etc.] - affects pacing and format"
  const QualityLine: string := "\n- Quality: Professional cinematic standards with attention to pacing, audio sync, and visual flow"

  const TimingNote: string := "Added timing specification placeholder"
  const EmotionNote: string := "Requested specific emotional tone clarification"
  const TechnicalNote: string := "Added technical specification section"
  const DurationNote: string := "Added duration constraint placeholder"
  const PlatformNote: string := "Added platform specification for format decisions"
  const ActionNote: string := "Replaced vague action verbs with specific editing terminology"
  const QualityNote: string := "Added quality standards specification"

  /** The placeholder lines, in the order they are appended. */
  const Additions: seq<Addition> := [
    Addition(TimingPhrase, TimingLine, TimingNote),
    Addition(EmotionPhrase, EmotionLine, EmotionNote),
    Addition(TechnicalPhrase, TechnicalLine, TechnicalNote),
    Addition(DurationPhrase, DurationLine, DurationNote),
    Addition(PlatformPhrase, PlatformLine, PlatformNote)]

  /** Which of the five table phrases the issues mention, in table order. */
  function Mentions(issues: seq<string>): (m: seq<bool>)
    ensures |m| == 5
  {
    [ Mentioned(issues, TimingPhrase),
      Mentioned(issues, EmotionPhrase),
      Mentioned(issues, TechnicalPhrase),
      Mentioned(issues, DurationPhrase),
      Mentioned(issues, PlatformPhrase) ]
  }

  /** `head` followed by the lines of the first `k` table entries marked in `m`, in table order. */
  function WithLines(head: string, m: seq<bool>, k: nat): string
    requires |m| == |Additions| && k <= |Additions|
  {
    if k == 0 then head
    else WithLines(head, m, k - 1) + (if m[k - 1] then Additions[k - 1].line else "")
  }

  function AddedNotes(m: seq<bool>, k: nat): (notes: seq<string>)
    requires |m| == |Additions| && k <= |Additions|
    ensures |notes| <= k
  {
    if k == 0 then []
    else AddedNotes(m, k - 1) + (if m[k - 1] then [Additions[k - 1].note] else [])
  }

  const Markers: seq<string> := ["Goal:", "Objective:", "I want to"]

  /** The stripped prompt, given a "Goal: " heading with a capital unless it already states its goal. */
  function Header(s: string): string
    requires s != []
  {
    if ContainsAny(s, Markers) then s else "Goal: " + [UpperChar(s[0])] + s[1..]
  }

  const FootageEdit: string := "edit raw footage into a cinematic sequence"
  const NarrativeEdit: string := "produce a narrative-driven edit"

  function Reworded(s: string): string
  {
    ReplaceAll(ReplaceAll(s, "make a video", FootageEdit), "create something", NarrativeEdit)
  }

  datatype Improvement = Improvement(prompt: string, notes: seq<string>)

  /** The improved prompt as a table lookup: heading, mentioned lines, rewording, quality line. */
  function Improved(head: string, a: Analysis): Improvement
  {
    var m := Mentions(a.issues);
    var body := WithLines(head, m, 5);
    var action := Mentioned(a.issues, ActionPhrase);
    var quality := a.complexity > 3;
    Improvement(
      (if action then Reworded(body) else body) + (if quality then QualityLine else ""),
      AddedNotes(m, 5) + (if action then [ActionNote] else []) + (if quality then [QualityNote] else []))
  }

  /**
   * `improve_prompt`: the working string is reassigned once per applicable issue.
   * A blank prompt fails: the source indexes its first character.
   */
  method ImprovePrompt(prompt: string, analysis: Analysis) returns (r: Result<Improvement, string>)
    ensures r.Err? <==> IsBlank(prompt)
    ensures r.Ok? ==> Strip(prompt) != [] && r.value == Improved(Header(Strip(prompt)), analysis)
  {
    StripEmptyIffBlank(prompt);
    var issues := analysis.issues;
    var heading := Heading(Strip(prompt));
    if heading.Err? {
      return Err(heading.error);
    }
    var improved := heading.value;
    var notes;
    improved, notes := AppendPlaceholders(improved, issues);
    var action := Mentioned(issues, ActionPhrase);
    improved := if action then ReplaceAll(ReplaceAll(improved, "make a video", FootageEdit), "create something", NarrativeEdit) else improved;
    notes := notes + (if action then [ActionNote] else []);
    var quality := analysis.complexity > 3;
    improved := improved + (if quality then QualityLine else "");
    notes := notes + (if quality then [QualityNote] else []);
    return Ok(Improvement(improved, notes));
  }

  /**
   * The structure step of `improve_prompt`: a stripped prompt without a goal marker gets a
   * "Goal: " heading, which reads its first character and so fails on an empty string.
   */
  method Heading(s: string) returns (r: Result<string, string>)
    ensures r.Err? <==> s == []
    ensures r.Ok? ==> r.value == Header(s)
  {
    NoneInEmpty(Markers);
    if ContainsAny(s, Markers) {
      return Ok(s);
    }
    if s == [] {
      return Err("IndexError: string index out of range");
    }
    return Ok("Goal: " + [UpperChar(s[0])] + s[1..]);
  }

  /** The five placeholder checks of `improve_prompt`, in source order. */
  method AppendPlaceholders(head: string, issues: seq<string>) returns (body: string, notes: seq<string>)
    ensures body == WithLines(head, Mentions(issues), 5)
    ensures notes == AddedNotes(Mentions(issues), 5)
  {
    ghost var m := Mentions(issues);
    body := head;
    notes := [];
    assert body == WithLines(head, m, 0) && notes == AddedNotes(m, 0);
    var timing := Mentioned(issues, TimingPhrase);
    body := body + (if timing then TimingLine else "");
    notes := notes + (if timing then [TimingNote] else []);
    assert body == WithLines(head, m, 1) && notes == AddedNotes(m, 1);
    var emotion := Mentioned(issues, EmotionPhrase);
    body := body + (if emotion then EmotionLine else "");
    notes := notes + (if emotion then [EmotionNote] else []);
    assert body == WithLines(head, m, 2) && notes == AddedNotes(m, 2);
    var technical := Mentioned(issues, TechnicalPhrase);
    body := body + (if technical then TechnicalLine else "");
    notes := notes + (if technical then [TechnicalNote] else []);
    assert body == WithLines(head, m, 3) && notes == AddedNotes(m, 3);
    var duration := Mentioned(issues, DurationPhrase);
    body := body + (if duration then DurationLine else "");
    notes := notes + (if duration then [DurationNote] else []);
    assert body == WithLines(head, m, 4) && notes == AddedNotes(m, 4);
    var platform := Mentioned(issues, PlatformPhrase);
    body := body + (if platform then PlatformLine else "");
    notes := notes + (if platform then [PlatformNote] else []);
  }

  lemma {:induction false} MentionedVia(issues: seq<string>, i: nat, a: string, word: string, b: string)
    requires i < |issues| && issues[i] == a + word + b
    ensures Mentioned(issues, Lower(word))
  {
    if i == 0 {
      LowerAppend(a + word, b);
      LowerAppend(a, word);
      ContainsMiddle(Lower(a), Lower(word), Lower(b));
    } else {
      MentionedVia(issues[1..], i - 1, a, word, b);
    }
  }

  lemma {:induction false} TimingMentioned(issues: seq<string>, i: nat)
    requires i < |issues| && issues[i] == TimingIssue
    ensures Mentioned(issues, TimingPhrase)
  {
    MentionedVia(issues, i, "Contains ", TimingPhrase, " words that need specification");
    assert Lower("vague timing") == "vague timing";
  }

  lemma {:induction false} EmotionMentioned(issues: seq<string>, i: nat)
    requires i < |issues| && issues[i] == EmotionIssue
    ensures Mentioned(issues, EmotionPhrase)
  {
    MentionedVia(issues, i, "", EmotionWords, " are too generic - needs specificity");
    LowerAppend("E" + "motional", " descriptors");
    LowerAppend("E", "motional");
    assert Lower("E") == "e";
    assert Lower("motional") == "motional";
    assert Lower(" descriptors") == " descriptors";
  }

  lemma {:induction false} TechnicalMentioned(issues: seq<string>, i: nat)
    requires i < |issues| && issues[i] == TechnicalIssue
    ensures Mentioned(issues, TechnicalPhrase)
  {
    MentionedVia(issues, i, "Missing ", TechnicalPhrase, " (format, resolution," + " aspect ratio)");
    LowerAppend("technical", " specifications");
    assert Lower("technical") == "technical";
    assert Lower(" specifications") == " specifications";
  }

  lemma {:induction false} DurationMentioned(issues: seq<string>, i: nat)
    requires i < |issues| && issues[i] == DurationIssue
    ensures Mentioned(issues, DurationPhrase)
  {
    MentionedVia(issues, i, "No ", DurationPhrase, " or length constraints specified");
    assert Lower("duration") == "duration";
  }

  lemma {:induction false} PlatformMentioned(issues: seq<string>, i: nat)
    requires i < |issues| && issues[i] == PlatformIssue
    ensures Mentioned(issues, PlatformPhrase)
  {
    MentionedVia(issues, i, "Target ", PlatformPhrase, " not specified " + "(affects format" + " and style decisions)");
    assert Lower("platform") == "platform";
  }

  /** Each of the first five issue texts carries the phrase the improver looks for. */
  lemma {:induction false} IssueMentionsPhrase(issues: seq<string>, k: nat)
    requires k < 5 && AllIssues[k] in issues
    ensures Mentions(issues)[k]
  {
    var i :| 0 <= i < |issues| && issues[i] == AllIssues[k];
    if k == 0 {
      TimingMentioned(issues, i);
    } else if k == 1 {
      EmotionMentioned(issues, i);
    } else if k == 2 {
      TechnicalMentioned(issues, i);
    } else if k == 3 {
      DurationMentioned(issues, i);
    } else {
      PlatformMentioned(issues, i);
    }
  }

  lemma {:induction false} WithLinesContain(head: string, m: seq<bool>, n: nat, k: nat)
    requires |m| == |Additions| && k < n <= |Additions| && m[k]
    ensures Contains(WithLines(head, m, n), Additions[k].line)
    ensures Additions[k].note in AddedNotes(m, n)
  {
    var last := if m[n - 1] then Additions[n - 1].line else "";
    if k == n - 1 {
      ContainsSuffix(WithLines(head, m, n - 1), Additions[k].line);
    } else {
      WithLinesContain(head, m, n - 1, k);
      ContainsInLeft(WithLines(head, m, n - 1), last, Additions[k].line);
    }
  }

  /** An issue text without a "v" in either case does not mention the vague-action phrase. */
  lemma {:induction false} NoVNoActionPhrase(issue: string)
    requires 'v' !in issue && 'V' !in issue
    ensures !Contains(Lower(issue), ActionPhrase)
  {
    LowerMissing(issue, 'v');
    MissingCharNotContained(Lower(issue), ActionPhrase, 0);
  }

  lemma {:induction false} EmotionLacksActionPhrase()
    ensures !Contains(Lower(EmotionIssue), ActionPhrase)
  {
    NoVNoActionPhrase(EmotionIssue);
  }

  lemma {:induction false} TechnicalLacksActionPhrase()
    ensures !Contains(Lower(TechnicalIssue), ActionPhrase)
  {
    NoVNoActionPhrase(TechnicalIssue);
  }

  lemma {:induction false} DurationLacksActionPhrase()
    ensures !Contains(Lower(DurationIssue), ActionPhrase)
  {
    NoVNoActionPhrase(DurationIssue);
  }

  lemma {:induction false} PlatformLacksActionPhrase()
    ensures !Contains(Lower(PlatformIssue), ActionPhrase)
  {
    NoVNoActionPhrase(PlatformIssue);
  }

  /**
   * A text whose only "v" is followed, five characters on, by anything but an
   * "a" does not contain "vague action" once lowercased.
   */
  lemma {:induction false} SingleVLacksActionPhrase(pre: string, rest: string)
    requires 'v' !in pre && 'V' !in pre && 'v' !in rest && 'V' !in rest
    requires |rest| > 5 && rest[5] != 'a' && rest[5] != 'A'
    ensures Lower(pre + "v" + rest) == Lower(pre) + [ActionPhrase[0]] + Lower(rest)
    ensures !Contains(Lower(pre + "v" + rest), ActionPhrase)
  {
    LowerAppend(pre + "v", rest);
    LowerAppend(pre, "v");
    assert Lower("v") == [ActionPhrase[0]];
    LowerMissing(pre, 'v');
    NoVNoActionPhrase(rest);
    assert ([ActionPhrase[0]] + Lower(rest))[6] != ActionPhrase[6];
    AnchorNotContained(Lower(pre), Lower(rest), ActionPhrase);
  }

  /** The timing issue's only "v" starts "vague timing". */
  lemma {:induction false} TimingLacksActionPhrase()
    ensures !Contains(Lower(TimingIssue), ActionPhrase)
  {
    var rest := "ague timing" + " words that need specification";
    assert TimingPhrase == "v" + "ague timing";
    assert TimingIssue == "Contains " + "v" + rest;
    SingleVLacksActionPhrase("Contains ", rest);
  }

  /** After the "v" of "verbs", the action issue's only "v" starts "vague -". */
  lemma {:induction false} ActionTailLacksActionPhrase(verbs: string, vague: string)
    requires verbs == "erbs are " && vague == "ague - needs " + "specific editing actions"
    ensures Lower(verbs + "v" + vague) == Lower(verbs) + [ActionPhrase[0]] + Lower(vague)
    ensures !Contains(Lower(verbs + "v" + vague), ActionPhrase)
  {
    SingleVLacksActionPhrase(verbs, vague);
  }

  /** The action issue's two "v"s start "verbs" and "vague -". */
  lemma {:induction false} ActionLacksActionPhrase()
    ensures !Contains(Lower(ActionIssue), ActionPhrase)
  {
    var verbs, vague := "erbs are ", "ague - needs " + "specific editing actions";
    assert "verbs are " == "v" + verbs && "vague - needs " == "v" + "ague - needs ";
    assert ActionIssue == "Action " + "v" + (verbs + "v" + vague);
    ActionTailLacksActionPhrase(verbs, vague);
    var tail := Lower(verbs + "v" + vague);
    LowerAppend("Action " + "v", verbs + "v" + vague);
    LowerAppend("Action ", "v");
    assert Lower("v") == [ActionPhrase[0]];
    LowerMissing("Action ", 'v');
    assert ([ActionPhrase[0]] + tail)[1] != ActionPhrase[1];
    AnchorNotContained(Lower("Action "), tail, ActionPhrase);
  }

  /** No issue text of the analysis, lowercased, contains "vague action". */
  lemma {:induction false} IssuesLackActionPhrase()
    ensures forall x :: x in AllIssues ==> !Contains(Lower(x), ActionPhrase)
  {
    EmotionLacksActionPhrase();
    TechnicalLacksActionPhrase();
    DurationLacksActionPhrase();
    PlatformLacksActionPhrase();
    TimingLacksActionPhrase();
    ActionLacksActionPhrase();
  }

  lemma {:induction false} NotMentioned(issues: seq<string>, phrase: string)
    requires forall x :: x in issues ==> !Contains(Lower(x), phrase)
    ensures !Mentioned(issues, phrase)
    decreases |issues|
  {
    if issues != [] {
      assert issues[0] in issues;
      assert forall x :: x in issues[1..] ==> x in issues;
      NotMentioned(issues[1..], phrase);
    }
  }

  /**
   * The issues of an analysis never mention "vague action", so the rewording
   * step of the improver never fires on them.
   */
  lemma {:induction false} NoActionMention(prompt: string, issues: seq<string>)
    requires Diagnoses(prompt, issues)
    ensures !Mentioned(issues, ActionPhrase)
  {
    IssuesLackActionPhrase();
    SubsequenceMembers(issues, AllIssues);
    NotMentioned(issues, ActionPhrase);
  }

  /**
   * For an issue list of the analysis, every detected timing, emotion, technical,
   * duration or platform issue puts its placeholder line and its note into the result.
   */
  lemma {:induction false} DetectedIssueAddsLine(prompt: string, head: string, a: Analysis, k: nat)
    requires Diagnoses(prompt, a.issues) && k < 5 && AllIssues[k] in a.issues
    ensures Contains(Improved(head, a).prompt, Additions[k].line)
    ensures Additions[k].note in Improved(head, a).notes
  {
    NoActionMention(prompt, a.issues);
    IssueMentionsPhrase(a.issues, k);
    var m := Mentions(a.issues);
    WithLinesContain(head, m, 5, k);
    var body := WithLines(head, m, 5);
    ContainsInLeft(body, if a.complexity > 3 then QualityLine else "", Additions[k].line);
  }

  lemma {:induction false} WithLinesStart(head: string, m: seq<bool>, k: nat)
    requires head != [] && |m| == |Additions| && k <= |Additions|
    ensures WithLines(head, m, k) != [] && WithLines(head, m, k)[0] == head[0]
  {
    if k > 0 {
      WithLinesStart(head, m, k - 1);
    }
  }

  lemma {:induction false} HeaderStartsSolid(s: string)
    requires s != [] && !IsSpace(s[0])
    ensures Header(s) != [] && !IsSpace(Header(s)[0])
  {
  }

  /** A head that starts with a visible character gives an improved prompt that does too. */
  lemma {:induction false} ImprovedStartsSolid(head: string, a: Analysis)
    requires head != [] && !IsSpace(head[0])
    ensures var p := Improved(head, a).prompt; p != [] && !IsSpace(p[0])
  {
    var body := WithLines(head, Mentions(a.issues), 5);
    WithLinesStart(head, Mentions(a.issues), 5);
    assert FootageEdit[0] == 'e' && NarrativeEdit[0] == 'p';
    ReplaceKeepsSolidStart(body, "make a video", FootageEdit);
    ReplaceKeepsSolidStart(ReplaceAll(body, "make a video", FootageEdit), "create something", NarrativeEdit);
  }

  // ---------------------------------------------------------------- refine

  /**
   * `refine`: a blank prompt gives the fixed empty answer; otherwise the analysed and
   * improved prompt, to be revised when more than two issues were found.
   */
  method Refine(prompt: string) returns (r: Refinement)
    ensures IsBlank(prompt) ==> r == Refinement("", "", [EmptyPromptIssue], [], "revise")
    ensures !IsBlank(prompt) ==>
      && r.original == prompt
      && Diagnoses(prompt, r.issues)
      && (r.action == "revise" <==> |r.issues| > 2)
      && (r.action == "revise" || r.action == "accept")
      && Strip(prompt) != []
      && Improvement(r.improved, r.improvements)
         == Improved(Header(Strip(prompt)), Analysis(r.issues, |prompt|, Complexity(prompt)))
    ensures ValidateRefinement(r) <==> !IsBlank(prompt)
  {
    if prompt == [] || IsBlank(prompt) {
      r := Refinement("", "", [EmptyPromptIssue], [], "revise");
      assert IsBlank(r.improved);
      return;
    }
    var analysis := AnalyzePrompt(prompt);
    var result := ImprovePrompt(prompt, analysis);
    var improvement := result.value;
    var needsRevision := |analysis.issues| > 2;
    r := Refinement(prompt, improvement.prompt, analysis.issues, improvement.notes,
      if needsRevision then "revise" else "accept");
    StripStartsSolid(prompt);
    HeaderStartsSolid(Strip(prompt));
    ImprovedStartsSolid(Header(Strip(prompt)), analysis);
  }

  // ---------------------------------------------------------------- feedback

  const StyleLine: string := "\n- " + "Style:" + " [Cinematic approach - documentary, narrative, experimental, etc.]"
  const AudioLine: string := "\n- " + "Audio:" + " [Music style, voice-over needs, sound design requirements]"
  const FeedbackNote: string := "Adjusted based on user feedback"
  const TechnicalMarker: string := "\n- Technical:"
  const DurationMarker: string := "\n- Duration:"

  /** 'too long' / 'verbose': only the first line is kept. */
  function Shortened(p: string, feedback: string): string
  {
    var f := Lower(feedback);
    if Contains(f, "too long") || Contains(f, "verbose") then Split(p, '\n')[0] else p
  }

  /** 'too technical' / 'simple': the technical and duration placeholder lines are removed. */
  function Simplified(p: string, feedback: string): string
  {
    var f := Lower(feedback);
    if Contains(f, "too technical") || Contains(f, "simple") then
      DropMarkedLines(DropMarkedLines(p, TechnicalMarker), DurationMarker)
    else p
  }

  /** 'more detail' / 'elaborate': style and audio lines are appended where missing. */
  function Elaborated(p: string, feedback: string): string
  {
    var f := Lower(feedback);
    if Contains(f, "more detail") || Contains(f, "elaborate") then
      var q := if Contains(p, "Style:") then p else p + StyleLine;
      if Contains(q, "Audio:") then q else q + AudioLine
    else p
  }

  function Adjusted(previous: string, feedback: string): string
  {
    Elaborated(Simplified(Shortened(previous, feedback), feedback), feedback)
  }

  datatype Revision = Revision(refinement: Refinement, feedback: string)

  /**
   * `refine_with_feedback`: the previous improved prompt is edited step by step, then
   * analysed again and always offered for acceptance.  It fails as the improver does
   * when the edited prompt is blank.
   */
  method RefineWithFeedback(original: string, previous: string, feedback: string)
    returns (r: Result<Revision, string>)
    ensures r.Err? <==> IsBlank(Adjusted(previous, feedback))
    ensures r.Ok? ==>
      var v := r.value.refinement;
      && v.original == original
      && v.improved == Adjusted(previous, feedback)
      && Diagnoses(v.improved, v.issues)
      && v.action == "accept"
      && |v.improvements| >= 1 && v.improvements[0] == FeedbackNote
      && Strip(v.improved) != []
      && v.improvements[1..]
         == Improved(Header(Strip(v.improved)), Analysis(v.issues, |v.improved|, Complexity(v.improved))).notes
      && r.value.feedback == feedback
  {
    var adjusted := AdjustPrompt(previous, feedback);
    var analysis := AnalyzePrompt(adjusted);
    var improved := ImprovePrompt(adjusted, analysis);
    if improved.Err? {
      return Err(improved.error);
    }
    var v := Refinement(adjusted, adjusted, analysis.issues, [FeedbackNote] + improved.value.notes, "accept");
    r := Ok(Revision(v.(original := original), feedback));
  }

  /** The feedback edits of `refine_with_feedback`, applied in turn to the previous prompt. */
  method AdjustPrompt(previous: string, feedback: string) returns (adjusted: string)
    ensures adjusted == Adjusted(previous, feedback)
  {
    var feedbackLower := Lower(feedback);
    adjusted := previous;
    if Contains(feedbackLower, "too long") || Contains(feedbackLower, "verbose") {
      var lines := Split(adjusted, '\n');
      adjusted := lines[0];
    }
    if Contains(feedbackLower, "too technical") || Contains(feedbackLower, "simple") {
      adjusted := DropMarkedLines(adjusted, TechnicalMarker);
      adjusted := DropMarkedLines(adjusted, DurationMarker);
    }
    if Contains(feedbackLower, "more detail") || Contains(feedbackLower, "elaborate") {
      if !Contains(adjusted, "Style:") {
        adjusted := adjusted + StyleLine;
      }
      if !Contains(adjusted, "Audio:") {
        adjusted := adjusted + AudioLine;
      }
    }
  }

  /**
   * "too long" or "verbose" feedback keeps the whole first line of the prompt:
   * a prefix without line breaks that ends at the first one or at the end;
   * other feedback keeps the prompt.
   */
  lemma {:induction false} ShortenedIsFirstLine(p: string, feedback: string)
    ensures var f := Lower(feedback); var r := Shortened(p, feedback);
      if Contains(f, "too long") || Contains(f, "verbose") then
        && r <= p && '\n' !in r
        && (|r| == |p| || p[|r|] == '\n')
      else r == p
  {
    SplitFirstPrefix(p, '\n');
  }

  /**
   * "too technical" or "simple" feedback leaves no technical and no duration
   * placeholder line, and a prompt holding neither marker is kept as it is.
   */
  lemma {:induction false} SimplifiedHasNoPlaceholders(p: string, feedback: string)
    requires Contains(Lower(feedback), "too technical") || Contains(Lower(feedback), "simple")
    ensures !Contains(Simplified(p, feedback), TechnicalMarker)
    ensures !Contains(Simplified(p, feedback), DurationMarker)
    ensures !Contains(p, TechnicalMarker) && !Contains(p, DurationMarker) ==> Simplified(p, feedback) == p
  {
    assert LineMarker(TechnicalMarker) && LineMarker(DurationMarker);
    var once := DropMarkedLines(p, TechnicalMarker);
    DropMarkedLinesAbsent(p, TechnicalMarker, TechnicalMarker);
    DropMarkedLinesAbsent(once, DurationMarker, TechnicalMarker);
    DropMarkedLinesAbsent(once, DurationMarker, DurationMarker);
    if !Contains(p, TechnicalMarker) && !Contains(p, DurationMarker) {
      DropUnmarked(p, TechnicalMarker);
      DropUnmarked(p, DurationMarker);
    }
  }

  /** Elaborating adds style and audio sections, and elaborating again changes nothing. */
  lemma {:induction false} ElaboratedIdempotent(p: string, feedback: string)
    requires Contains(Lower(feedback), "elaborate")
    ensures Contains(Elaborated(p, feedback), "Style:") && Contains(Elaborated(p, feedback), "Audio:")
    ensures Elaborated(Elaborated(p, feedback), feedback) == Elaborated(p, feedback)
  {
    ContainsMiddle("\n- ", "Style:", " [Cinematic approach - documentary, narrative, experimental, etc.]");
    ContainsMiddle("\n- ", "Audio:", " [Music style, voice-over needs, sound design requirements]");
    var q := if Contains(p, "Style:") then p else p + StyleLine;
    if !Contains(p, "Style:") {
      ContainsInRight(p, StyleLine, "Style:");
    }
    if !Contains(q, "Audio:") {
      ContainsInLeft(q, AudioLine, "Style:");
      ContainsInRight(q, AudioLine, "Audio:");
    }
  }

  /** Feedback naming none of the triggers leaves the prompt as it was. */
  lemma {:induction false} NeutralFeedbackKeepsPrompt(p: string, feedback: string)
    requires var f := Lower(feedback);
      !Contains(f, "too long") && !Contains(f, "verbose") && !Contains(f, "too technical")
      && !Contains(f, "simple") && !Contains(f, "more detail") && !Contains(f, "elaborate")
    ensures Adjusted(p, feedback) == p
  {
  }
}
