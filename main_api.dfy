/**
  The backend's HTTP handlers that hold logic of their own: the upload
  pipeline (validate, save, extract, analyse, match, recommend, clean up),
  the cleaning of AI suggestion lines, and the choice of prompt for
  suggestions and for resume optimisation. Each AI call is a function from
  the prompt's input to an optional reply (None: the call raised).
*/
module MainApi {
  import opened Wrappers
  import opened Text
  import opened Json
  import opened Foreign
  import opened JobMatcher
  import opened ResumeAnalyzer
  import opened FileHandler

  /** A handler's outcome: a JSON body, or an `HTTPException` with its status. */
  datatype HttpResult<T> = Ok(body: T) | HttpError(status: nat)

  // ---------------------------------------------------------------------
  // POST /api/upload
  // ---------------------------------------------------------------------

  /** The multipart form of an upload. */
  datatype UploadForm = UploadForm(
    filename: Option<string>, content: seq<byte>,
    jobTitle: string, company: string, jobDescription: string)

  /** The three AI replies an upload obtains, in call order. */
  datatype UploadReplies = UploadReplies(
    analysis: Option<string>, matching: Option<string>, recommendations: Option<string>)

  /** The four-key body of a successful upload. */
  datatype UploadBody = UploadBody(
    resumeAnalysis: Analysis, jobMatching: MatchReport,
    recommendations: seq<string>, originalResume: Option<string>)

  /** The body a valid upload yields, from the text extracted from the saved file. */
  function UploadResult(o: Oracles, text: Option<string>, jobDescription: string, replies: UploadReplies)
    : (r: UploadBody)
    requires text.Some?
    ensures r.originalResume == text
    ensures r.resumeAnalysis == AnalyzeResume(o, text, replies.analysis)
    ensures r.jobMatching == MatchJob(o, text, jobDescription, replies.matching)
    ensures r.recommendations == Recommendations(o, text.value, jobDescription, replies.recommendations)
    ensures r.resumeAnalysis.Analyzed? && r.jobMatching.Matched? && 1 <= |r.recommendations| <= 5
  {
    UploadBody(AnalyzeResume(o, text, replies.analysis), MatchJob(o, text, jobDescription, replies.matching),
               Recommendations(o, text.value, jobDescription, replies.recommendations), text)
  }

  /**
    `upload_resume`. A name that fails validation raises a 400 inside the
    `try`, which the broad handler turns into a 500; nothing has been saved
    and, `file_path` being unbound, nothing is cleaned up. A valid upload
    is saved under a fresh name, its text extracted and analysed, and the
    file removed exactly once, after the analysis.
  */
  method UploadResume(store: FileStore, o: Oracles, libs: Libraries, form: UploadForm,
                      uniqueId: string, replies: UploadReplies)
    returns (r: HttpResult<UploadBody>)
    requires IsUuid(uniqueId)
    modifies store
    ensures !IsValidFileType(form.filename) ==>
              r == HttpError(500) && store.files == old(store.files) && store.log == old(store.log)
    ensures IsValidFileType(form.filename) ==>
              var path := SavedPath(uniqueId, form.filename.value);
              var text := ExtractedText(libs, old(store.files)[path := form.content], path);
              text.Some?
              && r == Ok(UploadResult(o, text, form.jobDescription, replies))
              && store.files == old(store.files)[path := form.content] - {path}
              && store.log == old(store.log) + [Saved(path), Removed(path)]
  {
    if !IsValidFileType(form.filename) {
      return HttpError(500);
    }
    var path := SavedPath(uniqueId, form.filename.value);
    ghost var stored := store.files[path := form.content];
    SavedValidExtracts(libs, stored, uniqueId, form.filename.value);
    var saved := store.SaveUploadedFile(form.filename, form.content, uniqueId);
    var text := store.ExtractTextFromFile(libs, saved.value);
    var resumeAnalysis := AnalyzeResume(o, text, replies.analysis);
    var jobMatching := MatchJob(o, text, form.jobDescription, replies.matching);
    var recommendations := GenerateRecommendations(o, text, form.jobDescription, replies.recommendations);
    store.CleanupFile(saved.value);
    AppendPair(old(store.log), Saved(path), Removed(path));
    r := Ok(UploadBody(resumeAnalysis, jobMatching, recommendations.value, text));
  }

  // ---------------------------------------------------------------------
  // POST /api/resume-suggestions
  // ---------------------------------------------------------------------

  /** `ResumeSectionRequest`; `full_resume` defaults to "". */
  datatype SectionRequest = SectionRequest(
    sectionId: string, sectionTitle: string, originalContent: string, jobTitle: string,
    jobDescription: string, matchingSkills: seq<string>, missingSkills: seq<string>, fullResume: string)

  /** The material a suggestion prompt is built from. */
  datatype SuggestionSource = WholeResume(resume: string) | Section(title: string, content: string)

  /** The section id that selects the whole-resume prompt. */
  const FullResumeId := "full-resume"

  /**
    The prompt's source: the whole resume for the `full-resume` id, the
    section's title and content for any other id.
  */
  function SuggestionSourceFor(request: SectionRequest): (r: SuggestionSource)
    ensures request.sectionId == FullResumeId ==> r == WholeResume(request.fullResume)
    ensures request.sectionId != FullResumeId ==> r == Section(request.sectionTitle, request.originalContent)
  {
    if request.sectionId == FullResumeId then WholeResume(request.fullResume)
    else Section(request.sectionTitle, request.originalContent)
  }

  /** No bullet marker occurs in the text. */
  predicate Unmarked(text: string) {
    !Contains(text, "- ") && !Contains(text, "\U{2022} ") && !Contains(text, "* ")
  }

  /** The cleaner's marker removal: every `'- '`, then every `'• '`, then every `'* '`. */
  function RemoveMarkers(text: string): (r: string)
    ensures |r| <= |text| && multiset(r) <= multiset(text)
    ensures Unmarked(text) ==> r == text
  {
    var a := RemoveAll(text, "- ");
    var b := RemoveAll(a, "\U{2022} ");
    RemoveAll(b, "* ")
  }

  /** One suggestion line cleaned: stripped, then its markers removed. */
  function CleanLine(line: string): (r: string)
    ensures |r| <= |Strip(line)| && multiset(r) <= multiset(Strip(line))
    ensures Unmarked(Strip(line)) ==> r == Strip(line)
  {
    RemoveMarkers(Strip(line))
  }

  /** Not a whitespace-only line: the comprehension's guard `if s.strip()`. */
  predicate NonBlank(line: string) {
    !IsBlank(line)
  }

  /** The reply's lines that survive the guard, in their order. */
  function KeptLines(reply: string): (r: seq<string>)
    ensures |r| <= |Split(Strip(reply), '\n')|
    ensures Subsequence(r, Split(Strip(reply), '\n'))
    ensures forall k :: 0 <= k < |r| ==> NonBlank(r[k])
    ensures var lines := Split(Strip(reply), '\n');
            forall k :: 0 <= k < |lines| ==>
              multiset(r)[lines[k]] == if NonBlank(lines[k]) then multiset(lines)[lines[k]] else 0
  {
    FilterIsSubsequence(Split(Strip(reply), '\n'), NonBlank);
    FilterCount(Split(Strip(reply), '\n'), NonBlank);
    Filter(Split(Strip(reply), '\n'), NonBlank)
  }

  /**
    The suggestion cleaner: the stripped reply split into lines,
    whitespace-only lines dropped, the rest cleaned in order; never more
    suggestions than lines.
  */
  function CleanSuggestions(reply: string): (r: seq<string>)
    ensures |r| == |KeptLines(reply)| <= |Split(Strip(reply), '\n')|
    ensures forall k :: 0 <= k < |r| ==> r[k] == CleanLine(KeptLines(reply)[k])
  {
    MapSeq(KeptLines(reply), CleanLine)
  }

  /**
    A bulleted suggestion loses its bullet: a line made of `-`, `•` or `*`,
    a space, and an already stripped text with no marker in it cleans to
    that text.
  */
  lemma BulletRemoved(bullet: char, text: string)
    requires bullet == '-' || bullet == '\U{2022}' || bullet == '*'
    requires text != "" && !IsSpace(text[0]) && !IsSpace(text[|text| - 1]) && Unmarked(text)
    ensures CleanLine([bullet, ' '] + text) == text
  {
    StripStripped([bullet, ' '] + text);
    assert CleanLine([bullet, ' '] + text) == RemoveMarkers([bullet, ' '] + text);
    if bullet == '-' {
      DashRemoved(text);
    } else if bullet == '*' {
      StarRemoved(text);
    } else {
      DotRemoved(text);
    }
  }

  /** The marker at the front is removed; the text behind it has none. */
  lemma MarkerAtFront(marker: string, text: string)
    requires |marker| == 2 && !Contains([marker[0]], marker) && !Contains(text, marker)
    ensures RemoveAll(marker + text, marker) == text
  {
    assert marker[..|marker| - 1] == [marker[0]];
    assert [] + marker + text == marker + text;
    RemoveLeftmost([], marker, text);
  }

  /** A two-character marker in front of a text does not create an occurrence of another marker starting with neither of its characters. */
  lemma OtherMarkerAbsent(marker: string, text: string, other: string)
    requires |marker| == 2 && |other| == 2 && marker[0] != other[0] && marker[1] != other[0]
    requires !Contains(text, other)
    ensures !Contains(marker + text, other)
  {
    var s := marker + text;
    assert s[1..] == [marker[1]] + text;
    assert ([marker[1]] + text)[1..] == text;
  }

  /** `- ` at the front of an unmarked text is removed, and nothing else. */
  lemma DashRemoved(text: string)
    requires Unmarked(text)
    ensures RemoveMarkers("- " + text) == text
  {
    MarkerAtFront("- ", text);
    assert RemoveAll("- " + text, "- ") == text;
  }

  /** `• ` at the front of an unmarked text is removed, and nothing else. */
  lemma DotRemoved(text: string)
    requires Unmarked(text)
    ensures RemoveMarkers("\U{2022} " + text) == text
  {
    OtherMarkerAbsent("\U{2022} ", text, "- ");
    assert RemoveAll("\U{2022} " + text, "- ") == "\U{2022} " + text;
    MarkerAtFront("\U{2022} ", text);
    assert RemoveAll("\U{2022} " + text, "\U{2022} ") == text;
  }

  /** `* ` at the front of an unmarked text is removed, and nothing else. */
  lemma StarRemoved(text: string)
    requires Unmarked(text)
    ensures RemoveMarkers("* " + text) == text
  {
    OtherMarkerAbsent("* ", text, "- ");
    assert RemoveAll("* " + text, "- ") == "* " + text;
    OtherMarkerAbsent("* ", text, "\U{2022} ");
    assert RemoveAll("* " + text, "\U{2022} ") == "* " + text;
    MarkerAtFront("* ", text);
  }

  /** A blank reply yields no suggestion. */
  lemma BlankReplyNoSuggestions(reply: string)
    requires IsBlank(reply)
    ensures CleanSuggestions(reply) == []
  {
    assert Strip(reply) == "";
    assert Split("", '\n') == [""];
    assert !NonBlank("");
  }

  /** The three-key body of the suggestions endpoint. */
  datatype SuggestionsBody = SuggestionsBody(suggestions: seq<string>, sectionId: string, message: string)

  /** The body's fixed message. */
  const SuggestionsMessage := "Expert AI recommendations generated successfully"

  /**
    `get_resume_suggestions`: the AI is asked about the selected source;
    its reply is cleaned and the section id echoed back. A failed call is
    a 500.
  */
  function GetResumeSuggestions(request: SectionRequest, ai: SuggestionSource -> Option<string>)
    : (r: HttpResult<SuggestionsBody>)
    ensures ai(SuggestionSourceFor(request)).None? <==> r == HttpError(500)
    ensures ai(SuggestionSourceFor(request)).Some? ==>
              r == Ok(SuggestionsBody(CleanSuggestions(ai(SuggestionSourceFor(request)).value),
                                      request.sectionId, SuggestionsMessage))
  {
    match ai(SuggestionSourceFor(request))
    case None => HttpError(500)
    case Some(reply) => Ok(SuggestionsBody(CleanSuggestions(reply), request.sectionId, SuggestionsMessage))
  }

  // ---------------------------------------------------------------------
  // POST /api/generate-optimized-resume
  // ---------------------------------------------------------------------

  /** The five optimisation prompt templates. */
  datatype Template = FullResume | SummaryTemplate | ExperienceTemplate | SkillsTemplate | EducationTemplate

  /**
    The template for a `section_type`: four names select their template;
    any other value falls through to the education template.
  */
  function TemplateFor(sectionType: string): (r: Template)
    ensures sectionType == "full_resume" <==> r == FullResume
    ensures sectionType == "summary" <==> r == SummaryTemplate
    ensures sectionType == "experience" <==> r == ExperienceTemplate
    ensures sectionType == "skills" <==> r == SkillsTemplate
    ensures r == EducationTemplate <==> sectionType !in {"full_resume", "summary", "experience", "skills"}
  {
    if sectionType == "full_resume" then FullResume
    else if sectionType == "summary" then SummaryTemplate
    else if sectionType == "experience" then ExperienceTemplate
    else if sectionType == "skills" then SkillsTemplate
    else EducationTemplate
  }

  /** `AIResumeGenerationRequest`. */
  datatype OptimizeRequest = OptimizeRequest(
    originalResume: string, jobTitle: string, jobDescription: string,
    matchingSkills: seq<string>, missingSkills: seq<string>, sectionType: string)

  /** What a template interpolates besides the resume, the title and the matching skills. */
  datatype PromptInput = PromptInput(
    template: Template, resume: string, jobTitle: string, matchingSkills: seq<string>,
    jobDescription: Option<string>, missingSkills: Option<seq<string>>)

  /**
    The filled-in prompt: the job description appears in the full,
    summary and experience templates, the missing skills in the full and
    skills templates.
  */
  function PromptFor(request: OptimizeRequest): (r: PromptInput)
    ensures r.template == TemplateFor(request.sectionType)
    ensures r.resume == request.originalResume && r.jobTitle == request.jobTitle
    ensures r.matchingSkills == request.matchingSkills
    ensures r.jobDescription.Some? <==> r.template in {FullResume, SummaryTemplate, ExperienceTemplate}
    ensures r.missingSkills.Some? <==> r.template in {FullResume, SkillsTemplate}
    ensures r.jobDescription.Some? ==> r.jobDescription.value == request.jobDescription
    ensures r.missingSkills.Some? ==> r.missingSkills.value == request.missingSkills
  {
    var t := TemplateFor(request.sectionType);
    PromptInput(t, request.originalResume, request.jobTitle, request.matchingSkills,
                if t in {FullResume, SummaryTemplate, ExperienceTemplate} then Some(request.jobDescription) else None,
                if t in {FullResume, SkillsTemplate} then Some(request.missingSkills) else None)
  }

  /** The four-key body of the optimisation endpoint. */
  datatype OptimizedBody = OptimizedBody(optimizedContent: string, sectionType: string, jobTitle: string, message: string)

  /** The body's fixed message. */
  const OptimizedMessage := "AI-optimized resume content generated successfully"

  /**
    `generate_optimized_resume`: the reply to the selected prompt,
    stripped, with the section type and job title echoed; a failed call is
    a 500.
  */
  function GenerateOptimizedResume(request: OptimizeRequest, ai: PromptInput -> Option<string>)
    : (r: HttpResult<OptimizedBody>)
    ensures ai(PromptFor(request)).None? <==> r == HttpError(500)
    ensures r.Ok? ==> r.body.sectionType == request.sectionType && r.body.jobTitle == request.jobTitle
    ensures r.Ok? ==> r.body.optimizedContent == Strip(ai(PromptFor(request)).value)
  {
    match ai(PromptFor(request))
    case None => HttpError(500)
    case Some(reply) => Ok(OptimizedBody(Strip(reply), request.sectionType, request.jobTitle, OptimizedMessage))
  }
}
