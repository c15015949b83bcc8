/**
  The upload page: the form schema, the checks a chosen file must pass,
  the job-analysis request and the submit sequence. The page's effects
  (toasts, requests, the session write, navigation and the two busy
  flags' updates) are recorded in order; each request's outcome is a
  parameter, None when the fetch failed, the status was not OK or the body
  was not JSON.
*/
module UploadPage {
  import opened Wrappers
  import opened Text
  import opened Json
  import FileHandler

  /** A browser `File`: its name, MIME type and size in bytes. */
  datatype Upload = Upload(name: string, mimeType: string, size: nat)

  /** The MIME types the file input accepts. */
  const AllowedTypes: seq<string> := [
    "application/pdf",
    "application/msword",
    "application/vnd.openxmlformats-officedocument.wordprocessingml.document",
    "text/plain"]

  /** The client's allow-list and the backend's extension table name the same four MIME types. */
  lemma AllowListMatchesBackend()
    ensures Elems(AllowedTypes) == FileHandler.AllowedExtensions.Values
    ensures |AllowedTypes| == 4 && NoDup(AllowedTypes)
  {
    var m := FileHandler.AllowedExtensions;
    assert m[".pdf"] == AllowedTypes[0];
    assert m[".doc"] == AllowedTypes[1];
    assert m[".docx"] == AllowedTypes[2];
    assert m[".txt"] == AllowedTypes[3];
    forall v | v in m.Values ensures v in Elems(AllowedTypes) {
      var k :| k in m && m[k] == v;
    }
  }

  /** The largest accepted file: 5 MiB. */
  const MaxSize: nat := 5 * 1024 * 1024

  /** What the file input does with a chosen file. */
  datatype FileVerdict = WrongType | TooLarge | Accepted

  /** The two checks of `handleFileUpload`, the type first and then the size. */
  function CheckFile(file: Upload): (r: FileVerdict)
    ensures r == WrongType <==> file.mimeType !in AllowedTypes
    ensures r == TooLarge <==> file.mimeType in AllowedTypes && file.size > MaxSize
    ensures r == Accepted <==> file.mimeType in AllowedTypes && file.size <= MaxSize
  {
    if file.mimeType !in AllowedTypes then WrongType
    else if file.size > MaxSize then TooLarge
    else Accepted
  }

  /** A file of exactly 5 MiB is accepted and one byte more is not; an unknown type is refused whatever its size. */
  lemma SizeLimitBoundary(name: string, mimeType: string, size: nat)
    requires mimeType in AllowedTypes
    ensures CheckFile(Upload(name, mimeType, MaxSize)) == Accepted
    ensures CheckFile(Upload(name, mimeType, MaxSize + 1)) == TooLarge
    ensures CheckFile(Upload(name, "image/png", size)) == WrongType
  {
    assert "image/png" != AllowedTypes[0] && "image/png" != AllowedTypes[1];
    assert "image/png" != AllowedTypes[2] && "image/png" != AllowedTypes[3];
  }

  /** The form's text fields, as `watch` reads them ("" while unset). */
  datatype JobFields = JobFields(jobDescription: string, jobTitle: string, company: string)

  /** A failed `min` rule of `uploadSchema`. */
  datatype SchemaIssue = DescriptionTooShort | TitleTooShort | CompanyTooShort

  /**
    `uploadSchema`'s issues, in field order: description at least 50, title
    and company at least 2, each counted in UTF-16 units as `.length` counts.
  */
  function SchemaIssues(fields: JobFields): (r: seq<SchemaIssue>)
    ensures DescriptionTooShort in r <==> Utf16Length(fields.jobDescription) < 50
    ensures TitleTooShort in r <==> Utf16Length(fields.jobTitle) < 2
    ensures CompanyTooShort in r <==> Utf16Length(fields.company) < 2
    ensures NoDup(r)
  {
    (if Utf16Length(fields.jobDescription) < 50 then [DescriptionTooShort] else [])
    + (if Utf16Length(fields.jobTitle) < 2 then [TitleTooShort] else [])
    + (if Utf16Length(fields.company) < 2 then [CompanyTooShort] else [])
  }

  /** The schema accepts the form. */
  predicate SchemaAccepts(fields: JobFields) {
    SchemaIssues(fields) == []
  }

  /** The three fields the job analysis needs are all filled. */
  predicate HasJobInfo(fields: JobFields) {
    fields.jobDescription != "" && fields.jobTitle != "" && fields.company != ""
  }

  /** Acceptance by the schema is exactly the three length rules, and implies the job information is there. */
  lemma SchemaAcceptsIff(fields: JobFields)
    ensures SchemaAccepts(fields) <==>
              Utf16Length(fields.jobDescription) >= 50 && Utf16Length(fields.jobTitle) >= 2 && Utf16Length(fields.company) >= 2
    ensures SchemaAccepts(fields) ==> HasJobInfo(fields)
  {
    var r := SchemaIssues(fields);
    if r != [] {
      assert r[0] in r;
    }
  }

  /** The titles of the toasts the page shows. */
  const InvalidTypeTitle := "Invalid file type"
  const TooLargeTitle := "File too large"
  const UploadedTitle := "File uploaded successfully"
  const MissingInfoTitle := "Missing information"
  const AnalysedTitle := "Job analysis completed"
  const AnalysisFailedTitle := "Analysis failed"
  const CompletedTitle := "Analysis completed!"
  const UploadFailedTitle := "Upload failed"

  /** One observable step of the page. */
  datatype Effect =
    | ShowToast(title: string)
    | RequestJobAnalysis(fields: JobFields)
    | RequestUpload(resume: Option<Upload>, fields: JobFields)
    | StoreSession(result: Json)
    | NavigateToResults(result: Json)
    | SetAnalyzing(on: bool)
    | SetUploading(on: bool)

  /** The toast a refused file gets. */
  function RefusalTitle(verdict: FileVerdict): string {
    if verdict == WrongType then InvalidTypeTitle else TooLargeTitle
  }

  /**
    `result.x.y` evaluates without throwing only when `result.x` is neither
    undefined nor null, that is when `result` is an object holding a
    non-null `x`.
  */
  predicate Reachable(result: Json, key: string) {
    result.JObj? && key in result.fields && !result.fields[key].JNull?
  }

  /** The success toast's description reads both nested values of the response. */
  predicate Describable(result: Json) {
    Reachable(result, "job_matching") && Reachable(result, "resume_analysis")
  }

  /**
    What `onSubmit` does after its request: the response is written to the
    session before anything else; the success toast is followed by the
    navigation, and a response whose description throws is reported as a
    failed upload (after the session write).
  */
  function SubmitOutcome(response: Option<Json>): (r: seq<Effect>)
    ensures response.None? ==> r == [ShowToast(UploadFailedTitle)]
    ensures response.Some? ==> |r| >= 2 && r[0] == StoreSession(response.value)
    ensures response.Some? && Describable(response.value) ==>
              r == [StoreSession(response.value), ShowToast(CompletedTitle), NavigateToResults(response.value)]
    ensures response.Some? && !Describable(response.value) ==>
              r == [StoreSession(response.value), ShowToast(UploadFailedTitle)]
  {
    match response
    case None => [ShowToast(UploadFailedTitle)]
    case Some(result) =>
      if Describable(result) then [StoreSession(result), ShowToast(CompletedTitle), NavigateToResults(result)]
      else [StoreSession(result), ShowToast(UploadFailedTitle)]
  }

  /** Navigation to the results only ever follows the session write of the same response. */
  lemma NavigationAfterStore(response: Option<Json>, k: nat)
    requires k < |SubmitOutcome(response)| && SubmitOutcome(response)[k].NavigateToResults?
    ensures exists i :: 0 <= i < k && SubmitOutcome(response)[i] == StoreSession(SubmitOutcome(response)[k].result)
  {
    var r := SubmitOutcome(response);
    assert response.Some? && Describable(response.value);
    assert r[0] == StoreSession(r[k].result);
  }

  /** The upload page's component state. */
  class UploadPage {
    /** `uploadedFiles.resume`. */
    var uploadedResume: Option<Upload>
    /** The form's `resume` value, set by `setValue`. */
    var formResume: Option<Upload>
    var isUploading: bool
    var isAnalyzingJob: bool
    var jobAnalysis: Option<Json>
    var effects: seq<Effect>

    constructor ()
      ensures uploadedResume == None && formResume == None && jobAnalysis == None
      ensures !isUploading && !isAnalyzingJob && effects == []
    {
      uploadedResume := None;
      formResume := None;
      isUploading := false;
      isAnalyzingJob := false;
      jobAnalysis := None;
      effects := [];
    }

    /** The analyse button is disabled while analysing or while a job field is empty. */
    predicate AnalyzeDisabled(fields: JobFields)
      reads this
    {
      isAnalyzingJob || !HasJobInfo(fields)
    }

    /** The submit button is disabled while uploading or while no resume is held. */
    predicate SubmitDisabled()
      reads this
    {
      isUploading || uploadedResume.None?
    }

    /**
      `handleFileUpload`: no file selected changes nothing; a refused file
      only raises its toast; an accepted file becomes both the held resume
      and the form's value.
    */
    method HandleFileUpload(file: Option<Upload>)
      modifies this
      ensures isUploading == old(isUploading) && isAnalyzingJob == old(isAnalyzingJob)
      ensures jobAnalysis == old(jobAnalysis)
      ensures file.None? ==> uploadedResume == old(uploadedResume) && formResume == old(formResume)
                             && effects == old(effects)
      ensures file.Some? && CheckFile(file.value) != Accepted ==>
                uploadedResume == old(uploadedResume) && formResume == old(formResume)
                && effects == old(effects) + [ShowToast(RefusalTitle(CheckFile(file.value)))]
      ensures file.Some? && CheckFile(file.value) == Accepted ==>
                uploadedResume == file && formResume == file
                && effects == old(effects) + [ShowToast(UploadedTitle)]
    {
      if file.None? {
        return;
      }
      var verdict := CheckFile(file.value);
      if verdict != Accepted {
        effects := effects + [ShowToast(RefusalTitle(verdict))];
        return;
      }
      uploadedResume := file;
      formResume := file;
      effects := effects + [ShowToast(UploadedTitle)];
    }

    /**
      `analyzeJobDescription`: with a job field empty, only the "missing
      information" toast; otherwise the flag is raised, the request made,
      the outcome recorded and the flag lowered again.
    */
    method AnalyzeJobDescription(fields: JobFields, response: Option<Json>)
      modifies this
      ensures uploadedResume == old(uploadedResume) && formResume == old(formResume)
      ensures isUploading == old(isUploading)
      ensures !HasJobInfo(fields) ==>
                effects == old(effects) + [ShowToast(MissingInfoTitle)]
                && jobAnalysis == old(jobAnalysis) && isAnalyzingJob == old(isAnalyzingJob)
      ensures HasJobInfo(fields) ==>
                effects == old(effects) + [SetAnalyzing(true), RequestJobAnalysis(fields),
                                           ShowToast(if response.Some? then AnalysedTitle else AnalysisFailedTitle),
                                           SetAnalyzing(false)]
                && !isAnalyzingJob
                && jobAnalysis == (if response.Some? then response else old(jobAnalysis))
    {
      if !HasJobInfo(fields) {
        effects := effects + [ShowToast(MissingInfoTitle)];
        return;
      }
      isAnalyzingJob := true;
      effects := effects + [SetAnalyzing(true), RequestJobAnalysis(fields)];
      if response.Some? {
        jobAnalysis := response;
        effects := effects + [ShowToast(AnalysedTitle)];
      } else {
        effects := effects + [ShowToast(AnalysisFailedTitle)];
      }
      isAnalyzingJob := false;
      effects := effects + [SetAnalyzing(false)];
    }

    /**
      A press of the analyse button: a disabled button does nothing;
      otherwise `analyzeJobDescription` runs with every field filled, so
      it always makes its request.
    */
    method PressAnalyze(fields: JobFields, response: Option<Json>)
      modifies this
      ensures uploadedResume == old(uploadedResume) && formResume == old(formResume)
      ensures isUploading == old(isUploading)
      ensures old(AnalyzeDisabled(fields)) ==>
                effects == old(effects) && jobAnalysis == old(jobAnalysis) && isAnalyzingJob == old(isAnalyzingJob)
      ensures !old(AnalyzeDisabled(fields)) ==>
                effects == old(effects) + [SetAnalyzing(true), RequestJobAnalysis(fields),
                                           ShowToast(if response.Some? then AnalysedTitle else AnalysisFailedTitle),
                                           SetAnalyzing(false)]
                && !isAnalyzingJob
                && jobAnalysis == (if response.Some? then response else old(jobAnalysis))
    {
      if AnalyzeDisabled(fields) {
        return;
      }
      AnalyzeJobDescription(fields, response);
    }

    /**
      A press of the submit button. A disabled button, or a form the
      schema refuses, does nothing; otherwise `onSubmit` raises the
      uploading flag, sends the held resume with the three fields, records
      the outcome and always lowers the flag at the end.
    */
    method Submit(fields: JobFields, response: Option<Json>)
      modifies this
      ensures uploadedResume == old(uploadedResume) && formResume == old(formResume)
      ensures isAnalyzingJob == old(isAnalyzingJob) && jobAnalysis == old(jobAnalysis)
      ensures old(SubmitDisabled()) || !SchemaAccepts(fields) ==>
                effects == old(effects) && isUploading == old(isUploading)
      ensures !old(SubmitDisabled()) && SchemaAccepts(fields) ==>
                effects == old(effects) + [SetUploading(true), RequestUpload(old(uploadedResume), fields)]
                           + SubmitOutcome(response) + [SetUploading(false)]
                && !isUploading
    {
      if SubmitDisabled() || !SchemaAccepts(fields) {
        return;
      }
      isUploading := true;
      effects := effects + [SetUploading(true), RequestUpload(uploadedResume, fields)];
      effects := effects + SubmitOutcome(response);
      isUploading := false;
      effects := effects + [SetUploading(false)];
    }
  }

  /**
    Outside an analysis the analyse button is disabled on exactly the
    fields the handler itself refuses with "missing information".
  */
  lemma AnalyzeGuardMatches(page: UploadPage, fields: JobFields)
    ensures !page.isAnalyzingJob ==> (page.AnalyzeDisabled(fields) <==> !HasJobInfo(fields))
    ensures page.isAnalyzingJob ==> page.AnalyzeDisabled(fields)
  {
  }

  /** The submit button is enabled exactly when no upload is running and a resume is held. */
  lemma SubmitGuard(page: UploadPage)
    ensures !page.SubmitDisabled() <==> !page.isUploading && page.uploadedResume.Some?
  {
  }
}
