/**
  What the client pages share: the part of the upload response they read
  (typed as the client's interfaces declare it), where a page gets that
  data from, and the three-colour banding of scores and percentages.
*/
module ClientData {
  import opened Wrappers
  import opened Json

  /**
    `job_matching` as the client reads it; `job_title` and
    `job_description` may be absent, and `ai_analysis` is whatever JSON
    the backend sent (the client's interface promises more than the
    backend guarantees).
  */
  datatype JobMatching = JobMatching(
    matchPercentage: real, matchingSkills: seq<string>, missingSkills: seq<string>,
    aiAnalysis: Json, jobTitle: Option<string>, jobDescription: Option<string>)

  /** `resume_analysis` as the client reads it. */
  datatype ResumeAnalysis = ResumeAnalysis(
    overallScore: real, strengths: seq<string>, areasForImprovement: seq<string>)

  /** The upload response, as stored under the `analysisData` session key. */
  datatype AnalysisData = AnalysisData(
    resumeAnalysis: ResumeAnalysis, jobMatching: JobMatching,
    recommendations: seq<string>, originalResume: string)

  /** The `analysisData` session entry: missing, not valid JSON, or a parsed response. */
  datatype Stored = Absent | Unparsable | Parsed(data: AnalysisData)

  /** Where a page takes its data from; `NoData` sends the user to `/upload`. */
  datatype Source = FromNavigation(data: AnalysisData) | FromStorage(data: AnalysisData) | NoData

  /**
    The data-loading order: navigation state first, then a parsable
    session entry; anything else is no data.
  */
  function LoadSource(navigation: Option<AnalysisData>, stored: Stored): (r: Source)
    ensures navigation.Some? <==> r.FromNavigation?
    ensures r.FromNavigation? ==> r.data == navigation.value
    ensures r.FromStorage? <==> navigation.None? && stored.Parsed?
    ensures r.FromStorage? ==> r.data == stored.data
    ensures r.NoData? <==> navigation.None? && !stored.Parsed?
  {
    if navigation.Some? then FromNavigation(navigation.value)
    else if stored.Parsed? then FromStorage(stored.data)
    else NoData
  }

  /**
    JavaScript truthiness of a parsed JSON value: null, false, 0 and ""
    are falsy; every array and object, even an empty one, is truthy.
  */
  predicate JsTruthy(j: Json) {
    match j
    case JNull => false
    case JBool(b) => b
    case JNum(n) => n != 0.0
    case JStr(s) => s != ""
    case JArr(_) => true
    case JObj(_) => true
  }

  /** The value `{} ` is truthy in JavaScript but falsy in Python: the two rules differ. */
  lemma EmptyObjectTruthiness()
    ensures JsTruthy(JObj(map[])) && !Truthy(JObj(map[]))
  {
  }

  /** The Tailwind colour a score or percentage is shown in. */
  datatype Tone = Green | Yellow | Red

  /**
    `getScoreColor` and `getMatchColor`, which have the same body: green
    from 80, yellow from 60, red below.
  */
  function Color(value: real): (r: Tone)
    ensures r == Green <==> value >= 80.0
    ensures r == Yellow <==> 60.0 <= value < 80.0
    ensures r == Red <==> value < 60.0
  {
    if value >= 80.0 then Green
    else if value >= 60.0 then Yellow
    else Red
  }
}
