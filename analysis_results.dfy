/**
  The analysis results page: where it takes its data from, the three AI
  handlers that share one loading flag, the summary template it offers,
  and the caps on the lists it shows. Each request's outcome is a
  parameter (None: the request failed).
*/
module AnalysisResults {
  import opened Wrappers
  import opened Text
  import opened Json
  import opened ClientData
  import opened JobMatcher

  /** The word the template uses when no matching skill leads the list. */
  const Professional := "professional"

  /** `matching_skills[0] || 'professional'`. */
  function LeadSkill(matching: seq<string>): (r: string)
    ensures |matching| > 0 && matching[0] != "" ==> r == matching[0]
    ensures |matching| == 0 || matching[0] == "" ==> r == Professional
  {
    if |matching| > 0 && matching[0] != "" then matching[0] else Professional
  }

  /** The fixed pieces of the summary template (the quotes are part of the text). */
  const Opening := "\"Experienced "
  const Expertise := " with expertise in "
  const Skilled := ". Skilled in "
  const Closing := " with proven track record of delivering results.\""

  /** The suggested summary line built from the matching skills. */
  function SummaryTemplate(matching: seq<string>): string {
    Opening + LeadSkill(matching) + Expertise + JoinWith(Take(matching, 2), " and ")
    + Skilled + JoinWith(Take(matching, 3), ", ") + Closing
  }

  /** With no matching skills the template reads "professional" and leaves both lists empty. */
  lemma EmptyTemplate()
    ensures SummaryTemplate([]) == Opening + Professional + Expertise + Skilled + Closing
  {
    var none: seq<string> := [];
    assert Take(none, 2) == none && Take(none, 3) == none;
  }

  /**
    With three or more matching skills, the first one leads, the first two
    are joined by "and" and the first three listed with commas; later
    skills do not appear.
  */
  lemma TemplateNamesLeadingSkills(matching: seq<string>)
    requires |matching| >= 3 && matching[0] != ""
    ensures SummaryTemplate(matching)
            == Opening + matching[0] + Expertise + matching[0] + " and " + matching[1]
               + Skilled + matching[0] + ", " + matching[1] + ", " + matching[2] + Closing
  {
    var two, three := Take(matching, 2), Take(matching, 3);
    assert two == [matching[0], matching[1]] && two[1..] == [matching[1]];
    assert three == [matching[0], matching[1], matching[2]] && three[1..] == [matching[1], matching[2]];
    assert three[1..][1..] == [matching[2]];
    assert JoinWith(two, " and ") == matching[0] + " and " + matching[1];
    assert JoinWith(three[1..], ", ") == matching[1] + ", " + matching[2];
    assert JoinWith(three, ", ") == matching[0] + ", " + (matching[1] + ", " + matching[2]);
  }

  /** With a single matching skill it is both the lead and the whole of each list. */
  lemma TemplateSingleSkill(skill: string)
    requires skill != ""
    ensures SummaryTemplate([skill]) == Opening + skill + Expertise + skill + Skilled + skill + Closing
  {
    var one := [skill];
    assert Take(one, 2) == one && Take(one, 3) == one;
  }

  /** The lists of the keyword and summary tabs, each the first items of its source list. */
  datatype Lists = Lists(
    keywords: seq<string>, matchingBadges: seq<string>, missingBadges: seq<string>,
    recommendations: seq<string>)

  /** `xs.slice(0, n)` has exactly `min(n, |xs|)` items. */
  predicate FirstOf<T(==)>(r: seq<T>, xs: seq<T>, n: nat) {
    r <= xs && |r| == if |xs| < n then |xs| else n
  }

  /**
    The caps the page applies: six keywords, eight matching and eight
    missing badges, three recommendations; each list is exactly the first
    that many items, or all of them when there are fewer.
  */
  function DisplayedLists(data: AnalysisData): (r: Lists)
    ensures FirstOf(r.keywords, data.jobMatching.matchingSkills, 6)
    ensures FirstOf(r.matchingBadges, data.jobMatching.matchingSkills, 8)
    ensures FirstOf(r.missingBadges, data.jobMatching.missingSkills, 8)
    ensures FirstOf(r.recommendations, data.recommendations, 3)
    ensures r.keywords <= r.matchingBadges
  {
    Lists(Take(data.jobMatching.matchingSkills, 6), Take(data.jobMatching.matchingSkills, 8),
          Take(data.jobMatching.missingSkills, 8), Take(data.recommendations, 3))
  }

  /**
    `ai_analysis.<key>.slice(…).map(…)` succeeds only when `ai_analysis`
    is an object holding a list under the key; on anything else the
    property access or the `slice`/`map` call throws (None).
  */
  function AreaList(aiAnalysis: Json, key: string): (r: Option<seq<Json>>)
    ensures r.Some? <==> aiAnalysis.JObj? && key in aiAnalysis.fields && aiAnalysis.fields[key].JArr?
    ensures r.Some? ==> r.value == aiAnalysis.fields[key].items
  {
    if aiAnalysis.JObj? && key in aiAnalysis.fields && aiAnalysis.fields[key].JArr? then
      Some(aiAnalysis.fields[key].items)
    else None
  }

  /** The summary tab's "Top Strengths" and "Areas to Address". */
  datatype Insights = Insights(strengthAreas: seq<Json>, concernAreas: seq<Json>)

  /**
    The key insights of the summary tab: the first three strength areas
    and the first two concern areas; None when either read throws, so
    the tab fails to render.
  */
  function KeyInsights(aiAnalysis: Json): (r: Option<Insights>)
    ensures r.Some? <==> AreaList(aiAnalysis, "strength_areas").Some? && AreaList(aiAnalysis, "concern_areas").Some?
    ensures r.Some? ==> FirstOf(r.value.strengthAreas, AreaList(aiAnalysis, "strength_areas").value, 3)
    ensures r.Some? ==> FirstOf(r.value.concernAreas, AreaList(aiAnalysis, "concern_areas").value, 2)
  {
    match (AreaList(aiAnalysis, "strength_areas"), AreaList(aiAnalysis, "concern_areas"))
    case (Some(strengths), Some(concerns)) => Some(Insights(Take(strengths, 3), Take(concerns, 2)))
    case _ => None
  }

  /**
    The backend's regex fallback sends `ai_analysis: {}`, and the summary
    tab's unguarded reads then throw for every resume and job.
  */
  lemma FallbackMatchBreaksInsights(resumeSkills: seq<string>, jobSkills: seq<string>, data: AnalysisData)
    requires data.jobMatching.aiAnalysis == FallbackMatch(resumeSkills, jobSkills).aiAnalysis
    ensures KeyInsights(data.jobMatching.aiAnalysis).None?
  {
    assert data.jobMatching.aiAnalysis == JObj(map[]);
  }

  /** The page's three AI handlers. */
  datatype Advice = InterviewPreparation | CareerAdvice | OptimizationTips

  /** The request each handler sends; the titles and descriptions it sends are fixed. */
  datatype AdviceRequest =
    | InterviewRequest(jobTitle: string, company: string, data: AnalysisData)
    | CareerRequest(jobTitle: string, company: string, jobDescription: string)
    | TipsRequest(resumeText: string, jobTitle: string, jobDescription: string, targetRole: string)

  const DefaultTitle := "Software Engineer"
  const DefaultCompany := "Tech Company"
  const DefaultDescription := "Software engineering role with focus on..."

  /** The body a handler posts for the loaded data. */
  function RequestFor(advice: Advice, data: AnalysisData): (r: AdviceRequest)
    ensures advice == InterviewPreparation <==> r.InterviewRequest?
    ensures advice == CareerAdvice <==> r.CareerRequest?
    ensures advice == OptimizationTips <==> r.TipsRequest?
    ensures r.InterviewRequest? ==> r.data == data
    ensures r.TipsRequest? ==> r.resumeText == data.originalResume
  {
    match advice
    case InterviewPreparation => InterviewRequest(DefaultTitle, DefaultCompany, data)
    case CareerAdvice => CareerRequest(DefaultTitle, DefaultCompany, DefaultDescription)
    case OptimizationTips => TipsRequest(data.originalResume, DefaultTitle, DefaultDescription, DefaultTitle)
  }

  /** The results page's component state. */
  class ResultsPage {
    var analysisData: Option<AnalysisData>
    var loading: bool
    var isLoadingAI: bool
    var interviewPrep: Option<Json>
    var careerAdvice: Option<Json>
    var optimizationTips: Option<Json>
    /** The page navigated away to `/upload`. */
    var redirected: bool
    /** Every value `setIsLoadingAI` was called with, in order. */
    var loadingFlags: seq<bool>
    var requests: seq<AdviceRequest>

    constructor ()
      ensures analysisData == None && loading && !isLoadingAI && !redirected
      ensures interviewPrep == None && careerAdvice == None && optimizationTips == None
      ensures loadingFlags == [] && requests == []
    {
      analysisData := None;
      loading := true;
      isLoadingAI := false;
      interviewPrep := None;
      careerAdvice := None;
      optimizationTips := None;
      redirected := false;
      loadingFlags := [];
      requests := [];
    }

    /** The result slot a handler fills. */
    function Slot(advice: Advice): Option<Json>
      reads this
    {
      match advice
      case InterviewPreparation => interviewPrep
      case CareerAdvice => careerAdvice
      case OptimizationTips => optimizationTips
    }

    /**
      A handler's button is rendered only while its slot holds no truthy
      value; once a reply is shown the button is replaced by it.
    */
    predicate ButtonShown(advice: Advice)
      reads this
    {
      Slot(advice).None? || !JsTruthy(Slot(advice).value)
    }

    /** All three AI buttons are disabled by the one shared flag. */
    predicate ButtonDisabled(advice: Advice)
      reads this
    {
      isLoadingAI
    }

    /**
      The data-loading effect: navigation state, else a parsable session
      entry (nothing is written back), else a redirect to `/upload`; the
      loading flag is down afterwards in every case.
    */
    method Load(navigation: Option<AnalysisData>, stored: Stored)
      modifies this
      ensures !loading
      ensures match LoadSource(navigation, stored)
              case FromNavigation(data) => analysisData == Some(data) && redirected == old(redirected)
              case FromStorage(data) => analysisData == Some(data) && redirected == old(redirected)
              case NoData => analysisData == old(analysisData) && redirected
      ensures isLoadingAI == old(isLoadingAI) && loadingFlags == old(loadingFlags) && requests == old(requests)
      ensures interviewPrep == old(interviewPrep) && careerAdvice == old(careerAdvice)
      ensures optimizationTips == old(optimizationTips)
    {
      var source := LoadSource(navigation, stored);
      match source {
        case FromNavigation(data) =>
          analysisData := Some(data);
        case FromStorage(data) =>
          analysisData := Some(data);
        case NoData =>
          redirected := true;
      }
      loading := false;
    }

    /**
      `getInterviewPreparation`, `getCareerAdvice` and
      `getOptimizationTips`: without data nothing happens; otherwise the
      flag is raised, one request sent, its result stored in the handler's
      own slot on success, and the flag lowered in `finally`.
    */
    method RequestAdvice(advice: Advice, reply: Option<Json>)
      modifies this
      ensures analysisData == old(analysisData) && loading == old(loading) && redirected == old(redirected)
      ensures old(analysisData).None? ==>
                isLoadingAI == old(isLoadingAI) && loadingFlags == old(loadingFlags) && requests == old(requests)
                && interviewPrep == old(interviewPrep) && careerAdvice == old(careerAdvice)
                && optimizationTips == old(optimizationTips)
      ensures old(analysisData).Some? ==>
                !isLoadingAI && loadingFlags == old(loadingFlags) + [true, false]
                && requests == old(requests) + [RequestFor(advice, old(analysisData).value)]
                && Slot(advice) == (if reply.Some? then reply else old(Slot(advice)))
                && forall other: Advice :: other != advice ==> Slot(other) == old(Slot(other))
    {
      if analysisData.None? {
        return;
      }
      isLoadingAI := true;
      loadingFlags := loadingFlags + [true];
      requests := requests + [RequestFor(advice, analysisData.value)];
      if reply.Some? {
        match advice {
          case InterviewPreparation => interviewPrep := reply;
          case CareerAdvice => careerAdvice := reply;
          case OptimizationTips => optimizationTips := reply;
        }
      }
      isLoadingAI := false;
      loadingFlags := loadingFlags + [false];
    }

    /**
      A press of one of the three AI buttons: a button that is not
      rendered, or is disabled, does nothing; otherwise its handler runs,
      and a truthy reply replaces the button.
    */
    method Press(advice: Advice, reply: Option<Json>)
      modifies this
      ensures analysisData == old(analysisData) && loading == old(loading) && redirected == old(redirected)
      ensures !old(ButtonShown(advice)) || old(ButtonDisabled(advice)) || old(analysisData).None? ==>
                isLoadingAI == old(isLoadingAI) && loadingFlags == old(loadingFlags) && requests == old(requests)
                && interviewPrep == old(interviewPrep) && careerAdvice == old(careerAdvice)
                && optimizationTips == old(optimizationTips)
      ensures old(ButtonShown(advice)) && !old(ButtonDisabled(advice)) && old(analysisData).Some? ==>
                !isLoadingAI && loadingFlags == old(loadingFlags) + [true, false]
                && requests == old(requests) + [RequestFor(advice, old(analysisData).value)]
                && Slot(advice) == (if reply.Some? then reply else old(Slot(advice)))
                && forall other: Advice :: other != advice ==> Slot(other) == old(Slot(other))
      ensures (old(ButtonShown(advice)) && !old(ButtonDisabled(advice)) && old(analysisData).Some?
               && reply.Some? && JsTruthy(reply.value)) ==> !ButtonShown(advice)
    {
      if !ButtonShown(advice) || ButtonDisabled(advice) {
        return;
      }
      RequestAdvice(advice, reply);
    }

    /**
      Two presses of the same button: once the first has stored a truthy
      reply the button is gone, so at most one request is sent and the
      stored reply stays.
    */
    method PressTwice(advice: Advice, first: Option<Json>, second: Option<Json>)
      modifies this
      ensures first.Some? && JsTruthy(first.value) ==>
                |requests| <= |old(requests)| + 1 && (Slot(advice) == first || Slot(advice) == old(Slot(advice)))
    {
      Press(advice, first);
      Press(advice, second);
    }
  }

  /** One flag disables all three buttons: each is disabled exactly while an AI request is loading. */
  lemma OneFlagForAll(page: ResultsPage, a: Advice, b: Advice)
    ensures page.ButtonDisabled(a) <==> page.isLoadingAI
    ensures page.ButtonDisabled(a) <==> page.ButtonDisabled(b)
  {
  }
}
