/**
  The resume analyzer of the backend: the heuristic strengths,
  improvement areas and summary, the parsing of the AI's analysis and the
  assembly of the analysis record. Regular-expression searches and
  extractors are oracles; the AI call is an optional reply (None: the
  call raised).
*/
module ResumeAnalyzer {
  import opened Wrappers
  import opened Text
  import opened Json
  import opened Foreign
  import opened Replies

  // ---------------------------------------------------------------------
  // _identify_strengths
  // ---------------------------------------------------------------------

  /** The positive indicators, in the order they are tried. */
  const Indicators: seq<string> :=
    ["achieved", "improved", "increased", "decreased", "led", "managed",
     "developed", "created", "implemented", "designed", "optimized",
     "awarded", "recognized", "certified", "expert", "senior", "lead"]

  /** The strength reported for one indicator. */
  function StrengthMessage(indicator: string): string {
    "Demonstrates " + indicator + " experience"
  }

  /**
    The indicators whose word occurs in the text: exactly those, in the
    order of `Indicators`.
  */
  function FoundIndicators(o: Oracles, text: string): (r: seq<string>)
    ensures Subsequence(r, Indicators)
    ensures forall k :: 0 <= k < |r| ==> r[k] in Indicators && o.containsWord(text, r[k])
    ensures forall k :: 0 <= k < |Indicators| && o.containsWord(text, Indicators[k]) ==> Indicators[k] in r
  {
    FilterIsSubsequence(Indicators, (w: string) => o.containsWord(text, w));
    Filter(Indicators, (w: string) => o.containsWord(text, w))
  }

  /** `_identify_strengths`: one message per indicator found, in order, at most five. */
  function Strengths(o: Oracles, text: string): (r: seq<string>)
    ensures |r| <= 5
    ensures |r| == if |FoundIndicators(o, text)| < 5 then |FoundIndicators(o, text)| else 5
    ensures forall k :: 0 <= k < |r| ==> r[k] == StrengthMessage(FoundIndicators(o, text)[k])
  {
    Take(MapSeq(FoundIndicators(o, text), StrengthMessage), 5)
  }

  /** `_identify_strengths`, appending one message per indicator found, then cutting to five. */
  method IdentifyStrengths(o: Oracles, text: string) returns (strengths: seq<string>)
    ensures strengths == Strengths(o, text)
  {
    var found := (w: string) => o.containsWord(text, w);
    strengths := [];
    for i := 0 to |Indicators|
      invariant strengths == MapSeq(Filter(Indicators[..i], found), StrengthMessage)
    {
      FilterSnoc(Indicators[..i], Indicators[i], found);
      assert Indicators[..i + 1] == Indicators[..i] + [Indicators[i]];
      if o.containsWord(text, Indicators[i]) {
        strengths := strengths + [StrengthMessage(Indicators[i])];
      }
    }
    assert Indicators[..|Indicators|] == Indicators;
    strengths := Take(strengths, 5);
  }

  // ---------------------------------------------------------------------
  // _identify_improvements
  // ---------------------------------------------------------------------

  const TooShort := "Resume appears too short - consider adding more details"
  const AddDates := "Consider adding specific dates and durations"
  const AddAchievements := "Consider adding quantifiable achievements"
  const AddSkills := "Consider highlighting technical skills more prominently"

  /** The four improvement messages, in the order they are checked. */
  const ImprovementMessages: seq<string> := [TooShort, AddDates, AddAchievements, AddSkills]

  /** The words of `\b(?:achieved|improved|increased|decreased)\b`. */
  const AchievementWords: seq<string> := ["achieved", "improved", "increased", "decreased"]

  /** The words of `\b(?:Python|Java|JavaScript|React|SQL)\b`. */
  const SkillWords: seq<string> := ["Python", "Java", "JavaScript", "React", "SQL"]

  /** Some word of the list occurs in the text (an alternation of whole words). */
  predicate AnyWord(o: Oracles, text: string, words: seq<string>) {
    exists k :: 0 <= k < |words| && o.containsWord(text, words[k])
  }

  /** Whether the check behind an improvement message fires. */
  predicate Applies(o: Oracles, text: string, message: string) {
    if message == TooShort then |text| < 500
    else if message == AddDates then !o.hasYear(text)
    else if message == AddAchievements then !AnyWord(o, text, AchievementWords)
    else message == AddSkills && !AnyWord(o, text, SkillWords)
  }

  /** `Applies` for one resume text, as the guard of a filter. */
  function AppliesTo(o: Oracles, text: string): string -> bool {
    m => Applies(o, text, m)
  }

  /**
    `_identify_improvements`: the messages whose check fires, in the fixed
    order, so at most four; each is present exactly when its check fires.
  */
  function Improvements(o: Oracles, text: string): (r: seq<string>)
    ensures |r| <= 4
    ensures Subsequence(r, ImprovementMessages)
    ensures TooShort in r <==> |text| < 500
    ensures AddDates in r <==> !o.hasYear(text)
    ensures AddAchievements in r <==> !AnyWord(o, text, AchievementWords)
    ensures AddSkills in r <==> !AnyWord(o, text, SkillWords)
  {
    var applies := AppliesTo(o, text);
    FilterIsSubsequence(ImprovementMessages, applies);
    var r := Filter(ImprovementMessages, applies);
    assert ImprovementMessages[0] == TooShort && ImprovementMessages[1] == AddDates;
    assert ImprovementMessages[2] == AddAchievements && ImprovementMessages[3] == AddSkills;
    r
  }

  /** `_identify_improvements`, appending each message whose check fires. */
  method IdentifyImprovements(o: Oracles, text: string) returns (improvements: seq<string>)
    ensures improvements == Improvements(o, text)
  {
    var applies := AppliesTo(o, text);
    var m := ImprovementMessages;
    assert m[..1] == [] + [TooShort] && m[..2] == m[..1] + [AddDates];
    assert m[..3] == m[..2] + [AddAchievements] && m == m[..3] + [AddSkills];
    improvements := [];
    FilterSnoc([], TooShort, applies);
    if |text| < 500 {
      improvements := improvements + [TooShort];
    }
    assert improvements == Filter(m[..1], applies);
    FilterSnoc(m[..1], AddDates, applies);
    if !o.hasYear(text) {
      improvements := improvements + [AddDates];
    }
    assert improvements == Filter(m[..2], applies);
    FilterSnoc(m[..2], AddAchievements, applies);
    if !AnyWord(o, text, AchievementWords) {
      improvements := improvements + [AddAchievements];
    }
    assert improvements == Filter(m[..3], applies);
    FilterSnoc(m[..3], AddSkills, applies);
    if !AnyWord(o, text, SkillWords) {
      improvements := improvements + [AddSkills];
    }
  }

  // ---------------------------------------------------------------------
  // _generate_summary
  // ---------------------------------------------------------------------

  /** The summary when no line qualifies. */
  const NoSummary := "Professional summary not found in resume."

  /** A line that qualifies as a summary: longer than 20 characters once stripped. */
  predicate LongLine(line: string) {
    |Strip(line)| > 20
  }

  /** The index of the first qualifying line, if any. */
  function FirstLongLine(lines: seq<string>): (r: Option<nat>)
    ensures r.None? ==> forall k :: 0 <= k < |lines| ==> !LongLine(lines[k])
    ensures r.Some? ==> r.value < |lines| && LongLine(lines[r.value])
    ensures r.Some? ==> forall k :: 0 <= k < r.value ==> !LongLine(lines[k])
  {
    var i := FirstIndexWhere(lines, LongLine);
    if i == -1 then None else Some(i)
  }

  /** `s[:200] + "..."` when `s` is longer than 200 characters, else `s`. */
  function Truncate(s: string): (r: string)
    ensures |s| <= 200 ==> r == s
    ensures |s| > 200 ==> r == s[..200] + "..." && |r| == 203
  {
    if |s| > 200 then s[..200] + "..." else s
  }

  /**
    `_generate_summary`: the first line that is longer than 20 characters
    once stripped, stripped and cut to 200 characters plus "...", or the
    fixed message when there is none. Either way the result is longer
    than 20 and at most 203 characters.
  */
  function GenerateSummary(text: string): (r: string)
    ensures FirstLongLine(Split(text, '\n')).None? ==> r == NoSummary
    ensures FirstLongLine(Split(text, '\n')).Some? ==>
              r == Truncate(Strip(Split(text, '\n')[FirstLongLine(Split(text, '\n')).value]))
    ensures 20 < |r| <= 203
  {
    var lines := Split(text, '\n');
    match FirstLongLine(lines)
    case None => NoSummary
    case Some(i) => Truncate(Strip(lines[i]))
  }

  // ---------------------------------------------------------------------
  // _parse_ai_response
  // ---------------------------------------------------------------------

  /** The eight-key dict `_parse_ai_response` returns; every key is always present. */
  datatype ParsedAnalysis = ParsedAnalysis(
    skills: Json, experience: Json, education: Json, summary: Json,
    strengths: Json, areasForImprovement: Json, aiInsights: Json, overallScore: Json)

  /** The all-default parse result: empty lists, an empty summary and a score of 0. */
  const AnalysisDefaults: ParsedAnalysis :=
    ParsedAnalysis(JArr([]), JArr([]), JArr([]), JStr(""), JArr([]), JArr([]), JArr([]), JNum(0.0))

  /** Each key read from a decoded dict with `.get` and its default. */
  function ReadAnalysis(d: map<string, Json>): (r: ParsedAnalysis)
    ensures r.skills == Get(d, "skills", JArr([])) && r.experience == Get(d, "experience", JArr([]))
    ensures r.education == Get(d, "education", JArr([])) && r.summary == Get(d, "summary", JStr(""))
    ensures r.strengths == Get(d, "strengths", JArr([]))
    ensures r.areasForImprovement == Get(d, "areas_for_improvement", JArr([]))
    ensures r.aiInsights == Get(d, "ai_insights", JArr([])) && r.overallScore == Get(d, "overall_score", JNum(0.0))
  {
    ParsedAnalysis(
      Get(d, "skills", JArr([])), Get(d, "experience", JArr([])), Get(d, "education", JArr([])),
      Get(d, "summary", JStr("")), Get(d, "strengths", JArr([])),
      Get(d, "areas_for_improvement", JArr([])), Get(d, "ai_insights", JArr([])),
      Get(d, "overall_score", JNum(0.0)))
  }

  /**
    `_parse_ai_response`: the same first-`{`/last-`}` span rule as the job
    matcher; every failure yields the all-default record.
  */
  function ParseAiResponse(o: Oracles, reply: string): (r: ParsedAnalysis)
    ensures JsonSpan(reply, '{', '}').None? ==> r == AnalysisDefaults
    ensures JsonSpan(reply, '{', '}').Some? ==>
              var (i, j) := JsonSpan(reply, '{', '}').value;
              match DecodeObject(o, reply[i..j])
              case None => r == AnalysisDefaults
              case Some(d) => r == ReadAnalysis(d)
  {
    var span := JsonSpan(reply, '{', '}');
    if span.None? then AnalysisDefaults
    else
      match DecodeObject(o, reply[span.value.0..span.value.1])
      case None => AnalysisDefaults
      case Some(d) => ReadAnalysis(d)
  }

  /** A reply without a JSON object parses to the defaults, whatever else it says. */
  lemma NoObjectDefaults(o: Oracles, reply: string)
    requires '{' !in reply || '}' !in reply
    ensures ParseAiResponse(o, reply) == AnalysisDefaults
  {
    JsonSpanExists(reply, '{', '}');
  }

  // ---------------------------------------------------------------------
  // analyze_resume
  // ---------------------------------------------------------------------

  /** The message of the outermost error record. */
  const AnalysisErrorMessage := "Failed to analyze resume"

  /**
    The dict `analyze_resume` returns: the nine-key analysis of either
    path, or the outermost error record, which has an `error` message and
    empty collections but no `ai_insights` and no `overall_score`.
  */
  datatype Analysis =
    | Analyzed(skills: Json, experience: Json, education: Json, contactInfo: Json, summary: Json,
               strengths: Json, areasForImprovement: Json, aiInsights: Json, overallScore: Json)
    | AnalysisFailed(error: string, skills: Json, experience: Json, education: Json,
                     contactInfo: Json, summary: Json, strengths: Json, areasForImprovement: Json)

  /** The outermost error record of `analyze_resume`. */
  const AnalysisError: Analysis :=
    AnalysisFailed(AnalysisErrorMessage, JArr([]), JArr([]), JArr([]), JObj(map[]), JStr(""), JArr([]), JArr([]))

  /** The regex fallback of `analyze_resume`: every field from the heuristics, no insights, score 0. */
  function FallbackAnalysis(o: Oracles, text: string): (r: Analysis)
    ensures r.Analyzed?
    ensures r.skills == StrList(ExtractSkills(o, text)) && r.summary == JStr(GenerateSummary(text))
    ensures r.strengths == StrList(Strengths(o, text)) && r.areasForImprovement == StrList(Improvements(o, text))
    ensures r.experience == o.experience(text) && r.education == o.education(text)
    ensures r.contactInfo == o.contactInfo(text)
    ensures r.aiInsights == JArr([]) && r.overallScore == JNum(0.0)
  {
    Analyzed(StrList(ExtractSkills(o, text)), o.experience(text), o.education(text), o.contactInfo(text),
             JStr(GenerateSummary(text)), StrList(Strengths(o, text)), StrList(Improvements(o, text)),
             JArr([]), JNum(0.0))
  }

  /**
    `analyze_resume(resume_text)` given the AI's reply (None: the call
    raised). A missing text makes the extractors raise on both paths, so
    the error record results. Otherwise the parsed reply supplies every
    field but the contact details, which always come from the extractor;
    the parse always has every key, so the heuristics are never used on
    that path. When the call raises, the regex fallback is returned.
  */
  function AnalyzeResume(o: Oracles, resumeText: Option<string>, aiReply: Option<string>): (r: Analysis)
    ensures resumeText.None? ==> r == AnalysisError
    ensures resumeText.Some? ==> r.Analyzed? && r.contactInfo == o.contactInfo(resumeText.value)
    ensures resumeText.Some? && aiReply.None? ==> r == FallbackAnalysis(o, resumeText.value)
    ensures resumeText.Some? && aiReply.Some? ==>
              var p := ParseAiResponse(o, aiReply.value);
              r.skills == p.skills && r.experience == p.experience && r.education == p.education
              && r.summary == p.summary && r.strengths == p.strengths
              && r.areasForImprovement == p.areasForImprovement
              && r.aiInsights == p.aiInsights && r.overallScore == p.overallScore
  {
    match resumeText
    case None => AnalysisError
    case Some(text) =>
      match aiReply
      case None => FallbackAnalysis(o, text)
      case Some(reply) =>
        var p := ParseAiResponse(o, reply);
        Analyzed(p.skills, p.experience, p.education, o.contactInfo(text), p.summary,
                 p.strengths, p.areasForImprovement, p.aiInsights, p.overallScore)
  }

  /** An AI reply without a JSON object gives empty fields and a score of 0, not the heuristics. */
  lemma ObjectlessReplyGivesDefaults(o: Oracles, text: string, reply: string)
    requires '{' !in reply
    ensures var r := AnalyzeResume(o, Some(text), Some(reply));
            r.skills == JArr([]) && r.strengths == JArr([]) && r.summary == JStr("")
            && r.aiInsights == JArr([]) && r.overallScore == JNum(0.0)
  {
    NoObjectDefaults(o, reply);
  }
}
