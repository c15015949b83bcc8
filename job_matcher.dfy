/**
  The job matcher of the backend: skill-set algebra between a resume and a
  job description, the parsing of the AI's replies, the fallback
  recommendation builders and the bounding of the recommendation list.
  Skill extraction (regular expressions) and the AI call are foreign: the
  first is an oracle, the second an optional reply (None: the call raised).
*/
module JobMatcher {
  import opened Wrappers
  import opened Text
  import opened Json
  import opened Foreign
  import opened Replies

  // ---------------------------------------------------------------------
  // Skills
  // ---------------------------------------------------------------------

  /** `_extract_skills_from_job_description`: the distinct matches it collects. */
  function JobSkills(o: Oracles, text: string): (r: seq<string>)
    ensures NoDup(r) && Elems(r) == Elems(o.jobSkillMatches(text))
  {
    Dedup(o.jobSkillMatches(text))
  }

  /**
    `_calculate_skill_match`: 0 without job skills, otherwise the share of
    the job's list that the resume covers, as a percentage. It lies in
    [0, 100] whenever the job list has no duplicates.
  */
  function SkillMatch(resumeSkills: seq<string>, jobSkills: seq<string>): (r: real)
    ensures |jobSkills| == 0 ==> r == 0.0
    ensures |jobSkills| > 0 ==>
              r * (|jobSkills| as real) == (|Elems(resumeSkills) * Elems(jobSkills)| as real) * 100.0
    ensures 0.0 <= r
    ensures NoDup(jobSkills) ==> r <= 100.0
  {
    if |jobSkills| == 0 then 0.0
    else
      var m := |Elems(resumeSkills) * Elems(jobSkills)|;
      MatchCardBound(resumeSkills, jobSkills);
      Percent(m, |jobSkills|)
  }

  /** `m / n * 100` for a positive `n`: never negative, at most 100 when `m <= n`. */
  function Percent(m: nat, n: nat): (r: real)
    requires n > 0
    ensures r * (n as real) == (m as real) * 100.0
    ensures 0.0 <= r
    ensures m <= n ==> r <= 100.0
  {
    var q := (m as real) * 100.0 / (n as real);
    assert q * (n as real) == (m as real) * 100.0;
    if m <= n then
      assert (m as real) * 100.0 <= (n as real) * 100.0;
      q
    else q
  }

  /** The resume never covers more of a duplicate-free job list than its length. */
  lemma MatchCardBound(resumeSkills: seq<string>, jobSkills: seq<string>)
    ensures NoDup(jobSkills) ==> |Elems(resumeSkills) * Elems(jobSkills)| <= |jobSkills|
  {
    if NoDup(jobSkills) {
      NoDupCard(jobSkills);
      var a, b := Elems(resumeSkills) * Elems(jobSkills), Elems(jobSkills);
      assert b == a + (b - a);
    }
  }

  /** The three lists the regex fallback of `match_job` derives. */
  datatype SkillSplit = SkillSplit(matching: seq<string>, missing: seq<string>, extra: seq<string>)

  /**
    `list(set(R) & set(J))`, `list(set(J) - set(R))`, `list(set(R) - set(J))`.
    Matching and missing partition the job's skills; extra is disjoint from them.
  */
  function SplitSkills(resumeSkills: seq<string>, jobSkills: seq<string>): (r: SkillSplit)
    ensures Elems(r.matching) == Elems(resumeSkills) * Elems(jobSkills)
    ensures Elems(r.missing) == Elems(jobSkills) - Elems(resumeSkills)
    ensures Elems(r.extra) == Elems(resumeSkills) - Elems(jobSkills)
    ensures NoDup(r.matching) && NoDup(r.missing) && NoDup(r.extra)
    ensures Elems(r.matching) + Elems(r.missing) == Elems(jobSkills)
    ensures Elems(r.matching) * Elems(r.missing) == {}
    ensures Elems(r.extra) * Elems(jobSkills) == {}
  {
    var jr := Elems(jobSkills);
    var rr := Elems(resumeSkills);
    SkillSplit(SetToList(resumeSkills, jr), SetToList(jobSkills, jr - rr), SetToList(resumeSkills, rr - jr))
  }

  /** The fallback's count of matching skills is the cardinality `SkillMatch` uses. */
  lemma SplitMatchingCount(resumeSkills: seq<string>, jobSkills: seq<string>)
    ensures |SplitSkills(resumeSkills, jobSkills).matching| == |Elems(resumeSkills) * Elems(jobSkills)|
  {
    NoDupCard(SplitSkills(resumeSkills, jobSkills).matching);
  }

  // ---------------------------------------------------------------------
  // _parse_matching_response
  // ---------------------------------------------------------------------

  /**
    The seven-key dict `_parse_matching_response` returns. Every key is
    always present, so it is a record here.
  */
  datatype ParsedMatching = ParsedMatching(
    matchPercentage: Json, matchingSkills: Json, missingSkills: Json, extraSkills: Json,
    aiAnalysis: Json, skillGaps: Json, transferableSkills: Json)

  /** The all-default parse result: 0, empty lists and an empty analysis. */
  const MatchingDefaults: ParsedMatching :=
    ParsedMatching(JNum(0.0), JArr([]), JArr([]), JArr([]), JObj(map[]), JArr([]), JArr([]))

  /** Each key read from a decoded dict with `.get` and its default. */
  function ReadMatching(d: map<string, Json>): (r: ParsedMatching)
    ensures r.matchPercentage == Get(d, "match_percentage", JNum(0.0))
    ensures r.matchingSkills == Get(d, "matching_skills", JArr([]))
    ensures r.missingSkills == Get(d, "missing_skills", JArr([]))
    ensures r.extraSkills == Get(d, "extra_skills", JArr([]))
    ensures r.aiAnalysis == Get(d, "ai_analysis", JObj(map[]))
    ensures r.skillGaps == Get(d, "skill_gaps", JArr([]))
    ensures r.transferableSkills == Get(d, "transferable_skills", JArr([]))
  {
    ParsedMatching(
      Get(d, "match_percentage", JNum(0.0)), Get(d, "matching_skills", JArr([])),
      Get(d, "missing_skills", JArr([])), Get(d, "extra_skills", JArr([])),
      Get(d, "ai_analysis", JObj(map[])), Get(d, "skill_gaps", JArr([])),
      Get(d, "transferable_skills", JArr([])))
  }

  /**
    `_parse_matching_response`: exactly the `{`..`}` span is decoded and
    each key read with its default. Every failure (no span, a decode error,
    a non-dict value whose `.get` raises) yields the all-default record.
  */
  function ParseMatchingResponse(o: Oracles, reply: string): (r: ParsedMatching)
    ensures JsonSpan(reply, '{', '}').None? ==> r == MatchingDefaults
    ensures JsonSpan(reply, '{', '}').Some? ==>
              var (i, j) := JsonSpan(reply, '{', '}').value;
              match DecodeObject(o, reply[i..j])
              case None => r == MatchingDefaults
              case Some(d) => r == ReadMatching(d)
  {
    var span := JsonSpan(reply, '{', '}');
    if span.None? then MatchingDefaults
    else
      match DecodeObject(o, reply[span.value.0..span.value.1])
      case None => MatchingDefaults
      case Some(d) => ReadMatching(d)
  }

  /** A reply without a `{` or without a `}`, the empty reply included, parses to the defaults. */
  lemma NoBraceDefaults(o: Oracles, reply: string)
    requires '{' !in reply || '}' !in reply
    ensures ParseMatchingResponse(o, reply) == MatchingDefaults
  {
    JsonSpanExists(reply, '{', '}');
  }

  /** A reply whose every `}` precedes every `{` parses to the defaults. */
  lemma ReversedBracesDefaults(o: Oracles, reply: string)
    requires forall i, j :: 0 <= i < |reply| && 0 <= j < |reply| && reply[i] == '{' && reply[j] == '}' ==> j < i
    ensures ParseMatchingResponse(o, reply) == MatchingDefaults
  {
    JsonSpanExists(reply, '{', '}');
  }

  // ---------------------------------------------------------------------
  // match_job
  // ---------------------------------------------------------------------

  /**
    The dict `match_job` returns: the ten-key record of either path, or
    the outermost error record (zeros, empty lists and an `error` message,
    without the analysis keys).
  */
  datatype MatchReport =
    | Matched(matchPercentage: Json, matchingSkills: Json, missingSkills: Json, extraSkills: Json,
              totalResumeSkills: nat, totalJobSkills: nat, matchingCount: nat,
              aiAnalysis: Json, skillGaps: Json, transferableSkills: Json)
    | MatchFailed

  /** The message of the error record. */
  const MatchErrorMessage := "Failed to match job requirements"

  /** `round(v, 2)` accepts numbers and booleans; anything else raises. */
  predicate Roundable(v: Json) {
    v.JNum? || v.JBool?
  }

  /** The value `round` yields, with the rounding itself left out: booleans become 0 or 1. */
  function Rounded(v: Json): (r: Json)
    requires Roundable(v)
    ensures r.JNum?
    ensures v.JNum? ==> r == v
    ensures v.JBool? ==> r == JNum(if v.b then 1.0 else 0.0)
  {
    if v.JBool? then JNum(if v.b then 1.0 else 0.0) else v
  }

  /**
    The regex fallback record of `match_job`: the set algebra of
    `SplitSkills`, its percentage and counts, and empty analysis slots.
  */
  function FallbackMatch(resumeSkills: seq<string>, jobSkills: seq<string>): (r: MatchReport)
    ensures r.Matched?
    ensures var s := SplitSkills(resumeSkills, jobSkills);
            r.matchingSkills == StrList(s.matching) && r.missingSkills == StrList(s.missing)
            && r.extraSkills == StrList(s.extra)
    ensures r.matchPercentage == JNum(SkillMatch(resumeSkills, jobSkills))
    ensures r.matchingCount == |Elems(resumeSkills) * Elems(jobSkills)|
    ensures r.totalResumeSkills == |resumeSkills| && r.totalJobSkills == |jobSkills|
    ensures r.aiAnalysis == JObj(map[]) && r.skillGaps == JArr([]) && r.transferableSkills == JArr([])
  {
    var s := SplitSkills(resumeSkills, jobSkills);
    SplitMatchingCount(resumeSkills, jobSkills);
    Matched(JNum(SkillMatch(resumeSkills, jobSkills)), StrList(s.matching), StrList(s.missing),
            StrList(s.extra), |resumeSkills|, |jobSkills|, |s.matching|,
            JObj(map[]), JArr([]), JArr([]))
  }

  /**
    Whether the AI path of `match_job` completes: the eager default of
    `match_percentage` and `matching_count` need `len(matching_skills)`, and
    `round` needs a number.
  */
  predicate AiPathCompletes(parsed: ParsedMatching) {
    Sized(parsed.matchingSkills) && Roundable(parsed.matchPercentage)
  }

  /** The AI-path record of `match_job`: the parsed values, the counts from the regex lists. */
  function AiMatch(parsed: ParsedMatching, resumeSkills: seq<string>, jobSkills: seq<string>): (r: MatchReport)
    requires AiPathCompletes(parsed)
    ensures r.Matched?
    ensures r.matchingSkills == parsed.matchingSkills && r.missingSkills == parsed.missingSkills
            && r.extraSkills == parsed.extraSkills
    ensures r.aiAnalysis == parsed.aiAnalysis && r.skillGaps == parsed.skillGaps
            && r.transferableSkills == parsed.transferableSkills
    ensures r.matchPercentage == Rounded(parsed.matchPercentage)
    ensures r.matchingCount == Len(parsed.matchingSkills)
    ensures r.totalResumeSkills == |resumeSkills| && r.totalJobSkills == |jobSkills|
  {
    Matched(Rounded(parsed.matchPercentage), parsed.matchingSkills, parsed.missingSkills,
            parsed.extraSkills, |resumeSkills|, |jobSkills|, Len(parsed.matchingSkills),
            parsed.aiAnalysis, parsed.skillGaps, parsed.transferableSkills)
  }

  /**
    `match_job(resume_text, job_description)` given the AI's reply (None: the
    call raised). A missing resume text makes both skill extractions raise,
    so the outermost error record results; otherwise the AI record is used
    when it can be built, and the regex fallback when it cannot. On both
    paths the counts agree with the lists they count.
  */
  function MatchJob(o: Oracles, resumeText: Option<string>, jobDescription: string, aiReply: Option<string>)
    : (r: MatchReport)
    ensures resumeText.None? <==> r.MatchFailed?
    ensures resumeText.Some? ==>
              r.totalResumeSkills == |ExtractSkills(o, resumeText.value)|
              && r.totalJobSkills == |JobSkills(o, jobDescription)|
              && Sized(r.matchingSkills) && r.matchingCount == Len(r.matchingSkills)
              && r.matchPercentage.JNum?
    ensures resumeText.Some? && aiReply.None? ==>
              r == FallbackMatch(ExtractSkills(o, resumeText.value), JobSkills(o, jobDescription))
    ensures resumeText.Some? && aiReply.Some? ==>
              var p := ParseMatchingResponse(o, aiReply.value);
              r == if AiPathCompletes(p) then AiMatch(p, ExtractSkills(o, resumeText.value), JobSkills(o, jobDescription))
                   else FallbackMatch(ExtractSkills(o, resumeText.value), JobSkills(o, jobDescription))
  {
    match resumeText
    case None => MatchFailed
    case Some(text) =>
      var rs := ExtractSkills(o, text);
      var js := JobSkills(o, jobDescription);
      if aiReply.None? then FallbackMatch(rs, js)
      else
        var parsed := ParseMatchingResponse(o, aiReply.value);
        if AiPathCompletes(parsed) then AiMatch(parsed, rs, js) else FallbackMatch(rs, js)
  }

  /**
    On the AI path the skill lists come from the reply alone: the parse
    always supplies them, so the set-based defaults are never used.
  */
  lemma AiPathUsesReply(o: Oracles, text: string, jobDescription: string, reply: string)
    requires AiPathCompletes(ParseMatchingResponse(o, reply))
    ensures var r := MatchJob(o, Some(text), jobDescription, Some(reply));
            var p := ParseMatchingResponse(o, reply);
            r.matchingSkills == p.matchingSkills && r.missingSkills == p.missingSkills
            && r.extraSkills == p.extraSkills
  {
  }

  /** An AI reply without a JSON object gives empty skill lists and 0, not the regex result. */
  lemma EmptyReplyGivesEmptyLists(o: Oracles, text: string, jobDescription: string, reply: string)
    requires '{' !in reply
    ensures var r := MatchJob(o, Some(text), jobDescription, Some(reply));
            r.matchingSkills == JArr([]) && r.missingSkills == JArr([]) && r.extraSkills == JArr([])
            && r.matchPercentage == JNum(0.0) && r.matchingCount == 0
  {
    NoBraceDefaults(o, reply);
  }

  /** On the fallback the reported percentage lies in [0, 100]. */
  lemma FallbackPercentageBounded(o: Oracles, text: string, jobDescription: string)
    ensures var r := MatchJob(o, Some(text), jobDescription, None);
            r.matchPercentage.JNum? && 0.0 <= r.matchPercentage.n <= 100.0
  {
  }

  // ---------------------------------------------------------------------
  // Recommendations
  // ---------------------------------------------------------------------

  const TierPoor := "Your skills don't align well with this position. Consider applying to roles that better match your experience."
  const TierPartial := "You have some relevant skills, but consider highlighting transferable skills and gaining experience in missing areas."
  const TierGood := "Good skill alignment! Focus on showcasing your most relevant experiences and achievements."
  const TierExcellent := "Excellent skill match! Your background aligns well with this position."

  /** The tier message for a match percentage: thresholds 30, 60 and 80, each exclusive. */
  function TierMessage(percentage: real): (r: string)
    ensures percentage < 30.0 ==> r == TierPoor
    ensures 30.0 <= percentage < 60.0 ==> r == TierPartial
    ensures 60.0 <= percentage < 80.0 ==> r == TierGood
    ensures 80.0 <= percentage ==> r == TierExcellent
  {
    if percentage < 30.0 then TierPoor
    else if percentage < 60.0 then TierPartial
    else if percentage < 80.0 then TierGood
    else TierExcellent
  }

  /** `"Consider gaining experience in: "` naming the first three missing skills. */
  function MissingLine(missing: seq<string>): string {
    MissingPrefix + JoinWith(Take(missing, 3), ", ")
  }

  const MissingPrefix := "Consider gaining experience in: "
  const TailorGeneric := "Tailor your resume to highlight experiences relevant to the job requirements"
  const TailorPrefix := "Tailor your resume to highlight experiences relevant to "
  const QuantifyLine := "Include quantifiable achievements that demonstrate your impact"
  const AtsLine := "Ensure your resume is ATS-friendly with clear formatting and keywords"

  /** The three closing lines of the simple fallback. */
  const SimpleGeneralLines: seq<string> := [TailorGeneric, QuantifyLine, AtsLine]

  /** The simple fallback's lines for a tier message and the missing skills. */
  function SimpleList(tier: string, missing: seq<string>): seq<string> {
    [tier] + (if missing == [] then [] else [MissingLine(missing)]) + SimpleGeneralLines
  }

  /**
    `_generate_fallback_recommendations_simple`, as a list: one tier
    message, a missing-skills line when something is missing, then the
    three closing lines; 4 items or 5.
  */
  function SimpleRecommendations(resumeSkills: seq<string>, jobSkills: seq<string>): (r: seq<string>)
    ensures var missing := SplitSkills(resumeSkills, jobSkills).missing;
            |r| == (if Elems(jobSkills) <= Elems(resumeSkills) then 4 else 5)
            && r[0] == TierMessage(SkillMatch(resumeSkills, jobSkills))
            && r[|r| - 3..] == SimpleGeneralLines
            && (|r| == 5 ==> r[1] == MissingLine(missing))
  {
    var s := SplitSkills(resumeSkills, jobSkills);
    var r := SimpleList(TierMessage(SkillMatch(resumeSkills, jobSkills)), s.missing);
    if s.missing == [] then
      assert Elems(jobSkills) - Elems(resumeSkills) == {};
      r
    else
      assert s.missing[0] in Elems(s.missing);
      r
  }

  /** `_generate_fallback_recommendations_simple`, building its list step by step. */
  method FallbackRecommendationsSimple(resumeSkills: seq<string>, jobSkills: seq<string>)
    returns (recommendations: seq<string>)
    ensures recommendations == SimpleRecommendations(resumeSkills, jobSkills)
  {
    var split := SplitSkills(resumeSkills, jobSkills);
    var matchPercentage := SkillMatch(resumeSkills, jobSkills);
    recommendations := [];
    recommendations := recommendations + [TierMessage(matchPercentage)];
    if split.missing != [] {
      recommendations := recommendations + [MissingLine(split.missing)];
    }
    recommendations := recommendations + SimpleGeneralLines;
    assert recommendations == SimpleList(TierMessage(matchPercentage), split.missing);
    recommendations := Take(recommendations, 5);
  }

  /** The closing lines of the full fallback, naming the job and the company. */
  function GeneralLines(jobTitle: string, company: string): seq<string> {
    [TailorPrefix + jobTitle + " at " + company, QuantifyLine, AtsLine]
  }

  /** The lines between the tier message and the closing lines: the missing-skills line, then two improvement areas. */
  function FallbackMiddle(missingSkills: seq<string>, improvements: seq<string>): seq<string> {
    (if missingSkills != [] then [MissingLine(missingSkills)] else []) + Take(improvements, 2)
  }

  /**
    `_generate_fallback_recommendations`, for well-typed inputs: the tier
    message, the middle lines, then the closing lines, cut to five.
  */
  function FallbackList(matchPercentage: real, missingSkills: seq<string>, improvements: seq<string>,
                        jobTitle: string, company: string): seq<string>
  {
    Take([TierMessage(matchPercentage)] + FallbackMiddle(missingSkills, improvements) + GeneralLines(jobTitle, company), 5)
  }

  /**
    The full fallback has four items when nothing is missing and no
    improvement area is known, five otherwise; it opens with the tier
    message, followed by the missing-skills line when there is one.
  */
  lemma FallbackListShape(matchPercentage: real, missingSkills: seq<string>, improvements: seq<string>,
                          jobTitle: string, company: string)
    ensures var r := FallbackList(matchPercentage, missingSkills, improvements, jobTitle, company);
            |r| == (if missingSkills == [] && improvements == [] then 4 else 5)
            && r[0] == TierMessage(matchPercentage)
            && (missingSkills != [] ==> r[1] == MissingLine(missingSkills))
  {
    var middle := FallbackMiddle(missingSkills, improvements);
    var full := [TierMessage(matchPercentage)] + middle + GeneralLines(jobTitle, company);
    assert |full| == 1 + |middle| + 3;
    assert missingSkills == [] && improvements == [] <==> |middle| == 0;
    assert full[0] == TierMessage(matchPercentage);
    assert missingSkills != [] ==> full[1] == middle[0] == MissingLine(missingSkills);
  }

  /** `list.append` of each element of `ys` in turn. */
  method AppendEach(xs: seq<string>, ys: seq<string>) returns (r: seq<string>)
    ensures r == xs + ys
  {
    r := xs;
    var k := 0;
    while k < |ys|
      invariant 0 <= k <= |ys|
      invariant r == xs + ys[..k]
    {
      r := r + [ys[k]];
      k := k + 1;
    }
    assert ys[..k] == ys;
  }

  /** `_generate_fallback_recommendations`, building its list step by step. */
  method FallbackRecommendations(matchPercentage: real, missingSkills: seq<string>, improvements: seq<string>,
                                 jobTitle: string, company: string)
    returns (recommendations: seq<string>)
    ensures recommendations == FallbackList(matchPercentage, missingSkills, improvements, jobTitle, company)
  {
    recommendations := [TierMessage(matchPercentage)];
    if missingSkills != [] {
      recommendations := recommendations + [MissingLine(missingSkills)];
    }
    recommendations := AppendEach(recommendations, Take(improvements, 2));
    assert recommendations == [TierMessage(matchPercentage)] + FallbackMiddle(missingSkills, improvements);
    recommendations := recommendations + GeneralLines(jobTitle, company);
    recommendations := Take(recommendations, 5);
  }

  /** `str(rec)`: strings are kept, other values are rendered by Python. */
  function PyStr(o: Oracles, j: Json): string {
    if j.JStr? then j.s else o.pyStr(j)
  }

  /** `str`, as the function the comprehension maps over the items. */
  function Stringify(o: Oracles): Json -> string {
    v => PyStr(o, v)
  }

  /**
    `_parse_recommendations_response`: the `[`..`]` span decoded; a list
    gives its truthy elements as strings, in order; anything else gives [].
  */
  function ParseRecommendationsResponse(o: Oracles, reply: string): (r: seq<string>)
    ensures JsonSpan(reply, '[', ']').None? ==> r == []
    ensures JsonSpan(reply, '[', ']').Some? ==>
              var (i, j) := JsonSpan(reply, '[', ']').value;
              match o.decode(reply[i..j])
              case Some(JArr(items)) =>
                |r| <= |items| && r == MapSeq(Filter(items, Truthy), Stringify(o))
              case _ => r == []
  {
    var span := JsonSpan(reply, '[', ']');
    if span.None? then []
    else
      match o.decode(reply[span.value.0..span.value.1])
      case Some(JArr(items)) => MapSeq(Filter(items, Truthy), Stringify(o))
      case _ => []
  }

  /**
    The element rule of the recommendation parse, one item at a time: a
    falsy element adds nothing, a truthy one adds its string at the end.
  */
  lemma RecommendationItemsSnoc(o: Oracles, items: seq<Json>, x: Json)
    ensures MapSeq(Filter(items + [x], Truthy), Stringify(o))
            == MapSeq(Filter(items, Truthy), Stringify(o)) + (if Truthy(x) then [PyStr(o, x)] else [])
  {
    FilterSnoc(items, x, Truthy);
    var last: seq<Json> := if Truthy(x) then [x] else [];
    MapSeqAppend(Filter(items, Truthy), last, Stringify(o));
    assert MapSeq(last, Stringify(o)) == (if Truthy(x) then [PyStr(o, x)] else []);
  }

  /** A list of non-empty strings is returned as it is. */
  lemma NonEmptyStringsKept(o: Oracles, xs: seq<string>)
    requires forall k :: 0 <= k < |xs| ==> xs[k] != ""
    ensures MapSeq(Filter(StrList(xs).items, Truthy), Stringify(o)) == xs
  {
    var items := StrList(xs).items;
    assert forall k :: 0 <= k < |items| ==> Truthy(items[k]);
    FilterKeepsAll(items, Truthy);
    var r := MapSeq(items, Stringify(o));
    assert forall k :: 0 <= k < |xs| ==> r[k] == xs[k];
  }

  /**
    What `generate_recommendations` returns for a resume text: at most five
    items, the parsed reply cut to five, or the simple fallback when the
    call raised or the parse found nothing.
  */
  function Recommendations(o: Oracles, resumeText: string, jobDescription: string, aiReply: Option<string>)
    : (r: seq<string>)
    ensures 1 <= |r| <= 5
    ensures var fallback := SimpleRecommendations(ExtractSkills(o, resumeText), JobSkills(o, jobDescription));
            if aiReply.None? || ParseRecommendationsResponse(o, Strip(aiReply.value)) == []
            then r == fallback
            else r == Take(ParseRecommendationsResponse(o, Strip(aiReply.value)), 5)
  {
    var fallback := SimpleRecommendations(ExtractSkills(o, resumeText), JobSkills(o, jobDescription));
    match aiReply
    case None => fallback
    case Some(reply) =>
      var parsed := ParseRecommendationsResponse(o, Strip(reply));
      if parsed == [] then fallback else Take(parsed, 5)
  }

  /**
    `generate_recommendations` given the AI's reply (None: the call raised).
    A missing resume text raises out of the method (its fallback handler
    raises again), which is None here.
  */
  method GenerateRecommendations(o: Oracles, resumeText: Option<string>, jobDescription: string,
                                 aiReply: Option<string>)
    returns (r: Option<seq<string>>)
    ensures r.None? <==> resumeText.None?
    ensures r.Some? ==> r.value == Recommendations(o, resumeText.value, jobDescription, aiReply)
  {
    if resumeText.None? {
      return None;
    }
    var resumeSkills := ExtractSkills(o, resumeText.value);
    var jobSkills := JobSkills(o, jobDescription);
    var recommendations: seq<string>;
    if aiReply.None? {
      recommendations := FallbackRecommendationsSimple(resumeSkills, jobSkills);
      return Some(recommendations);
    }
    recommendations := ParseRecommendationsResponse(o, Strip(aiReply.value));
    if recommendations == [] {
      recommendations := FallbackRecommendationsSimple(resumeSkills, jobSkills);
    }
    return Some(Take(recommendations, 5));
  }
}
