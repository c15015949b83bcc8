/**
  The resume editor: where it takes its data from, the single
  whole-resume section it builds, the change list it derives from the
  job's skills, the optimised text it fills in, the suggestions it merges
  into a section, and the "after optimisation" estimate. Each request's
  outcome is a parameter (None: the request failed).
*/
module ResumeEditor {
  import opened Wrappers
  import opened Text
  import opened ClientData
  import MainApi

  /** `Change.type`. */
  datatype ChangeKind = Added | Removed | Modified

  /** One entry of a section's change list. */
  datatype Change = Change(kind: ChangeKind, original: string, optimized: string, reason: string)

  /** `ResumeSection`. */
  datatype Section = Section(
    id: string, title: string, originalContent: string, optimizedContent: string,
    changes: seq<Change>, keywords: seq<string>, suggestions: seq<string>)

  /** The whole-resume section's id and title, and the placeholder texts. */
  const FullResumeId := "full-resume"
  const FullResumeTitle := "Full Resume"
  const NoContent := "No resume content available"
  const Enhancing := "Enhancing your resume with AI..."

  /** `data.originalResume || placeholder`: an empty resume is replaced by the placeholder. */
  function ResumeOrPlaceholder(data: AnalysisData): (r: string)
    ensures r != ""
    ensures data.originalResume != "" ==> r == data.originalResume
  {
    if data.originalResume == "" then NoContent else data.originalResume
  }

  /** The resume already mentions the skill, compared lower-cased. */
  predicate Mentions(resume: string, skill: string) {
    Contains(Lower(resume), Lower(skill))
  }

  /** The loops' guard, as a test on skills. */
  function NotMentionedIn(resume: string): string -> bool {
    s => !Mentions(resume, s)
  }

  /** The change proposed for a missing skill. */
  function MissingSkillChange(skill: string): (c: Change)
    ensures c.kind == Added && c.original == "" && c.optimized == skill
  {
    Change(Added, "", skill, "Include '" + skill + "' - critical requirement for this position")
  }

  /** The change proposed for a matching skill. */
  function KeywordChange(skill: string): (c: Change)
    ensures c.kind == Added && c.original == ""
  {
    Change(Added, "", "Enhanced with " + skill + " keywords", "Incorporate '" + skill + "' keywords to pass ATS screening")
  }

  /** The first `n` skills, kept when the resume does not mention them: what a loop turns into changes. */
  function Unmentioned(resume: string, skills: seq<string>, n: nat): seq<string> {
    Filter(Take(skills, n), NotMentionedIn(resume))
  }

  /**
    The skills considered are at most the first `n`, in their order; a
    kept skill is one the resume does not mention, and every one of the
    first `n` the resume does not mention is kept, as often as it occurs
    among them.
  */
  lemma UnmentionedSkills(resume: string, skills: seq<string>, n: nat)
    ensures var r := Unmentioned(resume, skills, n);
            |r| <= n && |r| <= |skills|
            && Subsequence(r, Take(skills, n))
            && (forall k :: 0 <= k < |r| ==> !Mentions(resume, r[k]) && r[k] in skills)
            && (forall k :: 0 <= k < |Take(skills, n)| && !Mentions(resume, Take(skills, n)[k]) ==>
                  Take(skills, n)[k] in r)
    ensures var r, first := Unmentioned(resume, skills, n), Take(skills, n);
            forall k :: 0 <= k < |first| ==>
              multiset(r)[first[k]] == if Mentions(resume, first[k]) then 0 else multiset(first)[first[k]]
  {
    var r := Unmentioned(resume, skills, n);
    FilterIsSubsequence(Take(skills, n), NotMentionedIn(resume));
    FilterCount(Take(skills, n), NotMentionedIn(resume));
    forall k | 0 <= k < |r| ensures r[k] in skills {
      var j :| 0 <= j < |Take(skills, n)| && Take(skills, n)[j] == r[k];
      assert Take(skills, n)[j] == skills[j];
    }
  }

  /**
    `generateFullResumeChanges`, specified: a change for each of the first
    two missing skills the resume does not mention, then one for each of
    the first three matching skills it does not mention.
  */
  function FullResumeChanges(data: AnalysisData): seq<Change> {
    MapSeq(Unmentioned(data.originalResume, data.jobMatching.missingSkills, 2), MissingSkillChange)
    + MapSeq(Unmentioned(data.originalResume, data.jobMatching.matchingSkills, 3), KeywordChange)
  }

  /** At most five changes, every one an addition with an empty original. */
  lemma FullResumeChangesAreAdditions(data: AnalysisData)
    ensures var r := FullResumeChanges(data);
            |r| <= 5 && forall k :: 0 <= k < |r| ==> r[k].kind == Added && r[k].original == ""
  {
    var a := MapSeq(Unmentioned(data.originalResume, data.jobMatching.missingSkills, 2), MissingSkillChange);
    var b := MapSeq(Unmentioned(data.originalResume, data.jobMatching.matchingSkills, 3), KeywordChange);
    assert forall k :: 0 <= k < |a| ==> a[k].kind == Added && a[k].original == "";
    assert forall k :: 0 <= k < |b| ==> b[k].kind == Added && b[k].original == "";
    assert FullResumeChanges(data) == a + b;
  }

  /**
    The changes for missing skills come first, at most two of them, each
    naming a missing skill the resume does not mention.
  */
  lemma MissingSkillChangesFirst(data: AnalysisData)
    ensures var r := FullResumeChanges(data);
            var missing := Unmentioned(data.originalResume, data.jobMatching.missingSkills, 2);
            |missing| <= 2 && |missing| <= |r|
            && forall k :: 0 <= k < |missing| ==>
                 r[k].optimized == missing[k] && missing[k] in data.jobMatching.missingSkills
                 && !Mentions(data.originalResume, missing[k])
  {
    var missing := Unmentioned(data.originalResume, data.jobMatching.missingSkills, 2);
    var a := MapSeq(missing, MissingSkillChange);
    var b := MapSeq(Unmentioned(data.originalResume, data.jobMatching.matchingSkills, 3), KeywordChange);
    UnmentionedSkills(data.originalResume, data.jobMatching.missingSkills, 2);
    assert FullResumeChanges(data) == a + b;
    assert forall k :: 0 <= k < |missing| ==> (a + b)[k] == MissingSkillChange(missing[k]);
  }

  /** A resume that already mentions every skill of the job gets no proposed change. */
  lemma MentionedSkillsSkipped(data: AnalysisData)
    requires forall s :: s in data.jobMatching.missingSkills + data.jobMatching.matchingSkills ==>
               Mentions(data.originalResume, s)
    ensures FullResumeChanges(data) == []
  {
    UnmentionedSkills(data.originalResume, data.jobMatching.missingSkills, 2);
    UnmentionedSkills(data.originalResume, data.jobMatching.matchingSkills, 3);
  }

  /** One `forEach` of `generateFullResumeChanges`: push `make(skill)` for each skill the resume does not mention. */
  method PushChanges(resume: string, skills: seq<string>, make: string -> Change, changes: seq<Change>)
    returns (out: seq<Change>)
    ensures out == changes + MapSeq(Filter(skills, NotMentionedIn(resume)), make)
  {
    out := changes;
    for i := 0 to |skills|
      invariant out == changes + MapSeq(Filter(skills[..i], NotMentionedIn(resume)), make)
    {
      FilterSnoc(skills[..i], skills[i], NotMentionedIn(resume));
      assert skills[..i + 1] == skills[..i] + [skills[i]];
      ghost var kept := Filter(skills[..i], NotMentionedIn(resume));
      if !Mentions(resume, skills[i]) {
        assert MapSeq(kept + [skills[i]], make) == MapSeq(kept, make) + [make(skills[i])];
        out := out + [make(skills[i])];
      }
    }
    assert skills[..|skills|] == skills;
  }

  /** `generateFullResumeChanges`: the missing skills' loop, then the matching skills' loop. */
  method GenerateFullResumeChanges(data: AnalysisData) returns (changes: seq<Change>)
    ensures changes == FullResumeChanges(data)
  {
    var resume := data.originalResume;
    ghost var missing := MapSeq(Unmentioned(resume, data.jobMatching.missingSkills, 2), MissingSkillChange);
    ghost var matching := MapSeq(Unmentioned(resume, data.jobMatching.matchingSkills, 3), KeywordChange);
    var head := PushChanges(resume, Take(data.jobMatching.missingSkills, 2), MissingSkillChange, []);
    assert head == missing by {
      assert [] + missing == missing;
    }
    changes := PushChanges(resume, Take(data.jobMatching.matchingSkills, 3), KeywordChange, head);
    assert changes == missing + matching;
  }

  /**
    `initializeResumeSections`, before the AI text arrives: one section,
    the whole resume, keyed by the job's matching skills, with the derived
    changes and no suggestions yet.
  */
  function InitialSections(data: AnalysisData): (r: seq<Section>)
    ensures |r| == 1
    ensures r[0].id == FullResumeId && r[0].title == FullResumeTitle
    ensures r[0].originalContent == ResumeOrPlaceholder(data) && r[0].optimizedContent == Enhancing
    ensures r[0].keywords == data.jobMatching.matchingSkills && r[0].suggestions == []
    ensures r[0].changes == FullResumeChanges(data)
  {
    [Section(FullResumeId, FullResumeTitle, ResumeOrPlaceholder(data), Enhancing,
             FullResumeChanges(data), data.jobMatching.matchingSkills, [])]
  }

  /**
    `generateCompleteOptimizedResume`: the backend's optimised text, or on
    any failure the original resume (or its placeholder).
  */
  function CompleteOptimizedResume(data: AnalysisData, reply: Option<string>): (r: string)
    ensures reply.Some? ==> r == reply.value
    ensures reply.None? ==> r == ResumeOrPlaceholder(data)
  {
    if reply.Some? then reply.value else ResumeOrPlaceholder(data)
  }

  /** Every section gets the same optimised text and keeps all its other fields. */
  function WithOptimized(sections: seq<Section>, content: string): (r: seq<Section>)
    ensures |r| == |sections|
    ensures forall k :: 0 <= k < |r| ==> r[k].optimizedContent == content
    ensures forall k :: 0 <= k < |r| ==> r[k].(optimizedContent := sections[k].optimizedContent) == sections[k]
  {
    MapSeq(sections, (s: Section) => s.(optimizedContent := content))
  }

  /** The index of the first section with the id: `resumeSections.find`. */
  function FindSection(sections: seq<Section>, id: string): (r: Option<nat>)
    ensures r.None? <==> forall k :: 0 <= k < |sections| ==> sections[k].id != id
    ensures r.Some? ==> r.value < |sections| && sections[r.value].id == id
    ensures r.Some? ==> forall k :: 0 <= k < r.value ==> sections[k].id != id
  {
    if |sections| == 0 then None
    else if sections[0].id == id then Some(0)
    else
      var k := FindSection(sections[1..], id);
      if k.None? then None else Some(k.value + 1)
  }

  /** Every section with the id gets the new suggestions appended; the others are untouched. */
  function MergeSuggestions(sections: seq<Section>, id: string, added: seq<string>): (r: seq<Section>)
    ensures |r| == |sections|
    ensures forall k :: 0 <= k < |r| && sections[k].id == id ==>
              r[k] == sections[k].(suggestions := sections[k].suggestions + added)
    ensures forall k :: 0 <= k < |r| && sections[k].id != id ==> r[k] == sections[k]
  {
    MapSeq(sections, (s: Section) => if s.id == id then s.(suggestions := s.suggestions + added) else s)
  }

  /** Merging keeps the old suggestions as a prefix and adds exactly the new ones. */
  lemma MergeExtends(sections: seq<Section>, id: string, added: seq<string>, k: nat)
    requires k < |sections| && sections[k].id == id
    ensures var s := MergeSuggestions(sections, id, added)[k].suggestions;
            |s| == |sections[k].suggestions| + |added|
            && s[..|sections[k].suggestions|] == sections[k].suggestions
            && s[|sections[k].suggestions|..] == added
  {
  }

  /** The request `getAISuggestions` sends. */
  datatype SuggestionRequest = SuggestionRequest(
    sectionId: string, sectionTitle: string, originalContent: string, jobTitle: string,
    jobDescription: string, matchingSkills: seq<string>, missingSkills: seq<string>, fullResume: string)

  /** `x || default` for an optional string. */
  function OrDefault(x: Option<string>, default: string): (r: string)
    ensures x.Some? && x.value != "" ==> r == x.value
    ensures x.None? || x.value == "" ==> r == default
  {
    if x.Some? && x.value != "" then x.value else default
  }

  /**
    The body `generateCompleteOptimizedResume` posts to
    `/api/generate-optimized-resume`: the resume, the title and
    description (empty when missing), both skill lists and the
    `full_resume` section type.
  */
  function OptimizeRequestFor(data: AnalysisData): (r: MainApi.OptimizeRequest)
    ensures r.originalResume == data.originalResume && r.sectionType == "full_resume"
    ensures r.matchingSkills == data.jobMatching.matchingSkills && r.missingSkills == data.jobMatching.missingSkills
    ensures data.jobMatching.jobTitle.Some? ==> r.jobTitle == data.jobMatching.jobTitle.value
    ensures data.jobMatching.jobTitle.None? ==> r.jobTitle == ""
    ensures data.jobMatching.jobDescription.Some? ==> r.jobDescription == data.jobMatching.jobDescription.value
    ensures data.jobMatching.jobDescription.None? ==> r.jobDescription == ""
  {
    MainApi.OptimizeRequest(data.originalResume, OrDefault(data.jobMatching.jobTitle, ""),
                            OrDefault(data.jobMatching.jobDescription, ""),
                            data.jobMatching.matchingSkills, data.jobMatching.missingSkills, "full_resume")
  }

  /**
    The backend answers the editor's request with its full-resume
    template, which uses the job description and both skill lists.
  */
  lemma EditorRequestUsesFullTemplate(data: AnalysisData)
    ensures var prompt := MainApi.PromptFor(OptimizeRequestFor(data));
            prompt.template == MainApi.FullResume
            && prompt.jobDescription == Some(OrDefault(data.jobMatching.jobDescription, ""))
            && prompt.missingSkills == Some(data.jobMatching.missingSkills)
            && prompt.matchingSkills == data.jobMatching.matchingSkills
  {
  }

  /** The suggestion request for a section: the whole resume for the whole-resume section. */
  function SuggestionRequestFor(section: Section, data: AnalysisData): (r: SuggestionRequest)
    ensures r.sectionId == section.id && r.sectionTitle == section.title
    ensures section.id == FullResumeId ==> r.originalContent == data.originalResume
    ensures section.id != FullResumeId ==> r.originalContent == section.originalContent
    ensures r.jobTitle == OrDefault(data.jobMatching.jobTitle, "Software Engineer")
    ensures r.fullResume == data.originalResume
  {
    SuggestionRequest(section.id, section.title,
                      if section.id == FullResumeId then data.originalResume else section.originalContent,
                      OrDefault(data.jobMatching.jobTitle, "Software Engineer"),
                      OrDefault(data.jobMatching.jobDescription, ""),
                      data.jobMatching.matchingSkills, data.jobMatching.missingSkills, data.originalResume)
  }

  /**
    The "After Optimization" figure, `Math.min(95, p + 25)`: 25 points up,
    capped at 95.
  */
  function AfterOptimization(p: real): (r: real)
    ensures r <= 95.0
    ensures p <= 70.0 ==> r == p + 25.0
    ensures p >= 70.0 ==> r == 95.0
  {
    if 95.0 <= p + 25.0 then 95.0 else p + 25.0
  }

  /** The estimate never shows less than the current match unless that is already above 95. */
  lemma AfterOptimizationNotWorse(p: real)
    ensures p <= 95.0 ==> p <= AfterOptimization(p)
    ensures p > 95.0 ==> AfterOptimization(p) < p
  {
  }

  /** The editor page's component state. */
  class Editor {
    var sections: seq<Section>
    var aiGenerating: bool
    var editorData: Option<AnalysisData>
    /** The `analysisData` session entry. */
    var stored: Stored
    /** The editor navigated away to `/upload`. */
    var redirected: bool
    var requests: seq<SuggestionRequest>
    /** The bodies posted to `/api/generate-optimized-resume`, in order. */
    var optimizeRequests: seq<MainApi.OptimizeRequest>

    constructor (session: Stored)
      ensures sections == [] && !aiGenerating && editorData == None
      ensures stored == session && !redirected && requests == [] && optimizeRequests == []
    {
      sections := [];
      aiGenerating := false;
      editorData := None;
      stored := session;
      redirected := false;
      requests := [];
      optimizeRequests := [];
    }

    /**
      `generateAIContent`, run to completion: the sections it was given,
      each with the complete optimised text; one optimisation request is
      posted, and the busy flag is down again.
    */
    method GenerateAIContent(data: AnalysisData, given: seq<Section>, reply: Option<string>)
      modifies this
      ensures sections == WithOptimized(given, CompleteOptimizedResume(data, reply))
      ensures !aiGenerating
      ensures editorData == old(editorData) && stored == old(stored) && redirected == old(redirected)
      ensures requests == old(requests)
      ensures optimizeRequests == old(optimizeRequests) + [OptimizeRequestFor(data)]
    {
      aiGenerating := true;
      optimizeRequests := optimizeRequests + [OptimizeRequestFor(data)];
      var content := CompleteOptimizedResume(data, reply);
      sections := WithOptimized(given, content);
      aiGenerating := false;
    }

    /**
      The data-loading effect: navigation state wins and is written to the
      session; otherwise a parsable session entry is used; otherwise the
      page goes to `/upload`. Loaded data yields the initial section,
      completed with the optimised text.
    */
    method InitializeData(navigation: Option<AnalysisData>, reply: Option<string>)
      modifies this
      ensures requests == old(requests)
      ensures match LoadSource(navigation, old(stored))
              case FromNavigation(data) =>
                editorData == Some(data) && stored == Parsed(data) && redirected == old(redirected)
                && sections == WithOptimized(InitialSections(data), CompleteOptimizedResume(data, reply))
                && optimizeRequests == old(optimizeRequests) + [OptimizeRequestFor(data)]
              case FromStorage(data) =>
                editorData == Some(data) && stored == old(stored) && redirected == old(redirected)
                && sections == WithOptimized(InitialSections(data), CompleteOptimizedResume(data, reply))
                && optimizeRequests == old(optimizeRequests) + [OptimizeRequestFor(data)]
              case NoData =>
                redirected && editorData == old(editorData) && sections == old(sections) && stored == old(stored)
                && optimizeRequests == old(optimizeRequests)
    {
      var source := LoadSource(navigation, stored);
      match source
      case FromNavigation(data) =>
        editorData := Some(data);
        sections := InitialSections(data);
        GenerateAIContent(data, sections, reply);
        stored := Parsed(data);
      case FromStorage(data) =>
        editorData := Some(data);
        sections := InitialSections(data);
        GenerateAIContent(data, sections, reply);
      case NoData =>
        redirected := true;
    }

    /**
      `getAISuggestions(sectionId)`: nothing without such a section or
      without data; otherwise one request, and on success the section's
      suggestions extended with the reply's, the other sections untouched.
    */
    method GetAISuggestions(sectionId: string, reply: Option<seq<string>>)
      modifies this
      ensures editorData == old(editorData) && stored == old(stored) && redirected == old(redirected)
      ensures aiGenerating == old(aiGenerating) && optimizeRequests == old(optimizeRequests)
      ensures FindSection(old(sections), sectionId).None? || old(editorData).None? ==>
                sections == old(sections) && requests == old(requests)
      ensures FindSection(old(sections), sectionId).Some? && old(editorData).Some? ==>
                requests == old(requests) + [SuggestionRequestFor(old(sections)[FindSection(old(sections), sectionId).value],
                                                                  old(editorData).value)]
                && sections == (if reply.Some? then MergeSuggestions(old(sections), sectionId, reply.value)
                                else old(sections))
    {
      var found := FindSection(sections, sectionId);
      if found.None? || editorData.None? {
        return;
      }
      requests := requests + [SuggestionRequestFor(sections[found.value], editorData.value)];
      if reply.Some? {
        sections := MergeSuggestions(sections, sectionId, reply.value);
      }
    }
  }
}
