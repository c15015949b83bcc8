/**
  The analysis summary card: the colour and label bands of the resume
  score and the job match, the skills-covered figure, and the short
  lists it shows.
*/
module AnalysisSummary {
  import opened Text
  import opened ClientData

  /** The component's props. */
  datatype Props = Props(
    resumeScore: real, matchPercentage: real, matchingSkills: seq<string>, missingSkills: seq<string>,
    strengths: seq<string>, improvements: seq<string>, recommendations: seq<string>)

  /** The score labels. */
  const Excellent := "Excellent"
  const Good := "Good"
  const NeedsWork := "Needs Work"

  /** The match labels. */
  const PerfectMatch := "Perfect Match"
  const GoodMatch := "Good Match"
  const PoorMatch := "Poor Match"

  /** The label under the resume score: the same bands as its colour. */
  function ScoreLabel(score: real): (r: string)
    ensures r == Excellent <==> Color(score) == Green
    ensures r == Good <==> Color(score) == Yellow
    ensures r == NeedsWork <==> Color(score) == Red
  {
    if score >= 80.0 then Excellent else if score >= 60.0 then Good else NeedsWork
  }

  /** The label under the match percentage: the same bands as its colour. */
  function MatchLabel(percentage: real): (r: string)
    ensures r == PerfectMatch <==> Color(percentage) == Green
    ensures r == GoodMatch <==> Color(percentage) == Yellow
    ensures r == PoorMatch <==> Color(percentage) == Red
  {
    if percentage >= 80.0 then PerfectMatch else if percentage >= 60.0 then GoodMatch else PoorMatch
  }

  /** How many items `slice(0, 3)` keeps of a list of `n`. */
  function Cap(n: nat): nat {
    if n < 3 then n else 3
  }

  /** What the card renders. */
  datatype View = View(
    scoreTone: Tone, scoreLabel: string, matchTone: Tone, matchLabel: string,
    covered: nat, coveredOf: nat,
    strengths: seq<string>, improvements: seq<string>, actions: seq<(nat, string)>)

  /** The numbered priority actions: the list with positions counted from 1. */
  function Numbered(items: seq<string>): (r: seq<(nat, string)>)
    ensures |r| == |items|
    ensures forall k :: 0 <= k < |r| ==> r[k].0 == k + 1 && r[k].1 == items[k]
  {
    seq(|items|, k requires 0 <= k < |items| => (k + 1, items[k]))
  }

  /**
    The card: score and match in their bands, "matching / (matching +
    missing)" skills covered, and the first three strengths, improvements
    and recommendations (all of them when there are fewer), the last
    numbered 1, 2, 3.
  */
  function Render(props: Props): (v: View)
    ensures v.scoreTone == Color(props.resumeScore) && v.matchTone == Color(props.matchPercentage)
    ensures v.scoreLabel == ScoreLabel(props.resumeScore) && v.matchLabel == MatchLabel(props.matchPercentage)
    ensures v.covered == |props.matchingSkills| && v.coveredOf == |props.matchingSkills| + |props.missingSkills|
    ensures v.covered <= v.coveredOf
    ensures v.strengths <= props.strengths && |v.strengths| == Cap(|props.strengths|)
    ensures v.improvements <= props.improvements && |v.improvements| == Cap(|props.improvements|)
    ensures |v.actions| == Cap(|props.recommendations|)
    ensures forall k :: 0 <= k < |v.actions| ==> v.actions[k] == (k + 1, props.recommendations[k])
  {
    View(Color(props.resumeScore), ScoreLabel(props.resumeScore),
         Color(props.matchPercentage), MatchLabel(props.matchPercentage),
         |props.matchingSkills|, |props.matchingSkills| + |props.missingSkills|,
         Take(props.strengths, 3), Take(props.improvements, 3), Numbered(Take(props.recommendations, 3)))
  }
}
