# JobWiz resume analyser — a verified model of its deterministic core

JobWiz takes a résumé upload and a job description. It extracts the
résumé's text, scores it, matches its skills against the job's, and shows
recommendations, coaching and an AI-rewritten résumé on several client
pages. This project models, in Dafny, the parts of that system that do not
depend on the AI model or on a library:

- **Backend `JobMatcher`** (`job_matcher.dfy`): the skill set algebra, the
  match ratio, the fallback and AI paths of `match_job`, the tiered
  recommendation generators, and the bounding in `generate_recommendations`.
- **Backend `ResumeAnalyzer`** (`resume_analyzer.dfy`): the strengths,
  improvements and summary heuristics, `_parse_ai_response`, and the
  result assembly of `analyze_resume`.
- **`Replies`** (`replies.dfy`): the first-opening/last-closing span rule
  that both parsers share.
- **Backend `FileHandler`** (`file_handler.dfy`): the extension allow-list,
  the `uploads/<uuid><suffix>` naming, the dispatch to a reader, the
  readers' accumulation loops, and the `uploads/` directory as a class
  whose files and event log the methods update.
- **Backend `MainApi`** (`main_api.dfy`):
  - the `/api/upload` control flow (validate, save, extract, analyse, clean up);
  - the suggestion cleaner;
  - the template choice of `/api/generate-optimized-resume`.
- **Client pages**:
  - `UploadPage`: the MIME and size checks, the form schema, and the state
    and effect sequence of the handlers;
  - `SignUp`: the password policy and form validity;
  - `GetStarted`: the three-step wizard;
  - `ResumeEditor`: change synthesis, suggestion merging and data loading;
  - `AnalysisSummary`: the score banding and display caps;
  - `AnalysisResults`: data loading, the shared loading flag, the summary
    template, the caps, and the key-insight reads of `ai_analysis`.
- **Shared modules**: `Text` (Python and TypeScript string helpers), `Json`
  (JSON values and Python truthiness), `Foreign` (the oracles) and
  `ClientData` (the client's analysis-data shape and colour bands).

Foreign code is given to the model as total functions in the `Foreign.Oracles`
and `FileHandler.Libraries` records:

- regular-expression extractors;
- `json.loads`;
- Python's `str` of a non-string;
- PyPDF2, python-docx and the UTF-8 decoder.

An AI reply is a parameter: `None` means the call raised, and `Some(text)`
is the message content. The `uuid4` of a saved upload is also a parameter.
Client network requests are recorded as effects, and each response is a
parameter.

Python's `list(set(xs))` has no specified order. The model fixes it to the
order of first occurrence, and the set-valued results (`Text.SetToList`,
`Text.Dedup`) are stated up to order; the client's first-few caps
(`Take`) then depend on the fixed order. Percentages are exact reals, and the threshold
comparisons are the source's own.

## Model

| member | source | states |
|---|---|---|
| Text.IndexOf | backend/services/job_matcher.py:282 | `str.find` of one character: -1 iff absent, else its first position |
| Text.LastIndexOf | backend/services/job_matcher.py:283 | `str.rfind` of one character: -1 iff absent, else its last position |
| Text.Strip | backend/services/resume_analyzer.py:179 | `str.strip()`: the slice after the leading whitespace, with only whitespace after it and none at either end of it; empty iff the string is blank |
| Text.StripStripped | backend/main.py:204 | a string with no whitespace at either end is its own strip |
| Text.Split | backend/main.py:202 | `str.split('\n')`: at least one piece, none holding the separator, and joining them gives back the string |
| Text.Lower | backend/utils/file_handler.py:27 | `str.lower()` for ASCII letters: same length, lower-cased character by character |
| Text.ContainsAt | src/pages/ResumeEditor.tsx:159 | `includes` holds iff the pattern occurs at some position |
| Text.RemoveAll | backend/main.py:204 | `str.replace(pat, '')`: never longer, holds no character (counted with multiplicity) the string did not, and unchanged when the pattern does not occur |
| Text.RemoveLeftmost | backend/main.py:204 | the scan removes the leftmost occurrence first: the text before an occurrence that no earlier or overlapping one precedes is kept, and removal goes on after it |
| Text.Take | backend/services/job_matcher.py:140 | `xs[:n]`: a prefix of length min(n, len) |
| Text.SetToList | backend/services/job_matcher.py:73-77 | `list(set(xs) & keep)`: duplicate-free, with exactly those elements |
| Text.Dedup | backend/services/resume_analyzer.py:99 | `list(set(xs))`: duplicate-free, with the same elements and as many items as distinct elements |
| Text.Filter | backend/services/job_matcher.py:373 | a comprehension's `if`: every kept item satisfies the test and comes from the list, and every item that satisfies it is kept |
| Text.FilterCount | backend/services/job_matcher.py:373 | multiplicities: an item that passes occurs in the result as often as in the list, one that fails not at all, and nothing else occurs |
| Text.FilterSnoc | backend/services/job_matcher.py:373 | filtering one more item appends it exactly when it passes |
| Text.FilterIsSubsequence | backend/services/job_matcher.py:373 | filtering keeps the order of the items it keeps |
| Text.FirstIndexWhere | backend/services/resume_analyzer.py:179-181 | `[...][0]` of a comprehension: the first position passing the test, or -1 when none does |
| Text.Utf16Length | src/pages/SignUp.tsx:27 | JavaScript's `length` in UTF-16 units: between the character count and twice it, and equal to it when every character is in the Basic Multilingual Plane |
| JobMatcher.SkillMatch | backend/services/job_matcher.py:199-205 | 0 for an empty job list; otherwise ratio·len(J) = \|set(R)∩set(J)\|·100, non-negative, and at most 100 when the job list has no duplicates |
| JobMatcher.Percent | backend/services/job_matcher.py:205 | `m / n * 100`: times n it is m·100, never negative, and at most 100 when m ≤ n |
| JobMatcher.MatchCardBound | backend/services/job_matcher.py:203-205 | the résumé covers no more of a duplicate-free job list than the list's length |
| JobMatcher.SplitSkills | backend/services/job_matcher.py:73-77 | matching = R∩J, missing = J−R, extra = R−J, each duplicate-free; matching and missing partition set(J), and extra is disjoint from J |
| JobMatcher.SplitMatchingCount | backend/services/job_matcher.py:85 | the matching list's length is the size of the intersection |
| JobMatcher.JobSkills | backend/services/job_matcher.py:172-197 | the job's skills are duplicate-free and are exactly the set the extractor matches |
| JobMatcher.FallbackMatch | backend/services/job_matcher.py:70-91 | the regex path: the three set-algebra lists, the ratio, the three counts from the lists, and empty AI-only fields |
| JobMatcher.ReadMatching | backend/services/job_matcher.py:290-298 | each key is read with its default: percentage 0, empty lists and an empty dict |
| JobMatcher.ParseMatchingResponse | backend/services/job_matcher.py:276-320 | without a `{`…`}` span, or when the slice does not decode to an object, all defaults; otherwise exactly the slice from the first `{` to the last `}` inclusive is decoded |
| JobMatcher.NoBraceDefaults | backend/services/job_matcher.py:282-309 | a reply missing `{` or `}` yields the all-default record |
| JobMatcher.ReversedBracesDefaults | backend/services/job_matcher.py:282-309 | a reply whose every `}` precedes every `{` yields the all-default record |
| JobMatcher.Rounded | backend/services/job_matcher.py:59 | `round` keeps a number and reads a boolean as 0 or 1 (the rounding digits are left out) |
| JobMatcher.AiMatch | backend/services/job_matcher.py:49-65 | the AI-path record takes the parsed lists and fields, the count from `len(matching_skills)`, and the totals from the regex lists |
| JobMatcher.MatchJob | backend/services/job_matcher.py:16-104 | no text gives the error record; the fallback runs when the call raised or when the AI path raises; both paths set `matching_count == len(matching_skills)` and the two totals |
| JobMatcher.AiPathUsesReply | backend/services/job_matcher.py:49-51 | on the AI path the three skill lists are the parsed ones, never the set-based defaults |
| JobMatcher.EmptyReplyGivesEmptyLists | backend/services/job_matcher.py:49-308 | a reply without `{` gives empty lists, percentage 0 and count 0 |
| JobMatcher.FallbackPercentageBounded | backend/services/job_matcher.py:70-91 | the fallback's percentage lies in [0, 100] |
| JobMatcher.TierMessage | backend/services/job_matcher.py:476-483 | thresholds <30, <60, <80, else, each picking its own message |
| JobMatcher.SimpleRecommendations | backend/services/job_matcher.py:464-496 | the tier message first and the three fixed lines last; the missing-skills line (first three skills) is second exactly when some job skill is missing; length 4 when nothing is missing, 5 otherwise |
| JobMatcher.FallbackRecommendationsSimple | backend/services/job_matcher.py:464-496 | the append-then-slice builder yields exactly the simple fallback list |
| JobMatcher.FallbackListShape | backend/services/job_matcher.py:383-417 | the full fallback opens with the tier message, then the missing line when something is missing; it has 4 items when nothing is missing and no improvement is known, and 5 otherwise |
| JobMatcher.FallbackRecommendations | backend/services/job_matcher.py:383-417 | the builder yields the tier line, the missing line, two improvement areas and the closing lines, cut to five |
| JobMatcher.ParseRecommendationsResponse | backend/services/job_matcher.py:358-381 | [] unless the `[`…`]` span decodes to a list; then the falsy elements are dropped, order is kept, and each element is passed through `str` |
| JobMatcher.RecommendationItemsSnoc | backend/services/job_matcher.py:373 | one more element adds its string at the end exactly when it is truthy |
| JobMatcher.NonEmptyStringsKept | backend/services/job_matcher.py:373 | a list of non-empty strings comes back unchanged |
| JobMatcher.Recommendations | backend/services/job_matcher.py:106-147 | between 1 and 5 items: the parsed reply cut to five, or the simple fallback when the call raised or the parse found nothing |
| JobMatcher.GenerateRecommendations | backend/services/job_matcher.py:106-147 | no text raises (None); otherwise the bounded list above |
| ResumeAnalyzer.FoundIndicators | backend/services/resume_analyzer.py:191-199 | exactly the indicators whose word occurs, in the indicator order |
| ResumeAnalyzer.Strengths | backend/services/resume_analyzer.py:186-201 | one "Demonstrates … experience" per indicator found, in order, capped at 5 |
| ResumeAnalyzer.IdentifyStrengths | backend/services/resume_analyzer.py:186-201 | the loop with its append and the `[:5]` slice yields exactly that list |
| ResumeAnalyzer.Improvements | backend/services/resume_analyzer.py:203-220 | at most 4 items in the fixed order; each message is present iff its check fires ("too short" iff len < 500) |
| ResumeAnalyzer.IdentifyImprovements | backend/services/resume_analyzer.py:203-220 | the four conditional appends yield exactly that list |
| ResumeAnalyzer.FirstLongLine | backend/services/resume_analyzer.py:179 | the first line longer than 20 characters once stripped, or none; no earlier line qualifies |
| ResumeAnalyzer.Truncate | backend/services/resume_analyzer.py:182 | strings over 200 become the first 200 characters plus "...", 203 in all |
| ResumeAnalyzer.GenerateSummary | backend/services/resume_analyzer.py:175-184 | the fixed message when no line qualifies, else the first qualifying line stripped and truncated; the length is always in (20, 203] |
| ResumeAnalyzer.ReadAnalysis | backend/services/resume_analyzer.py:297-306 | each key is read with its default: [] for lists, "" for the summary, 0 for the score |
| ResumeAnalyzer.ParseAiResponse | backend/services/resume_analyzer.py:282-331 | the same span rule as the matcher; defaults when there is no span or no object |
| ResumeAnalyzer.NoObjectDefaults | backend/services/resume_analyzer.py:289-318 | a reply missing `{` or `}` parses to all defaults |
| ResumeAnalyzer.FallbackAnalysis | backend/services/resume_analyzer.py:58-71 | on AI failure: the regex skills, heuristics and summary; `ai_insights == []` and score 0 |
| ResumeAnalyzer.AnalyzeResume | backend/services/resume_analyzer.py:15-84 | no text gives the error record (an error, empty collections, no score); `contact_info` always comes from the extractor; the AI path copies the parsed fields |
| ResumeAnalyzer.ObjectlessReplyGivesDefaults | backend/services/resume_analyzer.py:41-56 | a reply without `{` gives empty skills and strengths, an empty summary and score 0 |
| Foreign.ExtractSkills | backend/services/resume_analyzer.py:86-99 | the résumé's skills are duplicate-free and are exactly the set the extractor matches |
| Json.StrListInjective | backend/services/job_matcher.py:74-76 | two string lists with the same JSON list are equal |
| Replies.JsonSpan | backend/services/job_matcher.py:282-286 | the span runs from the first opening character to the last closing one inclusive |
| Replies.JsonSpanExists | backend/services/job_matcher.py:284 | a span exists iff some opening character occurs at or before some closing one |
| Replies.JsonSpanSlice | backend/services/job_matcher.py:286 | the slice is non-empty and starts and ends with the two characters |
| FileHandler.FinalComponent | backend/utils/file_handler.py:27 | the part after the last `/`, which contains no `/` |
| FileHandler.FinalComponentAfterSlash | backend/utils/file_handler.py:27 | the character just before the final component is a `/`, so the component is all that follows the last one |
| FileHandler.Suffix | backend/utils/file_handler.py:27 | "" or a dot followed by characters free of dots and slashes, at the end of the final component |
| FileHandler.AllowedKeys | backend/utils/file_handler.py:15-20 | the table's keys are the four extensions |
| FileHandler.IsValidFileType | backend/utils/file_handler.py:22-28 | valid iff a non-empty name is given whose lower-cased suffix is one of the four |
| FileHandler.UpperCaseAccepted | backend/utils/file_handler.py:27-28 | `CV.PDF` is valid |
| FileHandler.ExtensionSuffix | backend/utils/file_handler.py:27 | `stem.ending` has suffix `.ending` when the ending has no dot |
| FileHandler.NoExtensionRefused | backend/utils/file_handler.py:27-28 | a name without a dot is refused |
| FileHandler.SavedSuffix | backend/utils/file_handler.py:33-38 | the saved path keeps the lower-cased suffix of the original name |
| FileHandler.FinalOfSaved | backend/utils/file_handler.py:38 | the final component of `uploads/<name>` is `name` when the name has no `/` |
| FileHandler.LowerIdempotent | backend/utils/file_handler.py:27-50 | lower-casing an already lower-cased suffix changes nothing |
| FileHandler.CvSuffix | backend/utils/file_handler.py:27 | `CV.PDF` has suffix `.PDF` |
| FileHandler.SuffixAfterId | backend/utils/file_handler.py:37-38 | `uploads/<uuid><ext>` has suffix `ext` |
| FileHandler.Dispatch | backend/utils/file_handler.py:50-59 | `.pdf` goes to the PDF reader, `.doc`/`.docx` to the DOCX reader and `.txt` to the text reader; anything else has no reader |
| FileHandler.ValidHasReader | backend/utils/file_handler.py:22-59 | every valid name has a reader |
| FileHandler.LinesJoin | backend/utils/file_handler.py:74-89 | the accumulated text is the parts joined by newlines plus a final newline |
| FileHandler.AccumulatedText | backend/utils/file_handler.py:72-91 | the stripped `text +=` accumulation equals the stripped newline join of the parts plus a final newline, for any number of parts |
| FileHandler.ReaderText | backend/utils/file_handler.py:65-104 | a missing file or a library failure yields ""; otherwise the PDF and DOCX readers give the stripped newline join of the pages or paragraphs plus a newline, and the text reader the stripped decoded text; never surrounding whitespace |
| FileHandler.ExtractedText | backend/utils/file_handler.py:47-63 | None iff there is no reader; otherwise that reader's text; it never raises |
| FileHandler.SavedValidExtracts | backend/utils/file_handler.py:22-59 | a saved upload with a valid name always extracts to some text |
| FileHandler.AccumulateLines | backend/utils/file_handler.py:72-77 | the `text +=` loop followed by `strip` |
| FileHandler.FileStore.ReadText | backend/utils/file_handler.py:65-104 | the three readers on the stored bytes compute exactly `ReaderText`, with its failure and success cases |
| FileHandler.FileStore.ExtractTextFromFile | backend/utils/file_handler.py:47-63 | equals `ExtractedText` of the current files |
| FileHandler.FileStore.SaveUploadedFile | backend/utils/file_handler.py:30-45 | writes the content under `uploads/<uuid><suffix>` and logs it; a missing name writes nothing |
| FileHandler.FileStore.CleanupFile | backend/utils/file_handler.py:106-113 | an existing path is removed and its removal logged; a missing path changes nothing and logs nothing |
| MainApi.UploadResult | backend/main.py:104-120 | the response carries exactly the analysis, matching, recommendations and résumé text; with text present they are the successful records and 1-5 recommendations |
| MainApi.UploadResume | backend/main.py:85-126 | an invalid type yields status 500 before anything is saved; otherwise the file is saved, extracted, analysed and removed exactly once, in that order |
| MainApi.SuggestionSourceFor | backend/main.py:132-165 | id "full-resume" uses the full résumé; any other id uses the section's own content |
| MainApi.RemoveMarkers | backend/main.py:204 | the three chained `replace` calls: never longer, no new characters, and unchanged when no marker occurs |
| MainApi.CleanLine | backend/main.py:204 | the stripped line with the markers removed: never longer than the stripped line, no new characters, and unchanged when it has no marker |
| MainApi.KeptLines | backend/main.py:202-204 | the non-blank lines in order: each line occurs as often as in the reply when it is non-blank and not at all otherwise; never more than the lines |
| MainApi.CleanSuggestions | backend/main.py:202-204 | one cleaned line per kept line, in order; the count is at most the line count |
| MainApi.BulletRemoved | backend/main.py:204 | a line of `-`, `•` or `*`, a space and a stripped unmarked text cleans to exactly that text |
| MainApi.DashRemoved | backend/main.py:204 | `- ` before an unmarked text is removed and nothing else is |
| MainApi.DotRemoved | backend/main.py:204 | `• ` before an unmarked text survives the first replace and is removed by the second |
| MainApi.StarRemoved | backend/main.py:204 | `* ` before an unmarked text survives the first two replaces and is removed by the third |
| MainApi.BlankReplyNoSuggestions | backend/main.py:202-204 | a blank reply gives no suggestions |
| MainApi.GetResumeSuggestions | backend/main.py:128-213 | a failed call yields 500; otherwise the cleaned suggestions with the section id echoed back |
| MainApi.TemplateFor | backend/main.py:417-521 | each of the four section types selects its template, and any other value selects the education template |
| MainApi.PromptFor | backend/main.py:417-545 | every template uses the résumé, the title and the matching skills; only the full, summary and experience templates use the job description; only the full and skills templates use the missing skills |
| MainApi.GenerateOptimizedResume | backend/main.py:413-574 | a failed call yields 500; otherwise the stripped reply with the section type and job title echoed |
| UploadPage.AllowListMatchesBackend | src/pages/Upload.tsx:52-57 | the four MIME types are exactly the values of the backend's extension table, without repeats |
| UploadPage.CheckFile | src/pages/Upload.tsx:52-76 | wrong type iff the MIME type is not listed; too large iff listed and over 5 MiB; accepted otherwise (type checked before size) |
| UploadPage.SizeLimitBoundary | src/pages/Upload.tsx:69-76 | exactly 5 MiB is accepted, one byte more is refused, and an unlisted type is refused at any size |
| UploadPage.SchemaIssues | src/pages/Upload.tsx:15-20 | the description must be at least 50 UTF-16 units long, and the title and company at least 2 each; each failed bound gives its own issue |
| UploadPage.SchemaAcceptsIff | src/pages/Upload.tsx:15-20 | accepted iff all three bounds hold in UTF-16 units, which implies the three fields are filled |
| UploadPage.SubmitOutcome | src/pages/Upload.tsx:155-178 | a failed request shows the failure toast; otherwise the session write comes first, then either the success toast and the navigation or the failure toast |
| UploadPage.NavigationAfterStore | src/pages/Upload.tsx:162-170 | a navigation is always preceded by the session write of the same result |
| UploadPage.UploadPage.HandleFileUpload | src/pages/Upload.tsx:48-86 | a refused file leaves the held file and the form value alone and toasts why; an accepted one sets both |
| UploadPage.UploadPage.AnalyzeJobDescription | src/pages/Upload.tsx:88-133 | no request unless title, company and description are all filled; otherwise flag up, request, toast, flag down |
| UploadPage.UploadPage.PressAnalyze | src/pages/Upload.tsx:285-290 | a press of the disabled button changes nothing; an enabled press always makes the request, with the handler's whole request sequence |
| UploadPage.UploadPage.Submit | src/pages/Upload.tsx:135-316 | nothing while disabled or refused by the schema; otherwise flag up, request, the outcome above, and `isUploading` false afterwards |
| UploadPage.AnalyzeGuardMatches | src/pages/Upload.tsx:289 | outside an analysis the analyse button is disabled exactly on the fields the handler refuses; during one it is always disabled |
| UploadPage.SubmitGuard | src/pages/Upload.tsx:316 | the submit button is enabled exactly when no upload runs and a résumé is held |
| SignUp.HandleInputChange | src/pages/SignUp.tsx:22-24 | the named field takes the value and every other field keeps its own |
| SignUp.ChangesCommute | src/pages/SignUp.tsx:22-24 | changes to two different fields commute |
| SignUp.PasswordRequirements | src/pages/SignUp.tsx:26-31 | exactly four requirements, in order: `length` ≥ 8 in UTF-16 units, an upper-case letter, a lower-case letter and a digit |
| SignUp.FormValidIff | src/pages/SignUp.tsx:33-40 | valid iff the names and email are filled, the passwords agree, the password has 8 UTF-16 units, an upper-case and a lower-case letter and a digit, and the terms are agreed |
| SignUp.AstralPasswordLongEnough | src/pages/SignUp.tsx:27 | three ASCII characters and three emoji meet the length rule: `length` counts each emoji twice |
| SignUp.InitialFormInvalid | src/pages/SignUp.tsx:13-200 | the first rendering cannot be submitted |
| SignUp.ValidFormShowsNoWarning | src/pages/SignUp.tsx:135-170 | a valid form shows the checklist, no mismatch message and no unmet requirement |
| GetStarted.WithField | src/pages/GetStarted.tsx:20-22 | the named field takes the value, the others keep theirs |
| GetStarted.NextStep | src/pages/GetStarted.tsx:96-258 | steps stay in 1..3; 1→2 iff continue is pressed with names and email filled; from 2, back goes to 1 and continue to 3; step 3 stays |
| GetStarted.NoSkippedStep | src/pages/GetStarted.tsx:161-258 | no press goes from step 1 to step 3, and step 3 has no way out |
| GetStarted.HighlightedCount | src/pages/GetStarted.tsx:57-85 | the indicator colours at most three circles |
| GetStarted.ProgressMatchesStep | src/pages/GetStarted.tsx:57-85 | exactly `step` circles are highlighted; circle n is checked iff n < step; a connector is filled iff its circle is checked |
| GetStarted.Wizard.HandleInputChange | src/pages/GetStarted.tsx:20-22 | one field changes and the step does not |
| GetStarted.Wizard.Press | src/pages/GetStarted.tsx:11-218 | the step becomes `NextStep` and stays in range; the profile is unchanged |
| ResumeEditor.MissingSkillChange | src/pages/ResumeEditor.tsx:160-165 | an addition with an empty original naming the skill |
| ResumeEditor.KeywordChange | src/pages/ResumeEditor.tsx:173-178 | an addition with an empty original |
| ResumeEditor.ResumeOrPlaceholder | src/pages/ResumeEditor.tsx:57-150 | never empty; a non-empty résumé is kept as it is |
| ResumeEditor.OrDefault | src/pages/ResumeEditor.tsx:197-207 | a present non-empty value is kept; a missing or empty one becomes the default |
| ResumeEditor.UnmentionedSkills | src/pages/ResumeEditor.tsx:158-172 | of the first n skills, exactly those the lower-cased résumé does not contain, in order and as often as they occur |
| ResumeEditor.FullResumeChangesAreAdditions | src/pages/ResumeEditor.tsx:153-183 | at most five changes, all additions with an empty original |
| ResumeEditor.MissingSkillChangesFirst | src/pages/ResumeEditor.tsx:155-167 | up to two missing-skill changes come first, each a missing skill the résumé does not mention |
| ResumeEditor.MentionedSkillsSkipped | src/pages/ResumeEditor.tsx:159-172 | when the résumé mentions every skill, there are no changes |
| ResumeEditor.PushChanges | src/pages/ResumeEditor.tsx:158-179 | one `forEach` appends exactly one change for each skill the résumé does not mention, in order |
| ResumeEditor.GenerateFullResumeChanges | src/pages/ResumeEditor.tsx:153-183 | the two `forEach` loops build exactly that list |
| ResumeEditor.InitialSections | src/pages/ResumeEditor.tsx:84-100 | one "full-resume" section whose keywords are the matching skills, with no suggestions |
| ResumeEditor.CompleteOptimizedResume | src/pages/ResumeEditor.tsx:124-151 | the reply, or on any failure the original résumé or the placeholder |
| ResumeEditor.WithOptimized | src/pages/ResumeEditor.tsx:109-116 | every section gets the same optimised text and nothing else changes |
| ResumeEditor.FindSection | src/pages/ResumeEditor.tsx:193 | the first section with the id, or none |
| ResumeEditor.MergeSuggestions | src/pages/ResumeEditor.tsx:225-231 | sections with the id get the new suggestions appended; the others are unchanged |
| ResumeEditor.MergeExtends | src/pages/ResumeEditor.tsx:225-231 | the old suggestions stay a prefix and the new ones follow |
| ResumeEditor.SuggestionRequestFor | src/pages/ResumeEditor.tsx:197-207 | the request body: the full résumé for the "full-resume" section, otherwise the section's content |
| ResumeEditor.OptimizeRequestFor | src/pages/ResumeEditor.tsx:124-139 | the optimisation body: the résumé, the title and description or "" when missing, both skill lists, and section type `full_resume` |
| ResumeEditor.EditorRequestUsesFullTemplate | src/pages/ResumeEditor.tsx:137 | the backend answers that body with its full-resume template, using the description and both skill lists |
| ResumeEditor.AfterOptimization | src/pages/ResumeEditor.tsx:475 | min(95, p + 25): never above 95 |
| ResumeEditor.AfterOptimizationNotWorse | src/pages/ResumeEditor.tsx:475 | the figure never drops below a score of at most 95 |
| ResumeEditor.Editor.GenerateAIContent | src/pages/ResumeEditor.tsx:102-151 | one optimisation request is logged, every section gets the one optimised text, and the generating flag is lowered |
| ResumeEditor.Editor.InitializeData | src/pages/ResumeEditor.tsx:55-82 | navigation data wins and is persisted; otherwise parsed session data is used; otherwise a redirect; loaded data leaves the redirect flag alone |
| ResumeEditor.Editor.GetAISuggestions | src/pages/ResumeEditor.tsx:190-238 | no request without the section or the data; on success only the matching section gains the suggestions |
| ClientData.LoadSource | src/pages/AnalysisResults.tsx:103-123 | navigation state, then a parsable session entry, then no data, each exactly when the earlier sources fail |
| ClientData.Color | src/components/AnalysisSummary.tsx:33-43 | green iff ≥ 80, yellow iff in [60, 80), red iff < 60 |
| ClientData.EmptyObjectTruthiness | src/pages/AnalysisResults.tsx:459 | JavaScript's truthiness differs from Python's: an empty object is truthy in one and falsy in the other |
| AnalysisSummary.ScoreLabel | src/components/AnalysisSummary.tsx:60 | "Excellent", "Good" and "Needs Work" on the colour bands |
| AnalysisSummary.MatchLabel | src/components/AnalysisSummary.tsx:77 | "Perfect Match", "Good Match" and "Poor Match" on the same bands |
| AnalysisSummary.Numbered | src/components/AnalysisSummary.tsx:154 | items numbered 1, 2, 3… in order |
| AnalysisSummary.Render | src/components/AnalysisSummary.tsx:33-160 | the tones and labels; covered ≤ covered-of; exactly min(3, n) strengths, improvements and actions, each the start of its list, with the actions numbered from 1 |
| AnalysisResults.LeadSkill | src/pages/AnalysisResults.tsx:411 | the first matching skill, or "professional" |
| AnalysisResults.EmptyTemplate | src/pages/AnalysisResults.tsx:411-412 | `SummaryTemplate` of no skills reads "professional" and leaves both lists empty |
| AnalysisResults.TemplateNamesLeadingSkills | src/pages/AnalysisResults.tsx:411-412 | with three or more skills `SummaryTemplate` leads with the first, joins the first two with "and" and lists the first three with commas; later skills are absent |
| AnalysisResults.TemplateSingleSkill | src/pages/AnalysisResults.tsx:411-412 | with one skill it is the lead and the whole of both lists |
| AnalysisResults.DisplayedLists | src/pages/AnalysisResults.tsx:372-679 | exactly min(n, len) items, each the start of its list: 6 keywords, 8 matching and 8 missing badges, 3 recommendations; the keywords start the badges |
| AnalysisResults.AreaList | src/pages/AnalysisResults.tsx:651-660 | the read succeeds iff `ai_analysis` is an object holding a list under the key, and yields that list |
| AnalysisResults.KeyInsights | src/pages/AnalysisResults.tsx:651-660 | the insights render iff both areas are lists, showing exactly the first min(3, n) strengths and min(2, n) concerns |
| AnalysisResults.FallbackMatchBreaksInsights | src/pages/AnalysisResults.tsx:651-660 | with the regex fallback's `ai_analysis: {}` the summary tab's reads throw, whatever the skills |
| AnalysisResults.RequestFor | src/pages/AnalysisResults.tsx:137-227 | each handler sends its own request kind, carrying the data or the résumé text |
| AnalysisResults.ResultsPage.Load | src/pages/AnalysisResults.tsx:103-123 | the data-source order; `loading` is false afterwards in every case |
| AnalysisResults.ResultsPage.RequestAdvice | src/pages/AnalysisResults.tsx:137-550 | nothing without data; otherwise the flag goes true then false, one request is sent, and only the handler's own slot is set |
| AnalysisResults.ResultsPage.Press | src/pages/AnalysisResults.tsx:459-550 | a button that is not rendered (its slot holds a truthy reply) or is disabled does nothing; otherwise its handler's whole effect, and a truthy reply removes the button |
| AnalysisResults.ResultsPage.PressTwice | src/pages/AnalysisResults.tsx:459-467 | once a press stores a truthy reply, a second press sends nothing: at most one request, and the reply stays |
| AnalysisResults.OneFlagForAll | src/pages/AnalysisResults.tsx:468-550 | each of the three AI buttons is disabled exactly while `isLoadingAI` holds, so they are disabled together |

## Left out

- OpenAI calls and the prompt text: replies are parameters, and the prompt is modelled only as the fields it uses (`MainApi.PromptFor`).
- The regular expressions (`_extract_skills`, `_extract_skills_from_job_description` and its requirement patterns, `_extract_experience`, `_extract_education`, `_extract_contact_info`, `_identify_key_requirements`, the year and whole-word tests): they are oracles in `Foreign.Oracles`. The model verifies the set algebra and the list logic around them, not regex semantics.
- PyPDF2, python-docx and the UTF-8 decoder are oracles over the file's bytes. The decoder oracle also stands for the text-mode newline translation of `open(…, 'r')` (backend/utils/file_handler.py:99). A PyPDF2 page whose `extract_text()` returns None is not modelled.
- `uuid.uuid4()` is randomness, so the id is a parameter (any canonical uuid string).
- Failures of the file system itself (a failed write or unlink) are not modelled; reader failures are, as "".
- JobMatcher.Rounded: `round(match_percentage, 2)` is not applied; the model keeps exact reals, so a percentage within 0.005 below 30, 60 or 80 can fall in a different tier or colour band than the rounded figure the client receives. JSON number formatting is out of scope.
- Text.Lower: lower-casing covers ASCII letters only, for both Python's `str.lower` and JavaScript's `toLowerCase`.
- A null message content in an AI reply is not modelled; the call either raises or returns a string.
- Text.Dedup and Text.SetToList: Python's `set` iteration order is fixed as the order of first occurrence.
- The thin AI endpoints `/api/job-description-analysis`, `/api/resume-optimization-tips`, `/api/interview-preparation` and `/api/career-advice` (backend/main.py:215-411) only forward a reply. Their client callers are modelled, with the reply as a parameter.
- React rendering, `fetch`, `sessionStorage`, `navigate` and toasts are recorded as effects or state fields. Each handler runs to completion before the next, so interleavings of async handlers are not modelled.
- FileHandler.Suffix: `pathlib` corner cases such as dotfiles and a trailing dot follow the same last-dot rule, so `.pdf` alone has no suffix, as in `pathlib`. Other platform-specific separators are not modelled.
- The second `except` of `generate_recommendations` (backend/services/job_matcher.py:149-155) cannot be reached, so its messages are not output.
- JobMatcher.FallbackRecommendations: only inputs of the right types are modelled, so its own `except` branch (backend/services/job_matcher.py:419-425) is not reachable in the model.
- AnalysisResults.KeyInsights: the areas are kept as JSON values, so how React renders a non-string item of a list is not modelled; only whether the reads throw.
- ClientData.LoadSource: a stored `"null"` parses to null without throwing, and the model merges it into the unparsable case, which redirects to `/upload`. The source does not redirect: AnalysisResults sets `analysisData` to null and shows "No Analysis Data Found" (src/pages/AnalysisResults.tsx:112-113, 240-252), and ResumeEditor passes null to `initializeResumeSections`, which throws.
- ClientData.AnalysisData: the client pages are modelled only on well-typed data, where every list is a list of strings and every score a number, as the TypeScript interfaces declare. Only `ai_analysis` is kept as JSON. The backend can pass through a reply whose `matching_skills` is a string or holds non-strings; then `slice`, `forEach` or `toLowerCase` throw on the pages, and `.length` counts characters. Those throws and outputs are not modelled.
- ResumeEditor.Editor.GetAISuggestions: `getAISuggestions` has no call site in ResumeEditor.tsx; it is modelled as the handler it is, not as a control a user can reach.
- The client's `fetch` failures, non-OK statuses and non-JSON bodies all collapse into one failed outcome (`None`).
- MainApi.UploadResume: the response's status detail text is not modelled, only the status code.
- The marketing and placeholder pages, `start.py`, and the two test scripts are not part of this model.
