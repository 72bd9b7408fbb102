# aihr interview platform: a Dafny model of its decision logic

The aihr platform is a browser application for HR interviews. A recruiter sets up or schedules an interview
(live or virtual), sends the candidate a Gmail invitation with a meeting link, and then runs the interview on
a dashboard. During the interview the candidate's transcribed answers are scored continuously for job fit
and culture fit. At the end the recruiter records a hire / reject / pending decision, which is kept with the
transcript and analysis in the browser's local storage.

This project models the pure decision logic under the React shell, as immutable datatypes and total
functions over `seq`. It covers:

- the live scoring step `analyzeLiveResponse` (modules `LiveRules`, `LiveEngine`);
- the incremental pipeline of the `useLiveAnalysis` hook (`LivePipeline`);
- the one-shot analyser `analyzeResponse` (`AnalysisRules`, `AnalysisEngine`);
- the two local-storage record lists and their queries (`Records`, `CandidateStorage`, `InterviewStorage`,
  `Sorting`);
- the invitation text and meeting links (`EmailService`);
- the small pure rules inside the pages: the setup-form guards (`InterviewSetup`), the dashboard's timer,
  duration format and save (`LiveDashboard`), the decision modal (`PostInterviewDecision`), the candidate
  list (`CandidateManagement`), the schedule list (`ScheduledInterviews`), the insights panel
  (`InsightsPanel`), and the view and session state machine of `App`.

JavaScript semantics are written out where they matter:

- `split` on a regular expression keeps empty pieces;
- `trim` uses the ECMAScript white-space and line-terminator set;
- `.length` counts UTF-16 code units;
- `Math.round(x)` is `Floor(x + 0.5)`;
- `%` takes the sign of the dividend;
- a lookup in an object literal also finds the names inherited from `Object.prototype`.

Some inputs become explicit parameters:

- `Math.random()` draws become jitter values or base-36 digit strings;
- `Date.now()` and `new Date()` become integer milliseconds;
- locale-formatted dates are given as strings;
- the answers of `confirm()` are booleans;
- local storage is a `Stored<T>` value: absent, unreadable, or a parsed list.

`Types` holds the records of `src/types/interview.ts`. `Wrappers`, `Seqs` and `Text` are general helpers.

## Model

| member | source | states |
|---|---|---|
| Seqs.SelectsIsFilter | src/utils/candidateStorage.ts:61 | a list is the `filter` of another by a test exactly when it is a subsequence of it, every element passes the test, and it is as long as the number of passing elements |
| Text.JsLength | src/utils/liveAnalysisEngine.ts:10 | `.length` counts UTF-16 code units: at least the number of characters and at most twice it |
| Text.SplitRuns | src/utils/analysisEngine.ts:14 | `split(/\s+/)` yields at least one piece and no piece contains a separator |
| Text.SplitRunsPieces | src/utils/analysisEngine.ts:14 | every result of `split(/\s+/)` is a piece list: no separator inside a piece, and only the first and the last piece can be empty |
| Text.SplitRunsKeepsContent | src/utils/analysisEngine.ts:14 | the pieces written one after another are the text with its whitespace removed, so splitting loses nothing else |
| Text.SplitRunsJoin | src/utils/analysisEngine.ts:14 | splitting undoes joining with one whitespace character: every piece list joined that way splits back into itself |
| Text.SplitRunsPrefix | src/utils/analysisEngine.ts:14 | text without whitespace in front of anything is glued to the first piece of the rest |
| Text.SplitRunsAfterSeparator | src/utils/analysisEngine.ts:14 | one whitespace character in front of text that does not start with whitespace opens a new, empty-first piece |
| Text.SplitEach | src/utils/analysisEngine.ts:16 | `split(/[.!?]/)` yields exactly one more piece than there are separator characters |
| Text.TrimProperties | src/hooks/useLiveAnalysis.ts:34 | `trim()` is empty exactly when the text is all whitespace; otherwise it neither starts nor ends with whitespace |
| Records.Load | src/utils/candidateStorage.ts:17-39 | missing or unparsable storage reads as the empty list, parsed storage as its records |
| Records.Upsert | src/utils/candidateStorage.ts:8-9 | after filter-then-push the saved record is last and no earlier record shares its id |
| Records.UpsertKeepsUnique | src/utils/interviewStorage.ts:10-11 | filter-then-push never creates a duplicate id |
| Records.FirstIndex | src/utils/candidateStorage.ts:48 | `findIndex` is absent exactly when no record has the id, and otherwise points at a record with the id |
| Records.FirstIndexUnique | src/utils/candidateStorage.ts:48 | `findIndex` points at the earliest record with the id |
| Records.FindFirst | src/utils/candidateStorage.ts:43 | `find` is absent exactly when no record matches, and is otherwise the first matching record |
| Records.UpdateFirst | src/utils/interviewStorage.ts:39-43 | updating the record at `findIndex` keeps the length, changes only that record, and changes nothing when the id is absent |
| Sorting.SortBy | src/utils/interviewStorage.ts:73 | the sort returns a permutation of its input |
| Sorting.SortBySorted | src/utils/interviewStorage.ts:73 | the comparator `a - b` on dates sorts into ascending date order |
| Sorting.SortByStable | src/utils/interviewStorage.ts:73 | the sort is stable: records with the same date keep their relative order |
| Roles.RoleNamedInvertsRoleName | src/utils/liveAnalysisEngine.ts:14-43 | every role of the keyword tables is found under its own key |
| Roles.RoleNamedOnlyByKey | src/utils/liveAnalysisEngine.ts:45 | a name finds a role only when it is exactly that role's key |
| Roles.RoleKeyNotInherited | src/utils/analysisEngine.ts:19-56 | no role key is a property name inherited from `Object.prototype` |
| Roles.PrototypeKeysAreNotRoles | src/utils/analysisEngine.ts:64 | an inherited property name is never an own entry of a keyword table |
| LiveRules.Words | src/utils/liveAnalysisEngine.ts:10 | the words are exactly the pieces of the whitespace split of the lower-cased text that are longer than two UTF-16 units, in order and with every occurrence; none contains whitespace |
| LiveRules.CountMatches | src/utils/liveAnalysisEngine.ts:47-53 | the keyword match count never exceeds the number of keywords |
| LiveRules.AvgComparisons | src/utils/liveAnalysisEngine.ts:57 | the division-free comparisons give the same answers as comparing `avgWordsPerSentence` with a bound, including when there are no sentences |
| LiveRules.FeaturesWith | src/utils/liveAnalysisEngine.ts:47-53 | technical and soft match counts are bounded by the sizes of the role's two lists |
| LiveRules.SpacedKeywordNeverMatches | src/utils/liveAnalysisEngine.ts:47-53 | a keyword containing whitespace, such as 'machine learning', never matches any word, because words come from splitting on whitespace |
| LiveRules.ClampRound | src/utils/liveAnalysisEngine.ts:63-90 | `Math.round(Math.min(hi, Math.max(lo, x)))` lies in [lo, hi] for every x |
| LiveRules.Score | src/utils/liveAnalysisEngine.ts:61-151 | job and culture fit are integers in [0, 100]; overall is their rounded mean and lies between them; confidence is in [20, 100]; at most 4 insights, 3 red flags and 4 strengths; stamped with `now`. All this holds for every jitter value |
| LiveRules.RoundMean | src/utils/liveAnalysisEngine.ts:82 | `Math.round((a + b) / 2)` equals `(a + b + 1) div 2` |
| LiveRules.RoundBetween | src/utils/liveAnalysisEngine.ts:82 | the rounded mean of two integers lies between them |
| LiveRules.RoundMonotone | src/utils/liveAnalysisEngine.ts:63 | `Math.round` never decreases |
| LiveRules.ClampRoundMonotone | src/utils/liveAnalysisEngine.ts:63-80 | clamping and rounding never decrease |
| LiveRules.MomentumMonotone | src/utils/liveAnalysisEngine.ts:61-80 | with text and jitter fixed, a higher previous job-fit (culture-fit) score never gives a lower new one |
| LiveRules.JitterEffectBounded | src/utils/liveAnalysisEngine.ts:69 | a job-fit jitter in [0, 20) raises the job-fit score by between 0 and 20 points over no jitter |
| LiveRules.TrendInsightRecognised | src/utils/liveAnalysisEngine.ts:138 | both trend insights end in a closing parenthesis |
| LiveRules.SoftSkillsExclusive | src/utils/liveAnalysisEngine.ts:104-108 | the soft-skills strength is shown exactly when there are two or more soft matches, and the soft-skills red flag exactly when there are fewer |
| LiveRules.SentenceLengthOneOutcome | src/utils/liveAnalysisEngine.ts:110-116 | complexity flag iff more than 25 words per sentence, brevity flag iff fewer than 5, clarity strength iff between 5 and 25 |
| LiveRules.RedFlagsNeverTruncated | src/utils/liveAnalysisEngine.ts:92-147 | at most three red flags are ever raised, so `slice(0, 3)` drops none |
| LiveRules.TrendInsightOnlyOnBigChange | src/utils/liveAnalysisEngine.ts:136-139 | a trend insight appears only when the overall score moved by more than 5 points |
| LiveRules.TrendInsightOnBigChange | src/utils/liveAnalysisEngine.ts:136-146 | a move of more than 5 points shows the trend insight, unless the technical, examples and questions insights already fill the first slots |
| LiveEngine.AnalyzeLiveResponse | src/utils/liveAnalysisEngine.ts:3-151 | every call yields a well-formed analysis stamped with the current time |
| LiveEngine.MatchCountsBounded | src/utils/liveAnalysisEngine.ts:45-53 | match counts are bounded by the role's lists, and an unknown role is scored with the Software Engineer lists |
| LiveEngine.KnownRoles | src/utils/liveAnalysisEngine.ts:14-43 | the live table has an entry for every role except Finance Analyst and Customer Support |
| LiveEngine.UnknownRoleFallsBack | src/utils/liveAnalysisEngine.ts:45 | every name without an entry of its own gets the Software Engineer lists |
| AnalysisRules.CountIncluded | src/utils/analysisEngine.ts:66-72 | the number of keywords found never exceeds the number of keywords |
| AnalysisRules.FeaturesOf | src/utils/analysisEngine.ts:14-16 | word and sentence counts are at least 1, because split keeps empty pieces; match counts are bounded by the keyword lists |
| AnalysisRules.NoTermsNoMatches | src/utils/analysisEngine.ts:64-68 | with the empty fallback list there are no technical matches |
| AnalysisRules.VerdictFor | src/utils/analysisEngine.ts:80-83 | Hire iff mean at least 75, Consider iff mean in [55, 75), Pass otherwise |
| AnalysisRules.OrElse | src/utils/analysisEngine.ts:101-102 | the fallback makes the list non-empty |
| AnalysisRules.ScoreResponse | src/utils/analysisEngine.ts:75-111 | scores at most 100, and at least 0 for non-negative random draws; verdict banded on the mean; the verdict's summary; one to three strengths and concerns |
| AnalysisRules.SummaryDeterminesVerdict | src/utils/analysisEngine.ts:85-89 | the three summaries differ, so the summary determines the verdict |
| AnalysisRules.FallbackRules | src/utils/analysisEngine.ts:91-102 | the fallback strength (concern) appears exactly when no strength (concern) rule fired, and then alone |
| AnalysisRules.FeedbackConsistent | src/utils/analysisEngine.ts:91-99 | a strength and a concern about the same aspect never appear together |
| AnalysisRules.LengthRules | src/utils/analysisEngine.ts:94-99 | the brevity concern iff fewer than 40 words; the thoroughness strength iff more than 100 words |
| AnalysisRules.FewMatchesLackDepth | src/utils/analysisEngine.ts:97 | two or fewer technical matches always raise the technical-depth concern |
| AnalysisEngine.AnalyzeResponse | src/utils/analysisEngine.ts:11-112 | every result is coherent: scores at most 100, verdict from the mean, matching summary, non-empty feedback; with non-negative random draws neither score is negative |
| AnalysisEngine.UnknownRoleLacksDepth | src/utils/analysisEngine.ts:64 | a role without an entry always draws the 'Lack of technical depth' concern |
| AnalysisEngine.WordCountOfOneWord | src/utils/analysisEngine.ts:14-15 | an answer without whitespace, the empty one included, counts as one word |
| AsWritten.RoleKeywordsAsWritten | src/utils/liveAnalysisEngine.ts:45-49 | the lookup as written fails exactly for inherited property names, and otherwise equals the corrected lookup |
| AsWritten.ConstructorRoleBreaksLookup | src/utils/liveAnalysisEngine.ts:45 | for the job role "constructor" the lookup as written fails, while the fallback promises the Software Engineer lists |
| AsWritten.AnalyzeLiveResponseAsWritten | src/utils/liveAnalysisEngine.ts:45-53 | the scoring step as written throws exactly for inherited property names, and otherwise equals the corrected step |
| AsWritten.TechnicalTermsAsWritten | src/utils/analysisEngine.ts:64-68 | the lookup as written throws exactly for inherited property names, and otherwise equals the corrected lookup |
| AsWritten.AnalyzeResponseAsWritten | src/utils/analysisEngine.ts:64-68 | `analyzeResponse` as written rejects exactly for inherited property names, and otherwise equals the corrected analyser |
| AsWritten.ToStringRoleRejects | src/utils/analysisEngine.ts:64-68 | the job role "toString" makes `analyzeResponse` as written reject |
| LivePipeline.MarkAnalyzed | src/hooks/useLiveAnalysis.ts:40-45 | every segment is marked analysed and nothing else about it changes |
| LivePipeline.AnalyzeSegments | src/hooks/useLiveAnalysis.ts:20-52 | nothing changes without segments, a job role, unanalysed segments or non-blank candidate text, or when the scorer throws; otherwise the new analysis comes from the current one, is appended to the history as its one new entry, and every segment is marked; ids, texts and speakers never change |
| LivePipeline.Reset | src/hooks/useLiveAnalysis.ts:54-66 | a reset gives an empty history and the empty analysis, which satisfies the hook's invariant |
| LivePipeline.InitialStateValid | src/hooks/useLiveAnalysis.ts:6-18 | the initial state satisfies the invariant and equals the reset state |
| LivePipeline.AnalyzeSegmentsPreservesValid | src/hooks/useLiveAnalysis.ts:35-38 | with a scorer giving well-formed analyses, a pass keeps the analysis the last history entry and every entry well-formed |
| LivePipeline.LiveScorerWellFormed | src/hooks/useLiveAnalysis.ts:35 | the hook's scorer never throws and always gives a well-formed analysis |
| LivePipeline.LivePassPreservesValid | src/hooks/useLiveAnalysis.ts:20-52 | every pass of the real scorer keeps the invariant |
| LivePipeline.SecondPassChangesNothing | src/hooks/useLiveAnalysis.ts:26-45 | after a scoring pass, a second pass over the returned segments changes nothing |
| LivePipeline.NoneUnanalyzed | src/hooks/useLiveAnalysis.ts:26-27 | once every segment is analysed, none is selected |
| LivePipeline.ScoresIffCandidateSpoke | src/hooks/useLiveAnalysis.ts:29-34 | with unanalysed segments present, scoring happens exactly when some unanalysed candidate segment has non-blank text |
| LivePipeline.PendingTextsComeFromCandidates | src/hooks/useLiveAnalysis.ts:26-32 | only texts of unanalysed candidate segments reach the scorer |
| LivePipeline.InterviewerTextIgnored | src/hooks/useLiveAnalysis.ts:29-32 | transcripts differing only in interviewer text give the same analysis and history |
| LivePipeline.PrototypeRoleNeverScored | src/hooks/useLiveAnalysis.ts:25-51 | with an inherited property name as job role, the hook as written never changes anything, because the error is swallowed |
| LivePipeline.ConstructorRoleNeverScored | src/hooks/useLiveAnalysis.ts:25-51 | with the role "constructor", a candidate answer is left unscored as written but scored by the corrected lookup |
| CandidateStorage.SaveCandidateRecord | src/utils/candidateStorage.ts:5-15 | saving makes the candidate the one record with its id and the last one; all other records keep their order |
| CandidateStorage.SaveKeepsIdsUnique | src/utils/candidateStorage.ts:8-9 | saving keeps ids unique |
| CandidateStorage.GetCandidateById | src/utils/candidateStorage.ts:41-44 | the lookup is absent exactly when no record has the id, and otherwise is the first record with it |
| CandidateStorage.UpdateCandidateDecision | src/utils/candidateStorage.ts:46-57 | an absent id writes nothing; otherwise only the first match changes: its decision, and its notes only for a non-empty string |
| CandidateStorage.DeleteCandidateRecord | src/utils/candidateStorage.ts:59-63 | every record with another id remains, each occurrence once, in stored order, and no record with the id remains |
| CandidateStorage.DeleteAbsentIdKeepsRecords | src/utils/candidateStorage.ts:59-63 | deleting an absent id keeps every record |
| CandidateStorage.DeleteIdempotent | src/utils/candidateStorage.ts:59-63 | deleting twice is deleting once |
| CandidateStorage.SavedRecordFound | src/utils/candidateStorage.ts:5-44 | a saved record is found again by its id |
| CandidateStorage.DeletedRecordNotFound | src/utils/candidateStorage.ts:41-63 | after a delete the id is not found |
| CandidateStorage.UpdatedDecisionFound | src/utils/candidateStorage.ts:41-57 | the next lookup sees a decision update |
| InterviewStorage.SaveScheduledInterview | src/utils/interviewStorage.ts:7-17 | saving makes the interview the one record with its id and the last one; all others keep their order |
| InterviewStorage.SaveKeepsIdsUnique | src/utils/interviewStorage.ts:8-13 | saving keeps ids unique |
| InterviewStorage.UpdateInterviewStatus | src/utils/interviewStorage.ts:36-48 | only the status of the first match changes; an absent id writes nothing |
| InterviewStorage.DeleteScheduledInterview | src/utils/interviewStorage.ts:50-58 | every record with another id remains, each occurrence once, in stored order, and no record with the id remains |
| InterviewStorage.DeleteAbsentIdKeepsRecords | src/utils/interviewStorage.ts:50-58 | deleting an absent id keeps every record |
| InterviewStorage.DeleteIdempotent | src/utils/interviewStorage.ts:50-58 | deleting twice is deleting once |
| InterviewStorage.GetScheduledInterviewById | src/utils/interviewStorage.ts:61-64 | the lookup is absent exactly when no record has the id, and otherwise is the first record with it |
| InterviewStorage.UpdatedStatusFound | src/utils/interviewStorage.ts:36-64 | the next lookup sees a status update |
| InterviewStorage.UpcomingInterviews | src/utils/interviewStorage.ts:67-74 | exactly the 'scheduled' interviews dated strictly after now, in ascending date order, each as often as stored |
| InterviewStorage.UpcomingStable | src/utils/interviewStorage.ts:70-73 | upcoming interviews at the same time keep their stored order |
| InterviewStorage.TodaysInterviews | src/utils/interviewStorage.ts:77-89 | exactly the 'scheduled' interviews in [today 00:00, tomorrow 00:00), each occurrence once, in stored order |
| InterviewStorage.ClosedInterviewsNeverListed | src/utils/interviewStorage.ts:70-88 | completed and cancelled interviews appear in neither query |
| EmailService.GenerateMeetingLink | src/utils/emailService.ts:11-14 | the fixed prefix, then the first 13 fraction digits of the random number (all of them if fewer); the room id is base-36 |
| EmailService.TrimKeepsBody | src/utils/emailService.ts:27-53 | `trim()` removes exactly the leading newline and the trailing indentation of the template literal |
| EmailService.GenerateEmailTemplate | src/utils/emailService.ts:17-54 | the invitation text is the template body without the literal's padding |
| EmailService.BodyContents | src/utils/emailService.ts:27-53 | whatever the fixed wording, the text starts with the subject line, greets the candidate by name, names the interviewer, gives the link after 'Join Interview: ', and ends with 'HR Team' and no whitespace |
| EmailService.TemplateContents | src/utils/emailService.ts:17-54 | the generated invitation text has those contents |
| EmailService.CopyInvitationText | src/utils/emailService.ts:73-75 | the copied text has the invitation's contents |
| InterviewSetup.StartFromForm | src/components/InterviewSetup.tsx:23-28 | starts exactly when trimmed name, email and role are all non-empty; the interview gets the trimmed name, email and role, the form's type, and no scheduled id |
| InterviewSetup.StartDisabledIffRefused | src/components/InterviewSetup.tsx:392-399 | the start button is disabled exactly when starting would do nothing |
| InterviewSetup.ShortcutRoles | src/components/InterviewSetup.tsx:249 | the role buttons are the first five suggested roles |
| InterviewSetup.ScheduledRecord | src/components/InterviewSetup.tsx:40-51 | the saved record copies the form's name, email, role, interviewer and type and the chosen date, is 'scheduled', has an `interview-` id and the creation time, and has the meeting link exactly for a virtual interview |
| InterviewSetup.ScheduleInterview | src/components/InterviewSetup.tsx:30-76 | refuses with nothing saved unless all six fields are non-empty; otherwise the record built from the form is stored last and found again by id, every other stored interview is kept in order, and an invitation for the form with the same link goes out exactly for a virtual interview |
| InterviewSetup.SendInvitation | src/components/InterviewSetup.tsx:78-101 | sends exactly when all six fields are filled; the invitation carries the form's name, email, role and interviewer, the chosen date and a freshly generated meeting link |
| InterviewSetup.CopyInvitation | src/components/InterviewSetup.tsx:103-125 | copies exactly when all six fields are filled, and the text has the invitation's contents |
| InterviewSetup.CopiedTextIsTemplate | src/components/InterviewSetup.tsx:109-121 | the copied text is the generated invitation text |
| InterviewSetup.ScheduleAndSendSameGuard | src/components/InterviewSetup.tsx:30-82 | scheduling and sending refuse on exactly the same forms |
| InterviewSetup.SendAndCopySameGuard | src/components/InterviewSetup.tsx:78-107 | sending and copying refuse on exactly the same forms |
| InterviewSetup.SpacesPassScheduleGuard | src/components/InterviewSetup.tsx:31-34 | the schedule guard does not trim: a form of single spaces is scheduled but cannot start an interview |
| Text.NatToString | src/components/LiveInterviewDashboard.tsx:86 | `toString()` of a natural is digits only, one digit exactly below 10, at most two exactly below 100, and never a leading zero for a positive number |
| Text.PadTwo | src/components/LiveInterviewDashboard.tsx:86 | `toString().padStart(2, '0')` of a natural is digits, exactly two of them below 100, and otherwise starts with a non-zero digit |
| LiveDashboard.JsRem | src/components/LiveInterviewDashboard.tsx:85 | JavaScript `%`: the remainder lies strictly between -d and d and takes the dividend's sign |
| LiveDashboard.FormatField | src/components/LiveInterviewDashboard.tsx:86 | `padStart(2, '0')` pads one-digit naturals; negatives begin with '-' |
| LiveDashboard.FormatDuration | src/components/LiveInterviewDashboard.tsx:83-87 | for a non-negative count: digits, a colon, then two digits that are at most 59; the minutes field has exactly two digits below 6000 seconds and no leading zero from then on |
| LiveDashboard.ReadFormattedDuration | src/components/LiveInterviewDashboard.tsx:83-87 | minutes times 60 plus seconds, read back from the text, gives the count; the seconds field is below 60 |
| LiveDashboard.Tick | src/components/LiveInterviewDashboard.tsx:47-55 | paused or completed, a tick changes nothing; otherwise the duration becomes the whole seconds since the start, and nothing else changes |
| LiveDashboard.FrozenTicks | src/components/LiveInterviewDashboard.tsx:49 | while paused or completed, no number of ticks changes the dashboard |
| LiveDashboard.TogglePause | src/components/LiveInterviewDashboard.tsx:191 | the pause button flips the pause flag and nothing else |
| LiveDashboard.CompleteInterview | src/components/LiveInterviewDashboard.tsx:89-102 | completes and opens the modal; only with a non-empty scheduled id is that interview marked 'completed', and the next lookup sees it |
| LiveDashboard.CompletedClockStops | src/components/LiveInterviewDashboard.tsx:48-51 | after completing, the duration never changes again |
| LiveDashboard.SaveCandidate | src/components/LiveInterviewDashboard.tsx:104-123 | closes the modal and changes no other dashboard field; every other stored candidate is kept, in order; the saved record is found by its new id, completed, with the chosen decision and notes, the current analysis, the full transcript, the session's candidate, role and interview type, and the start time |
| LiveDashboard.OnTranscriptChange | src/components/LiveInterviewDashboard.tsx:77-81 | an empty transcript changes nothing |
| LiveDashboard.TranscriptGuardRedundant | src/components/LiveInterviewDashboard.tsx:77-81 | the effect's guard is redundant: it gives the same result as calling `analyzeSegments` directly |
| PostInterviewDecision.ScoreColorOf | src/components/PostInterviewDecision.tsx:23-27 | green iff at least 80, yellow iff in [60, 80), red otherwise |
| PostInterviewDecision.ScoreColorMonotone | src/components/PostInterviewDecision.tsx:23-27 | a higher score is never shown in a worse colour |
| PostInterviewDecision.Recommendation | src/components/PostInterviewDecision.tsx:29-34 | hire iff mean at least 75, pending iff in [55, 75), reject otherwise |
| PostInterviewDecision.RecommendationMonotone | src/components/PostInterviewDecision.tsx:29-34 | raising either score never lowers the recommendation |
| PostInterviewDecision.RecommendationMatchesVerdict | src/components/PostInterviewDecision.tsx:31-33 | the recommendation bands are the Hire / Consider / Pass bands of `analyzeResponse` |
| PostInterviewDecision.ChooseDecision | src/components/PostInterviewDecision.tsx:167-195 | a decision button sets the decision and keeps the notes |
| PostInterviewDecision.EditNotes | src/components/PostInterviewDecision.tsx:21 | typing sets the notes and keeps the decision |
| PostInterviewDecision.SaveArguments | src/components/PostInterviewDecision.tsx:231 | save passes the form's decision and notes unchanged |
| PostInterviewDecision.SavePassesChoice | src/components/PostInterviewDecision.tsx:20-21 | an untouched form saves 'pending' with empty notes; otherwise the last choices are saved |
| PostInterviewDecision.ShownStrengths | src/components/PostInterviewDecision.tsx:134 | the first three strengths, or all of them if fewer |
| PostInterviewDecision.ShownRedFlags | src/components/PostInterviewDecision.tsx:151 | the first three red flags, or all of them if fewer |
| PostInterviewDecision.AllRedFlagsShown | src/components/PostInterviewDecision.tsx:151 | a scored analysis has at most three red flags, so all are shown |
| CandidateManagement.FilterCandidates | src/components/CandidateManagement.tsx:34-50 | every record that passes both filters is kept, each occurrence once, in stored order, and no other; a record passes iff it matches a non-empty search term (lower-cased name, email or role contains it) and, for a decision filter, has that decision |
| CandidateManagement.UnfilteredShowsAll | src/components/CandidateManagement.tsx:37-45 | an empty term and the 'all' filter show every record |
| CandidateManagement.UndecidedShownPendingButFilteredOut | src/components/CandidateManagement.tsx:289 | a record without a decision is displayed as pending, yet the 'pending' filter excludes it |
| CandidateManagement.StatsOf | src/components/CandidateManagement.tsx:96-101 | the total is the number of records; hired, rejected and pending are the numbers of records with that final decision; with the undecided ones they add up to the total |
| CandidateManagement.CountsPartition | src/components/CandidateManagement.tsx:96-101 | every record is undecided or has exactly one of the three decisions |
| CandidateManagement.NoneUndecided | src/components/CandidateManagement.tsx:96-101 | no undecided record is counted exactly when every record has a decision |
| CandidateManagement.StatsAddUp | src/components/CandidateManagement.tsx:96-101 | hired + rejected + pending is at most the total, with equality iff every record has a decision |
| CandidateManagement.HandleDelete | src/components/CandidateManagement.tsx:52-57 | unconfirmed, nothing is written; confirmed, the list shows every record with another id, each occurrence once, in stored order, and none with the id |
| CandidateManagement.HandleUpdateDecision | src/components/CandidateManagement.tsx:59-62 | the found record gets the decision and keeps its notes; the list keeps its length and every other position is unchanged, as the storage update promises; an absent id writes nothing |
| ScheduledInterviews.StatusText | src/components/ScheduledInterviews.tsx:84-94 | Overdue iff past, Starting Soon iff within the hour, Today iff within 24 hours, Scheduled after that; every time gets exactly one label |
| ScheduledInterviews.StatusColorOf | src/components/ScheduledInterviews.tsx:72-82 | red iff past, green iff 24 hours or more ahead |
| ScheduledInterviews.StatusColorMatchesLabel | src/components/ScheduledInterviews.tsx:72-94 | label and colour always agree |
| ScheduledInterviews.FilteredInterviews | src/components/ScheduledInterviews.tsx:33-42 | 'today' and 'upcoming' are the storage queries; 'all' keeps exactly the 'scheduled' interviews of the loaded list, each occurrence once, in order; every one shown is 'scheduled' |
| ScheduledInterviews.StartFromScheduled | src/components/ScheduledInterviews.tsx:51-59 | starting passes the interview's own id as scheduled id, with its name, email, role and type |
| ScheduledInterviews.HandleDeleteInterview | src/components/ScheduledInterviews.tsx:44-49 | unconfirmed, nothing is written; confirmed, every interview with another id is listed, each occurrence once, in order, and none with the id |
| InsightsPanel.ScoreTrend | src/components/InsightsPanel.tsx:11-23 | none before two history entries; otherwise the change against the next-to-last entry, up / down / stable by its sign, and its size |
| InsightsPanel.TrendComparesLastTwo | src/components/InsightsPanel.tsx:14-16 | in the hook's states the trend compares the last two history entries |
| InsightsPanel.HistoryView | src/components/InsightsPanel.tsx:111-118 | shown only with more than one entry: the last five (or all), newest first |
| InsightsPanel.InitialShowsEmptyState | src/components/InsightsPanel.tsx:135 | before scoring and after a reset the placeholder is shown |
| InsightsPanel.ScoredHidesEmptyState | src/components/InsightsPanel.tsx:135 | after any scoring pass the placeholder is gone |
| App.StartInterview | src/App.tsx:23-33 | the session carries the arguments and is active, and the view is 'interview' |
| App.EndInterview | src/App.tsx:35-38 | no session, home view |
| App.Navigate | src/App.tsx:40-50 | the list and home navigations change only the view |
| App.Rendered | src/App.tsx:52-73 | the dashboard iff the view is 'interview' and a session exists; the home page for 'home', and for 'interview' without a session |
| App.StepConsistent | src/App.tsx:23-50 | every handler keeps the state consistent: the interview view has a session, and every session is active |
| App.ReachableConsistent | src/App.tsx:20-73 | after any sequence of handler calls the state is consistent, so the interview view shows the dashboard |
| App.FromLaunch | src/App.tsx:20-21 | the app starts consistent |
| App.ScheduledInterviewCompletedEndToEnd | src/App.tsx:23-33 | starting a stored scheduled interview from its list and completing it marks exactly that interview 'completed' |
| App.ShortcutRolesHaveKeywords | src/components/InterviewSetup.tsx:127-138 | every role button names a role with its own entry in the live keyword table |

## Left out

- Rendering, styling and icons. Among these are the duplicate colour bands of `LiveScoreDisplay.tsx` and `ResultsDisplay.tsx`, `TranscriptPanel.tsx` (pure display), and `AnalysisForm.tsx`, which `App` never mounts.
- `getScoreColor` of `CandidateManagement.tsx` is the same function as the one in `PostInterviewDecision.tsx`. It is modelled once, as `PostInterviewDecision.ScoreColorOf`.
- WebRTC, the video room, the join page and routing (`useWebRTC.ts`, `pages/`, `main.tsx`): browser and third-party I/O.
- Speech recognition (`useSpeechRecognition.ts`): transcript segments are inputs.
- `localStorage`, `JSON.parse` and `JSON.stringify`, and the revival of dates are the identity on a `Stored<T>` value. A failing `setItem` (for example, quota exceeded) is not modelled.
- The two exports, `exportCandidateData` and the dashboard's `exportSession`: they only build a download.
- `sendEmailInvitation`: it builds a Gmail URL with `encodeURIComponent` and calls `window.open`. Sending is modelled as the invitation it would send; the `false` result of a failed `window.open` is not modelled.
- The clipboard, `alert`, `confirm` and the `setTimeout` banners and delays are left out. A confirmation answer is a boolean parameter.
- Clocks, random numbers and locale formatting are parameters:
  - `Date.now()` and `new Date()` are integer milliseconds;
  - the local-midnight computation of `getTodaysInterviews` is the two bounds `dayStart` and `nextDayStart`;
  - `toLocaleDateString` output is a string;
  - `Math.random()` becomes jitter reals or a base-36 digit string.
- Floating point: scores use Dafny reals, not IEEE doubles. Dates are integers, so an invalid date (`NaN`) is not modelled.
- React scheduling, including the `isAnalyzing` flag, batching of state updates and the stale closure over `analysis`. One `analyzeSegments` pass is a pure function; the in-place marking of segments becomes a returned list.
- Text.Lower: `toLowerCase` lowers ASCII letters only; other Unicode case mappings are not modelled.
- LiveRules.Score: the jitter values are any reals. The bounds hold for every jitter because the step clamps, so `Jitter.Valid` is needed only by `JitterEffectBounded`.
- AnalysisRules.ScoreResponse: the lower bound 0 on the scores is stated only for non-negative random draws, which `Math.random()` always gives. The source has no `Math.max(0, …)` here.
- AnalysisEngine.AnalyzeResponse: the same lower bound, stated for non-negative random draws only.
- LiveDashboard.FormatDuration: for a negative count only the leading minus sign is stated. The clock never runs backwards, so the dashboard never shows one.
- LiveDashboard.SaveCandidate: does not state the fixed interviewer name or the absent meeting link and scheduled date of the saved record.
- ScheduledInterviews.StatusColorOf: states the red and green bands directly. The orange and blue bands follow from `StatusColorMatchesLabel`.
- EmailService.GenerateMeetingLink: the base-36 text of the random number is modelled as "0." followed by its fraction digits. Exponent forms of `toString(36)` for tiny numbers are not modelled.
- The suggestions DevOps Engineer, Business Analyst and Customer Success Manager are never shown as buttons. Typing one falls back to the Software Engineer lists (`LiveEngine.UnknownRoleFallsBack`); no lemma names them individually.

## Findings

| source | as written | input that shows it | evidently intended | confidence | as-written member | corrected member |
|---|---|---|---|---|---|---|
| src/utils/liveAnalysisEngine.ts:45 | `roleKeywords[jobRole] \|\| roleKeywords['Software Engineer']` also finds names inherited from `Object.prototype`. The lookup is truthy, `.technical` is `undefined`, and `.filter` throws. The hook swallows the error, so the interview is never scored | job role "constructor" with any candidate answer | every role without an entry of its own is scored with the Software Engineer lists | not executed; high, by the language semantics | LivePipeline.ConstructorRoleNeverScored | LiveEngine.UnknownRoleFallsBack |
| src/utils/analysisEngine.ts:64 | `technicalKeywords[jobRole] \|\| []` returns the inherited function for such names, and `.filter` on it throws, so `analyzeResponse` rejects | job role "toString" | a role without an entry gets no technical keywords and the 'Lack of technical depth' concern | not executed; high, by the language semantics | AsWritten.ToStringRoleRejects | AnalysisEngine.UnknownRoleLacksDepth |
