# Adaptive interview core, modelled in Dafny

This project models the decision logic of an AI mock-interview platform. A
candidate uploads a resume and a job description and starts an interview
session. The server then asks up to twelve questions, one at a time. Each
answer is scored by a language model against a rubric. The next difficulty
and the next question category are chosen adaptively. The interview ends
early when the scores collapse or 45 minutes pass. At the end a report is
written: category averages, the overall score, the trend, a recommendation
with a confidence, and strengths and weaknesses. Around that core sit:

- the skill comparison on the job-description preview;
- the bearer-token middleware;
- the socket registry of the real-time server;
- the browser-side store;
- four POST route handlers, which validate the request before calling the services.

Modules, following the program's files:

| module | file | models |
|---|---|---|
| `Basics`, `Text`, `InterviewTypes` | `basics.dfy`, `text.dfy`, `interview_types.dfy` | option/result values, `Math.round`, means, JavaScript `trim`/`split`/`toLowerCase`/`includes`, the enumerations and weight tables |
| `LlmScoring` | `llm_scoring.dfy` | time limit, time efficiency, time penalty, rubric weighting, parse fallback, generated-question shape |
| `InterviewEngine` | `interview_engine.dfy` | difficulty state machine, category allocator, termination checks, question bounds, live metrics, trend, recommendation, strengths and weaknesses, score helpers |
| `InterviewService` | `interview_service.dfy` | the session lifecycle as a class `Service` over an in-memory store of sessions, questions, answers and reports |
| `JdPreview` | `jd_preview.dfy` | matched skills, skill gap, match percentage |
| `AuthMiddleware` | `auth_middleware.dfy` | bearer header parsing, `requireAuth`, the session-token type check |
| `InterviewWs` | `interview_ws.dfy` | the class `SessionRegistry` over the `activeSessions` / `socketToSession` maps |
| `ClientStore` | `client_store.dfy` | the class `InterviewStore`: initial state, setters, `addAnswer`, `reset`, `partialize` |
| `JsonRequest` | `json_request.dfy` | JSON values, JavaScript truthiness, destructuring, responses |
| `SubmitAnswerRoute`, `UploadJdRoute`, `UploadResumeRoute`, `StartRoute` | the four `*_route.dfy` files | ordered validation and outcome mapping of each POST handler |

Conventions:

- Scores and weights are `real`, so 0.35 or 0.20 are exact. Clock readings are integer milliseconds. Times taken are `real` seconds.
- Anything the core cannot compute itself is an input:
  - the language model's reply (`EvaluatorReply`, or an optional completion text);
  - the JWT verifier (a function from token text to optional claims);
  - the clock reading (`nowMs`);
  - the services a route calls (functions returning a `Result`);
  - the parsed request body (`Result<JsValue>`, with `Err` when `request.json()` throws).
- The database is the map `Service.sessions` from session id to a session row. Each row holds its questions in order, each with an optional answer, and an optional report.
- `Service.questionOwner` records which session owns each question id.

## Model

| member | source | states |
|---|---|---|
| InterviewTypes.LevelToDifficulty | src/lib/services/interview-engine.service.ts:27 | the position in `['Easy','Medium','Hard']` is inverted exactly |
| InterviewTypes.WeightsSumToOne | src/lib/types/interview.ts:10-15 | the category weights 0.40/0.25/0.20/0.15 sum to 1 |
| InterviewTypes.CategoryKeyInjective | src/lib/services/interview-engine.service.ts:178-183 | distinct categories give distinct lower-cased breakdown keys |
| LlmScoring.GetTimeLimit | src/lib/services/llm.service.ts:565-572 | Easy 120 s, Medium 180 s, Hard 240 s (120 + 60 per level) |
| LlmScoring.TimeEfficiency | src/lib/services/llm.service.ts:535-545 | in [0,100]; 100 within the limit; past it, 100 minus the overtime as a percentage of the limit, floored at 0 |
| LlmScoring.TimeEfficiencyNonIncreasing | src/lib/services/llm.service.ts:535-545 | answering later never raises the efficiency score |
| LlmScoring.TimeEfficiencyExample | src/lib/services/llm.service.ts:535-545 | 140 s against 120 s scores 250/3 (83.33…); 90 s scores 100 |
| LlmScoring.TimePenalty | src/lib/services/llm.service.ts:550-560 | in [-20,0]; 0 within the limit; otherwise -5 per full 10 s over, at most four intervals |
| LlmScoring.TimePenaltyNonIncreasing | src/lib/services/llm.service.ts:550-560 | answering later never lessens the penalty |
| LlmScoring.TimePenaltyExample | src/lib/services/llm.service.ts:550-560 | 140/120 gives -10, 90/120 gives 0, 1000/120 gives -20 |
| LlmScoring.WeightedScore | src/lib/services/llm.service.ts:210-215 | with every part in [0,100] the weighted score is in [0,100]; the general bounds are in `WeightedScoreIsAverage` |
| LlmScoring.WeightedScoreIsAverage | src/lib/services/llm.service.ts:210-215 | the 0.30/0.20/0.25/0.15/0.10 weighting lies between the bounds of its parts and keeps a common value |
| LlmScoring.EvaluateAnswer | src/lib/services/llm.service.ts:184-230 | errors exactly when the evaluator call fails ('Failed to evaluate answer'); otherwise the score is clamp(weighted + penalty, 0, 100), so it is in [0,100] and at most clamp(weighted); the efficiency and penalty are the locally computed ones; the rubric is the parsed one, or the 50/50/50/50 default when unparseable |
| LlmScoring.Score | src/lib/services/llm.service.ts:201-230 | the scoring of one rubric: weighting, local efficiency and penalty, clamp; its results are stated by the contract of `EvaluateAnswer`, which returns it for every parsed or unparseable reply |
| LlmScoring.UnparseableOnTimeScores55 | src/lib/services/llm.service.ts:184-221 | an unparseable reply to an on-time answer scores exactly 55 |
| LlmScoring.GenerateQuestion | src/lib/services/llm.service.ts:92-110 | succeeds exactly when the completion is present and not blank; the text is trimmed and non-empty; the category and difficulty are the requested ones and the time limit is `getTimeLimit` of the difficulty; otherwise 'Failed to generate question' |
| InterviewEngine.NextDifficulty | src/lib/services/interview-engine.service.ts:22-56 | moves at most one level; drops iff score < 50 and not Easy; rises iff question ≥ 3, score ≥ 75 and not Hard; never rises before question 3; unchanged for scores in [50,75) |
| InterviewEngine.NextDifficultyExamples | src/lib/services/interview-engine.service.ts:22-56 | sample transitions, including no rise during the warm-up and the caps at Easy and Hard |
| InterviewEngine.DetermineQuestionCategory | src/lib/services/interview-engine.service.ts:62-93 | the first maximum of `questionNumber·weight − count` in declaration order: its deviation is at least every other, and strictly above every earlier category's |
| InterviewEngine.ChosenCategoryUnique | src/lib/services/interview-engine.service.ts:88-92 | at most one category meets the choice rule, so the stable sort's first element is determined |
| InterviewEngine.FirstQuestionIsTechnical | src/lib/services/interview-engine.service.ts:62-93 | with no history, question 1 is Technical and nothing else |
| InterviewEngine.CountsSum | src/lib/services/interview-engine.service.ts:69-73 | the four category counts add up to the history length |
| InterviewEngine.ChosenDeviationPositive | src/lib/services/interview-engine.service.ts:90-92 | with one history entry per earlier question, the chosen category's deviation is positive |
| InterviewEngine.CheckTermination | src/lib/services/interview-engine.service.ts:101-158 | one iff per reason, in priority order: explicit request; elapsed > 2700 s; four or more scores with mean < 35; the last three below 40. It terminates iff some reason holds, with a reason text iff it terminates |
| InterviewEngine.ElapsedSeconds | src/lib/services/interview-engine.service.ts:117 | the elapsed time in seconds is the millisecond difference over 1000, non-negative iff the clock has not gone back |
| InterviewEngine.TerminationExamples | src/lib/services/interview-engine.service.ts:128-154 | [20,25,30,15] is LowAverageScore, [60,30,35,38] is ConsecutiveLowScores, [60,30,35,40] does not terminate |
| InterviewEngine.GetQuestionBounds | src/lib/services/interview-engine.service.ts:339-344 | the bounds are 8 and 12 |
| InterviewEngine.ShouldContinueInterview | src/lib/services/interview-engine.service.ts:349-370 | always continue below 8; always stop from 12; in between, continue iff no termination condition holds without an explicit request |
| InterviewEngine.CalculatePerformanceMetrics | src/lib/services/interview-engine.service.ts:163-194 | counts the scores; the average is 0 for none, else the mean; the last min(3,n) scores in order; a lower-cased key exactly for each category with a score, mapped to its mean, and no other key |
| InterviewEngine.PerformanceTrendOf | src/lib/services/interview-engine.service.ts:199-202 | fewer than three scores are Stable |
| InterviewEngine.TrendByHalves | src/lib/services/interview-engine.service.ts:199-219 | the first half has floor(n/2) scores (an odd middle goes to the second half); for three or more scores, the definition read back: Improving iff the mean difference > 10, Declining iff < -10, Stable otherwise (including exactly ±10). The properties of the trend are in `TrendOfConstant` and `TrendShiftInvariant` |
| InterviewEngine.TrendOfConstant | src/lib/services/interview-engine.service.ts:199-219 | equal scores give Stable |
| InterviewEngine.TrendShiftInvariant | src/lib/services/interview-engine.service.ts:199-219 | shifting every score by the same amount leaves the trend unchanged |
| InterviewEngine.Band | src/lib/services/interview-engine.service.ts:239-249 | Ready iff ≥ 75; Needs Practice iff in [50,75); Not Ready iff < 50 |
| InterviewEngine.Confidence | src/lib/services/interview-engine.service.ts:229-269 | always in [40,95] |
| InterviewEngine.CalculateRecommendation | src/lib/services/interview-engine.service.ts:224-272 | the recommendation is the band of the overall score; the step-by-step confidence equals `Confidence` and lies in [40,85] |
| InterviewEngine.ConfidenceRange | src/lib/services/interview-engine.service.ts:229-269 | in [40,85] and below the band cap; equal to 75 ± 10 for the trend, −15 for a skill spread > 30, −10 for a skill mean > 15 from the overall score, with neither the caps nor the clamp ever binding |
| InterviewEngine.UniformSkillsConfidence | src/lib/services/interview-engine.service.ts:224-272 | skills all equal to the overall score, with a Stable trend, give exactly 75 |
| InterviewEngine.SortByScoreDescCorrect | src/lib/services/interview-engine.service.ts:282-284 | the descending sort is ordered, a permutation of its input, and stable: entries of equal score keep their input order |
| InterviewEngine.SortByScoreDesc | src/lib/services/interview-engine.service.ts:282-284 | the sort keeps the length; order, permutation and stability are stated by `SortByScoreDescCorrect` |
| InterviewEngine.InsertPermutes | src/lib/services/interview-engine.service.ts:282-284 | inserting adds exactly the new entry |
| InterviewEngine.InsertSorted | src/lib/services/interview-engine.service.ts:282-284 | inserting into an ordered list keeps it ordered |
| InterviewEngine.InsertStable | src/lib/services/interview-engine.service.ts:282-284 | inserting keeps the new entry ahead of equal scores and their order |
| InterviewEngine.WithScoreAppend | src/lib/services/interview-engine.service.ts:282-284 | selecting one score distributes over concatenation |
| Text.IncludesIffOccurs | src/components/interview/JDPreview.tsx:19-20 | the model of `String.prototype.includes` holds exactly when the needle occurs at some position of the haystack |
| InterviewEngine.FirstFeedbackMatch | src/lib/services/interview-engine.service.ts:294 | the first index whose skill equals the given one after lower-casing, or none when no item matches |
| InterviewEngine.WeaknessFor | src/lib/services/interview-engine.service.ts:293-300 | for the first item whose skill equals the given one ignoring case, its feedback when non-empty and otherwise 'Performance in <skill> needs improvement'; the generic text too when no item names the skill; always the fixed improvement text |
| InterviewEngine.StrengthsAndWeaknessesSpec | src/lib/services/interview-engine.service.ts:277-303 | min(3,n) strengths, best first, each scoring ≥ every skill left out; min(3,n) weaknesses, worst first, each scoring ≤ every skill left out, each built by `WeaknessFor` |
| InterviewEngine.CalculateStrengthsAndWeaknesses | src/lib/services/interview-engine.service.ts:277-303 | min(3,n) strengths and min(3,n) weaknesses; which skills, in which order, is stated by `StrengthsAndWeaknessesSpec` |
| InterviewEngine.ValidateAnswerTime | src/lib/services/interview-engine.service.ts:308-334 | always valid; the penalty is the time penalty; auto-submit iff the time is ≥ 1.5 × the limit |
| InterviewEngine.AutoSubmitCarriesFullPenalty | src/lib/services/interview-engine.service.ts:308-334 | for limits of at least 80 s, an auto-submitted answer carries the full −20 penalty |
| InterviewEngine.GetCategoryFromQuestion | src/lib/services/interview-engine.service.ts:375-377 | the question's category, or Technical when it has none |
| InterviewEngine.NormalizeScore | src/lib/services/interview-engine.service.ts:382-384 | the score clamped into [0,100]; scores in range are unchanged |
| InterviewEngine.NormalizeScoreIdempotent | src/lib/services/interview-engine.service.ts:382-384 | normalising twice is normalising once |
| InterviewEngine.RoundScoreNearest | src/lib/services/interview-engine.service.ts:389-391 | the result is a whole number of tenths, within half a tenth of the input |
| InterviewEngine.RoundScore | src/lib/services/interview-engine.service.ts:389-391 | `Math.round(score * 10) / 10`; nearness, idempotence and range are stated by `RoundScoreNearest`, `RoundScoreIdempotent` and `RoundScoreKeepsRange` |
| InterviewEngine.RoundScoreIdempotent | src/lib/services/interview-engine.service.ts:389-391 | rounding a rounded score changes nothing |
| InterviewEngine.RoundScoreKeepsRange | src/lib/services/interview-engine.service.ts:389-391 | a score in [0,100] stays in [0,100] |
| InterviewEngine.RoundScoreExamples | src/lib/services/interview-engine.service.ts:389-391 | 83.34 gives 83.3, 83.35 gives 83.4, 72 gives 72 |
| InterviewService.GroupByCategory | src/lib/services/interview.service.ts:603-615 | the `forEach` builds, per category, exactly the answered scores of that category in question order |
| InterviewService.AnsweredScores | src/lib/services/interview.service.ts:595-597 | the scores of the answered questions in question order, never more than there are questions; `AnsweredScoresAfterAnswer` states that answering adds exactly one |
| InterviewService.CategoryScores | src/lib/services/interview.service.ts:611-616 | the answered scores of one category in question order, a sub-list of the answered scores; `GroupByCategory` proves the `forEach` builds exactly these |
| InterviewService.TimeEfficiencyScores | src/lib/services/interview.service.ts:625-627 | one efficiency score per answered question, as many as there are answered scores |
| InterviewService.CalculateCategoryAverage | src/lib/services/interview.service.ts:774-779 | 50 for an empty list, otherwise the mean |
| InterviewService.CategoryAverageInRange | src/lib/services/interview.service.ts:774-779 | averages of scores in [0,100] stay in [0,100] |
| InterviewService.OverallWeightingIsAverage | src/lib/services/interview.service.ts:638-644 | the 0.35/0.20/0.20/0.15/0.10 weighting lies between the bounds of its parts; five equal averages x give x |
| InterviewService.OverallWeighting | src/lib/services/interview.service.ts:639-645 | the 0.35/0.20/0.20/0.15/0.10 sum; that it is an average is stated by `OverallWeightingIsAverage` |
| InterviewService.DurationSeconds | src/lib/services/interview.service.ts:592 | `Math.floor` of the elapsed milliseconds over 1000: the largest whole second not after the elapsed time |
| InterviewService.ScoresInRange | src/lib/services/interview.service.ts:618-644 | with stored scores in [0,100], the five skills and the overall score are in [0,100] |
| InterviewService.SkillsOf | src/lib/services/interview.service.ts:618-636 | the rounded skill breakdown, communication being the mean of the behavioral and scenario averages; its range is stated by `ScoresInRange` and its uniform case by `ReportUniform` |
| InterviewService.OverallOf | src/lib/services/interview.service.ts:638-645 | the rounded weighted overall score; its range is stated by `ScoresInRange` |
| InterviewService.ReportInRange | src/lib/services/interview.service.ts:618-680 | every figure of the written report is in [0,100] |
| InterviewService.ReportUniform | src/lib/services/interview.service.ts:618-644 | when every score and efficiency is x and every category was answered, the overall score and all five skills are x to one decimal |
| InterviewService.ReportForShape | src/lib/services/interview.service.ts:647-680 | the question count and the average time per question count every question asked, answered or not; the recommendation is the band of the overall score; the confidence is in [40,85] |
| InterviewService.ReportFor | src/lib/services/interview.service.ts:594-680 | the report `endInterview` writes; its figures are stated by `ReportForShape`, `ReportInRange` and `ReportUniform`, and `BuildReport` proves the source-order computation yields it |
| InterviewService.BuildReport | src/lib/services/interview.service.ts:594-680 | the computation in the source's order yields exactly the specified report |
| InterviewService.StoredAnswer | src/lib/services/interview.service.ts:413-428 | every stored score is normalised into [0,100]; a score already in range is stored unchanged |
| InterviewService.Answered | src/lib/services/interview.service.ts:413-441 | the answer is attached to its question and the question list keeps its length |
| InterviewService.AnsweredShape | src/lib/services/interview.service.ts:413-441 | storing an answer keeps the question ids, time limits, counter, status and report, and keeps all scores in range |
| InterviewService.AnsweredScoresAfterAnswer | src/lib/services/interview.service.ts:443-444 | answering an unanswered question adds exactly one score |
| InterviewService.IndexOfId | src/lib/services/interview.service.ts:349-369 | the position of the question with that id, or none when no question has it |
| InterviewService.AskedCategories | src/lib/services/interview.service.ts:283 | the categories of the questions so far, in order |
| InterviewService.EndedShape | src/lib/services/interview.service.ts:683-691 | `endInterview` always sets Completed (never Terminated); it keeps the questions, counter and difficulty, records the end time and the whole-second duration, and replaces the reason only when one is given |
| InterviewService.EndedWith | src/lib/services/interview.service.ts:683-691 | the session update of `endInterview`; `EndedShape` states what it sets and keeps |
| InterviewService.Ended | src/lib/services/interview.service.ts:683-691 | `EndedWith` applied to the report for the session's questions; `GetNextQuestion` states the session ends this way at 12 questions |
| InterviewService.Service.constructor | src/lib/services/interview.service.ts:173-216 | an empty store over the given resumes and job descriptions |
| InterviewService.Service.StartInterview | src/lib/services/interview.service.ts:173-216 | fails iff the resume or the job description is missing, changing no session; otherwise adds one fresh session, InProgress at Medium with question number 0 and no questions |
| InterviewService.Service.GetNextQuestion | src/lib/services/interview.service.ts:221-337 | fails unless the session exists and is InProgress. From 12 questions on, it ends the interview ('Interview completed. Maximum questions reached.') without a question. Otherwise it succeeds exactly when the completion is present and not blank, and then it appends exactly one question and sets the counter to n+1. That question has the allocator's category for n+1, the current difficulty, a fresh id, the generated text and the difficulty's time limit |
| InterviewService.Service.SubmitAnswer | src/lib/services/interview.service.ts:342-488 | an unknown question and an answered one are rejected with nothing changed, and session status is not checked. Otherwise it stores the normalised answer and sets the difficulty by `NextDifficulty`. It ends the session iff `ShouldContinueInterview` over the earlier scores plus this one says stop, with the termination reason or 'Interview completed'. It returns the rounded evaluation and `interviewComplete` = stop |
| InterviewService.Service.EndInterview | src/lib/services/interview.service.ts:571-715 | succeeds iff the session exists, has an answered question and no report yet. On success it writes the specified report and the Completed session update. On failure it changes nothing |
| InterviewService.Service.GetInterviewStatus | src/lib/services/interview.service.ts:493-566 | read-only: the session's status, counter and difficulty; the answered count; the rounded mean; the last three scores; the trend; and the per-category means keyed by exactly the lower-cased names of the categories answered, with no other key. An unknown session is an error |
| InterviewService.Service.GetFinalReport | src/lib/services/interview.service.ts:720-769 | read-only; fails exactly until the session has a report, then returns it with the session's status and times |
| JdPreview.AnyMatch | src/components/interview/JDPreview.tsx:18-21 | true iff some candidate skill contains the required one or is contained in it, both lower-cased |
| JdPreview.Matched | src/components/interview/JDPreview.tsx:25-32 | keeps only required skills that match |
| JdPreview.Unmatched | src/components/interview/JDPreview.tsx:16-23 | keeps only required skills that do not match |
| JdPreview.MatchedSkills | src/components/interview/JDPreview.tsx:25-32 | empty without candidate skills; only required skills |
| JdPreview.SkillGap | src/components/interview/JDPreview.tsx:16-23 | empty without candidate skills; only required skills |
| JdPreview.SkillMatchPercentage | src/components/interview/JDPreview.tsx:34-36 | in [0,100]; 0 for no required skills or no candidates; otherwise the rounded share of matched skills |
| JdPreview.FiltersAppend | src/components/interview/JDPreview.tsx:16-32 | both filters distribute over concatenation, so each keeps the required list's order |
| JdPreview.MatchedAppend | src/components/interview/JDPreview.tsx:25-32 | the matched filter distributes over concatenation |
| JdPreview.UnmatchedAppend | src/components/interview/JDPreview.tsx:16-23 | the gap filter distributes over concatenation |
| JdPreview.FiltersPartition | src/components/interview/JDPreview.tsx:16-32 | every required skill lands in exactly one list, as often as it is required |
| JdPreview.SkillsPartition | src/components/interview/JDPreview.tsx:16-32 | the two lists are a partition of the required skills: together the whole list, matched iff it matches, in the gap iff it does not, never both |
| JdPreview.EmptyCandidateMatchesAll | src/components/interview/JDPreview.tsx:18-20 | an empty candidate skill matches every required skill |
| JdPreview.MatchIgnoresCase | src/components/interview/JDPreview.tsx:18-20 | lower-casing either side never changes a match |
| JdPreview.AllMatch | src/components/interview/JDPreview.tsx:16-32 | if all match, matched is the whole list and the gap is empty |
| JdPreview.NoneMatch | src/components/interview/JDPreview.tsx:16-32 | if none match, matched is empty and the gap is the whole list |
| JdPreview.AllMatchedIsFull | src/components/interview/JDPreview.tsx:34-36 | all skills matched gives 100 |
| JdPreview.NoneMatchedIsZero | src/components/interview/JDPreview.tsx:34-36 | no skill matched gives 0 |
| AuthMiddleware.ExtractTokenFromHeader | src/lib/middleware/auth.middleware.ts:50-54 | a missing or empty header gives no token |
| AuthMiddleware.ExtractTokenSound | src/lib/middleware/auth.middleware.ts:56-61 | a token comes only from a header that is exactly 'Bearer', one space, then the token, and the token has no space |
| AuthMiddleware.ExtractTokenComplete | src/lib/middleware/auth.middleware.ts:56-61 | 'Bearer ' followed by any text without a space yields that text |
| AuthMiddleware.ExtractTokenExamples | src/lib/middleware/auth.middleware.ts:56-61 | 'Bearer ' yields the empty token; 'bearer abc' and 'Bearer a b' yield none |
| AuthMiddleware.RequireAuth | src/lib/middleware/auth.middleware.ts:67-94 | 'No authentication token provided' iff the token is missing or empty; 'Invalid or expired token' iff a non-empty token fails verification; otherwise success with exactly the verified payload |
| AuthMiddleware.RequireAuthOfBearer | src/lib/middleware/auth.middleware.ts:67-94 | a well-formed bearer header whose token verifies authenticates with those claims |
| AuthMiddleware.EmptyBearerIsNoToken | src/lib/middleware/auth.middleware.ts:56-79 | the header 'Bearer ' counts as no token |
| AuthMiddleware.SessionTokenClaims | src/lib/middleware/auth.middleware.ts:99-109 | the signed claims carry the session id, type 'interview_session' and the timestamp |
| AuthMiddleware.VerifySessionToken | src/lib/middleware/auth.middleware.ts:114-135 | accepted iff the token decodes and its type is 'interview_session', and then exactly the decoded claims |
| AuthMiddleware.SessionTokenRoundTrip | src/lib/middleware/auth.middleware.ts:99-135 | a token carrying `generateSessionToken`'s claims is accepted with them |
| InterviewWs.WithoutSocket | mini-services/interview-ws/index.ts:80-86 | removes the socket from one session's set and drops the entry once empty; other sessions unchanged |
| InterviewWs.WithSocket | mini-services/interview-ws/index.ts:53-57 | adds the socket to the session's set, creating it when missing; other sessions unchanged |
| InterviewWs.WithoutSocketKeepsValid | mini-services/interview-ws/index.ts:40-46 | removal keeps the no-empty-set rule and keeps every other mapped socket listed |
| InterviewWs.WithSocketKeepsValid | mini-services/interview-ws/index.ts:51-57 | adding keeps the no-empty-set rule and lists the newly mapped socket |
| InterviewWs.TrackedWithout | mini-services/interview-ws/index.ts:78 | unmapping a socket keeps the others listed |
| InterviewWs.WithoutUndoesWith | mini-services/interview-ws/index.ts:53-57 | adding a socket that was not listed and removing it again restores the sets |
| InterviewWs.LeaveElsewhereLeavesStale | mini-services/interview-ws/index.ts:74-86 | leaving a session the socket is not in unmaps it but leaves it listed under the session it joined |
| InterviewWs.EmptySessionIdLingers | mini-services/interview-ws/index.ts:37-38 | a socket mapped to the empty session id is never removed from that set, since '' is falsy |
| InterviewWs.SessionRegistry.constructor | mini-services/interview-ws/index.ts:23-24 | both maps start empty |
| InterviewWs.SessionRegistry.RemoveFromSession | mini-services/interview-ws/index.ts:40-46 | the remove-and-prune step |
| InterviewWs.SessionRegistry.AddToSession | mini-services/interview-ws/index.ts:54-57 | the create-and-add step |
| InterviewWs.SessionRegistry.JoinSession | mini-services/interview-ws/index.ts:33-71 | leaves the previously mapped session, maps the socket to the new one and lists it there; no set is ever empty and every mapped socket is listed |
| InterviewWs.SessionRegistry.LeaveSession | mini-services/interview-ws/index.ts:74-93 | unmaps the socket and removes it from the named session, pruning it; the invariant is kept |
| InterviewWs.SessionRegistry.Disconnect | mini-services/interview-ws/index.ts:161-182 | removes the socket from its mapped session, pruning it, then unmaps it; the invariant is kept |
| InterviewWs.SessionRegistry.GetSessionInfo | mini-services/interview-ws/index.ts:143-150 | the size of the session's set, or 0 without an entry; positive exactly for a listed session |
| ClientStore.PartializeIgnoresTransient | src/store/interview-store.ts:166-179 | the counter, question count, current question and answers never reach storage |
| ClientStore.RehydratePartialize | src/store/interview-store.ts:166-179 | what is stored is what is loaded back |
| ClientStore.Partialize | src/store/interview-store.ts:166-179 | the twelve persisted fields; `PartializeIgnoresTransient` states that the other four never reach storage |
| ClientStore.Rehydrate | src/store/interview-store.ts:164-179 | the stored fields merged shallowly over the current state; `RehydratePartialize` and `ReloadForgetsTransient` state what a reload gives |
| ClientStore.ReloadForgetsTransient | src/store/interview-store.ts:100-121 | after a reload the twelve persisted fields return and the four others take their initial values |
| ClientStore.InterviewStore.constructor | src/store/interview-store.ts:100-121 | every id and data field null, counter 0, twelve questions, no answers, both flags off |
| ClientStore.InterviewStore.SetEmail | src/store/interview-store.ts:123 | only `email` changes |
| ClientStore.InterviewStore.SetName | src/store/interview-store.ts:124 | only `name` changes |
| ClientStore.InterviewStore.SetResumeId | src/store/interview-store.ts:126 | only `resumeId` changes |
| ClientStore.InterviewStore.SetResumeData | src/store/interview-store.ts:127 | only `resumeData` changes |
| ClientStore.InterviewStore.SetResumeFileName | src/store/interview-store.ts:128 | only `resumeFileName` changes |
| ClientStore.InterviewStore.SetJdId | src/store/interview-store.ts:130 | only `jdId` changes |
| ClientStore.InterviewStore.SetJdData | src/store/interview-store.ts:131 | only `jdData` changes |
| ClientStore.InterviewStore.SetFitScore | src/store/interview-store.ts:132 | only `fitScore` changes |
| ClientStore.InterviewStore.SetSessionId | src/store/interview-store.ts:134 | only `sessionId` changes |
| ClientStore.InterviewStore.SetCurrentQuestion | src/store/interview-store.ts:136 | only `currentQuestion` changes |
| ClientStore.InterviewStore.SetCurrentQuestionNumber | src/store/interview-store.ts:137 | only `currentQuestionNumber` changes |
| ClientStore.InterviewStore.AddAnswer | src/store/interview-store.ts:138-140 | appends at the end; the earlier answers and every other field are unchanged |
| ClientStore.InterviewStore.SetInterviewActive | src/store/interview-store.ts:141 | only `isInterviewActive` changes |
| ClientStore.InterviewStore.SetInterviewComplete | src/store/interview-store.ts:142 | only `isInterviewComplete` changes |
| ClientStore.InterviewStore.SetFinalReport | src/store/interview-store.ts:144 | only `finalReport` changes |
| ClientStore.InterviewStore.Reset | src/store/interview-store.ts:146-162 | every field back to its initial value except `totalQuestions`, which is untouched; the persisted part equals the initial one |
| JsonRequest.Field | src/app/api/interview/submit-answer/route.ts:12 | destructuring gives the field's value, or `undefined` when it is absent |
| JsonRequest.ThrownMessage | src/app/api/interview/submit-answer/route.ts:74-83 | `error.message \|\| fallback`: a non-empty message is kept, an empty one gives exactly the fallback |
| JsonRequest.Failure | src/app/api/interview/submit-answer/route.ts:16-22 | an unsuccessful response with the status and message and no data |
| JsonRequest.Success | src/app/api/interview/submit-answer/route.ts:67-72 | a successful response with the status and data and no error |
| JsonRequest.NonBlankStringIff | src/app/api/interview/submit-answer/route.ts:26-34 | `typeof v === 'string' && v.trim().length > 0` iff v is a string with a non-whitespace character |
| SubmitAnswerRoute.Validate | src/app/api/interview/submit-answer/route.ts:15-64 | passes iff the id is a non-blank string, the text is a non-blank string and the time is a number ≥ 0; then it passes the id, the trimmed text and the time. Each of the five messages is given exactly when its check is the first to fail: missing fields (a falsy id, or an undefined text or time), an invalid id, a non-string text, a time that is not a number ≥ 0, then a blank text |
| SubmitAnswerRoute.Post | src/app/api/interview/submit-answer/route.ts:9-84 | status is 200, 400 or 500; 400 iff validation fails, with its message; 200 iff validation passes and the service succeeds, with its data; every failure carries a non-empty error and no data; a body that does not parse, or a service error, answers 500 with `error.message`, or with the route's fallback ('Failed to submit answer') when that is empty; a null or undefined body answers 500 with the destructuring TypeError |
| SubmitAnswerRoute.EmptyIdIsMissing | src/app/api/interview/submit-answer/route.ts:15-23 | an empty-string id fails as a missing field, not as an invalid id |
| SubmitAnswerRoute.BlankIdIsInvalid | src/app/api/interview/submit-answer/route.ts:26-34 | a whitespace-only id gives 'Invalid question ID' |
| SubmitAnswerRoute.NullResponseIsNotString | src/app/api/interview/submit-answer/route.ts:15-44 | a null text passes the presence check and fails the type check |
| SubmitAnswerRoute.ZeroTimeAccepted | src/app/api/interview/submit-answer/route.ts:46-54 | 0 seconds is accepted despite the word 'positive' in the message |
| SubmitAnswerRoute.TimeCheckedBeforeBlankText | src/app/api/interview/submit-answer/route.ts:46-64 | a blank text with a bad time fails on the time, with a good time on the text |
| UploadJdRoute.Validate | src/app/api/upload-jd/route.ts:21-68 | passes iff the email is a string with '@', the title a non-blank string and the text a string of trimmed length ≥ 50. It throws 'jdText.trim is not a function' iff the earlier checks pass and the text is truthy but not a string. Each 400 message is given exactly when its check is the first to fail: missing fields (any field falsy), an email without '@', a blank title, then a string text shorter than 50 once trimmed |
| UploadJdRoute.Post | src/app/api/upload-jd/route.ts:19-99 | status is 201, 400 or 500; 400 iff validation rejects, with its message; a throwing check gives 500 with the TypeError's message; 201 iff the checks pass and the service succeeds, with `jdId` and `parsedData`; a body that does not parse, or a service error, answers 500 with `error.message`, or with the route's fallback ('Failed to upload job description') when that is empty; a null or undefined body answers 500 with the destructuring TypeError |
| UploadJdRoute.NumericTextCrashes | src/app/api/upload-jd/route.ts:59-68 | a non-zero number as the text crashes into the 500 branch |
| UploadJdRoute.PaddedShortTextRejected | src/app/api/upload-jd/route.ts:59-68 | a text short after trimming is rejected however long it is before trimming |
| UploadResumeRoute.Validate | src/app/api/upload-resume/route.ts:15-54 | passes iff the email is a string with '@', the file name a non-blank string and the text a string of trimmed length ≥ 50; `name` is passed through. Each of the four messages is given exactly when its check is the first to fail: missing fields (any field falsy), an email without '@', a blank file name, then a text that is not a string of trimmed length ≥ 50 |
| UploadResumeRoute.Post | src/app/api/upload-resume/route.ts:12-80 | status is 201, 400 or 500; 400 iff validation fails; 201 iff the checks pass and the service succeeds, with `resumeId` and `parsedData`; every failure carries a non-empty error; a body that does not parse, or a service error, answers 500 with `error.message`, or with the route's fallback ('Failed to upload resume') when that is empty; a null or undefined body answers 500 with the destructuring TypeError |
| UploadResumeRoute.NonStringTextRejected | src/app/api/upload-resume/route.ts:46-54 | unlike upload-jd, a truthy non-string text is rejected with 400 |
| StartRoute.Validate | src/app/api/interview/start/route.ts:18-61 | passes iff the email is a string with '@' and both ids are non-blank strings; each of the four messages is given exactly when its check is the first to fail: missing fields (any field falsy), an email without '@', a blank resume id, then a blank jd id |
| StartRoute.Post | src/app/api/interview/start/route.ts:15-92 | status is 201, 400 or 500; 400 iff validation fails; 201 iff the checks pass and the service succeeds, with its data; a body that does not parse, or a service error, answers 500 with `error.message`, or with the route's fallback ('Failed to start interview') when that is empty; a null or undefined body answers 500 with the destructuring TypeError |
| StartRoute.EmptyThrownMessageFallsBack | src/app/api/interview/start/route.ts:82-91 | a service error with an empty message is reported as 'Failed to start interview' |
| StartRoute.ResumeIdCheckedFirst | src/app/api/interview/start/route.ts:41-61 | with both ids blank, the resume id is reported |

Helpers that carry no row of their own, each rendering one sub-expression or library call of the source:

- `InterviewService.SubmitOutcome`: the whole outcome of `submitAnswer` as a predicate, stated by `Service.SubmitAnswer`.
- `InterviewService.CanEnd`: the conditions under which `endInterview` succeeds: the session exists, has an answer, and has no report yet.
- `InterviewService.StoreValid` and `InterviewService.SessionFits`: the store's invariant, which `Service.Valid` keeps. The counter equals the number of questions, question ids are distinct and owned consistently, and stored scores are in range.
- `InterviewEngine.Count` and `InterviewEngine.Deviation`: the per-category count and the deviation inside `determineQuestionCategory` (the question number times the category weight, minus the category's count).
- `InterviewEngine.LowAverage` and `InterviewEngine.LastThreeBelow40`: the two score conditions of `checkTermination`.
- `InterviewEngine.BandCap` and `InterviewEngine.TrendAdjustment`: the per-band cap and the trend's +10/-10 inside `calculateRecommendation`.
- `Text.Trim`, `Text.ToLower`, `Text.Split` and `Text.Includes`: `String.prototype.trim`, `toLowerCase` (ASCII), `split` on one character, and `includes`.
- `JsonRequest.Truthy` and `JsonRequest.EmailLike`: JavaScript truthiness, and `typeof v === 'string' && v.includes('@')`.
- `InterviewWs.Departed`: the `if (previousSession)` removal shared by the join and disconnect handlers.

## Left out

- Floating point: scores are exact reals. IEEE rounding in the weighted sums and in `Math.round` of binary fractions is not modelled, and neither is `NaN` from non-numeric rubric values.
- `toFixed(1)` in the low-average reason is modelled by a one-decimal rendering of the mean; only the reason's presence is stated.
- `toLowerCase` is modelled for ASCII letters only. Unicode case mapping is not modelled.
- String lengths count Unicode characters, where JavaScript's `.length` counts UTF-16 code units. So the 50-character minimums of src/app/api/upload-jd/route.ts:59 and src/app/api/upload-resume/route.ts:46 differ for text outside the Basic Multilingual Plane: 25 emoji pass in the source and fail in the model.
- The language-model calls, prompts, `getZAI`, `cleanLLMResponse`, resume and job-description parsing and `calculateFitScore` are not part of this model. Their outputs are inputs: `EvaluatorReply` and the completion text.
- Prisma and JSON: the database is an in-memory map. Serialising the list fields to JSON text is not modelled.
- The database's one-report-per-session constraint is modelled by `CanEnd` requiring no report yet. The constraint itself is not modelled.
- `getOrCreateUser`, `uploadResume`, `uploadJobDescription` and `calculateInitialFit` are parameters of the routes, not modelled.
- Concurrency: `await` interleavings are not modelled. Each service operation and each socket handler is atomic.
- Question order: `submitAnswer` and `endInterview` are modelled as reading a session's questions in the order they were asked. Their queries (src/lib/services/interview.service.ts:357-361 and 576-580) have no `orderBy`, unlike those of `getNextQuestion` and `getInterviewStatus`, so the order behind the consecutive-low-scores check and the report's trend is unspecified in the source.
- Each operation reads the clock once, as the `nowMs` parameter, where the source calls `new Date()` several times.
- InterviewEngine.DetermineQuestionCategory: V8's in-place stable sort is represented by its first element, the first maximum in declaration order. The rest of the order is never read.
- InterviewEngine.SortByScoreDesc: the library sort is modelled as a stable insertion sort on values. Outside the effect of stability, the comparison order is not modelled.
- InterviewEngine.RoundScore: modelled with its default of one decimal, the only form the core calls.
- InterviewEngine.ValidateAnswerTime: the engine's private `calculateTimePenalty` (src/lib/services/interview-engine.service.ts:324-334) has the same body as the scoring one. It is modelled by `LlmScoring.TimePenalty`.
- InterviewEngine.Confidence: the code clamps the confidence to [40, 95] (src/lib/services/interview-engine.service.ts:269), but the earlier caps keep it at most 85, and `ConfidenceRange` proves [40, 85].
- InterviewService.Service.EndInterview: `SessionStatus` (src/lib/types/interview.ts:18) includes Terminated, but `endInterview` (src/lib/services/interview.service.ts:687) always writes Completed, also for an early termination. The model follows the code.
- Logging and `console.*` are not modelled, nor is the `logger` utility.
- The socket.io room joins, all `emit` calls, the broadcast and heartbeat handlers, the HTTP server and the signal handlers are not part of this model. Only the two maps are.
- JWT signing and verification (`jsonwebtoken`) and `generateToken` are not modelled. The verifier is a function parameter.
- The thin next-question, status, report and end routes are not part of this model. They only check `sessionId` and forward.
- ClientStore: zustand's rehydration is modelled as a shallow merge of the stored fields into the initial state. Local-storage I/O and versioning are not modelled.
- ClientStore: `currentQuestion` and `finalReport` are typed `any` and are held as opaque JSON text.
- JsonRequest.DestructureError: the `TypeError` texts for destructuring `null` and for calling `trim` on a non-string use V8's wording. Other engines word them differently.
