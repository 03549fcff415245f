/**
 * The interview session lifecycle: start, next question, submit answer, end with a
 * final report, status and report queries. The relational store is held in memory
 * by `Service`; the language-model replies and the clock are parameters.
 */
module InterviewService {
  import opened Basics
  import opened Text
  import opened InterviewTypes
  import opened LlmScoring
  import opened InterviewEngine

  /** An Answer row: the normalised scores as stored. */
  datatype Answer = Answer(
    responseText: string, timeTaken: real, score: real,
    accuracyScore: real, clarityScore: real, depthScore: real, relevanceScore: real,
    timeEfficiencyScore: real, timePenalty: int, feedback: string)

  /** A Question row with its optional Answer. */
  datatype Question = Question(
    id: nat, text: string, category: Category, difficulty: Difficulty, timeLimit: int,
    askedAt: int, answer: Option<Answer>)

  datatype SkillBreakdown = SkillBreakdown(
    technical: real, behavioral: real, conceptual: real, communication: real, timeManagement: real)

  /** A FinalReport row. */
  datatype Report = Report(
    overallScore: real, skills: SkillBreakdown, performanceTrend: PerformanceTrend,
    strengths: seq<string>, weaknesses: seq<Weakness>, recommendation: Recommendation,
    recommendationConfidence: int, questionCount: nat, averageTimePerQuestion: int)

  /** An InterviewSession row, with its questions in the order they were asked and its report. */
  datatype Session = Session(
    userId: string, resumeId: nat, jdId: nat, status: SessionStatus, currentDifficulty: Difficulty,
    currentQuestionNumber: nat, startTime: int, endTime: Option<int>, totalDuration: Option<int>,
    earlyTerminationReason: Option<string>, questions: seq<Question>, report: Option<Report>)

  // ---------------------------------------------------------------- aggregation over a session's questions

  /** `questions.filter(q => q.answer).map(q => q.answer.score)`. */
  function AnsweredScores(qs: seq<Question>): (r: seq<real>)
    ensures |r| <= |qs|
  {
    if qs == [] then []
    else AnsweredScores(qs[..|qs| - 1]) + (if qs[|qs| - 1].answer.Some? then [qs[|qs| - 1].answer.value.score] else [])
  }

  /** The answered scores of one category, in question order. */
  function CategoryScores(qs: seq<Question>, c: Category): (r: seq<real>)
    ensures |r| <= |AnsweredScores(qs)|
  {
    if qs == [] then []
    else
      var last := qs[|qs| - 1];
      CategoryScores(qs[..|qs| - 1], c)
      + (if last.answer.Some? && GetCategoryFromQuestion(Some(last.category)) == c then [last.answer.value.score] else [])
  }

  /** `questions.filter(q => q.answer).map(q => q.answer.timeEfficiencyScore)`. */
  function TimeEfficiencyScores(qs: seq<Question>): (r: seq<real>)
    ensures |r| == |AnsweredScores(qs)|
  {
    if qs == [] then []
    else
      TimeEfficiencyScores(qs[..|qs| - 1])
      + (if qs[|qs| - 1].answer.Some? then [qs[|qs| - 1].answer.value.timeEfficiencyScore] else [])
  }

  /** The four per-category lists as `answersByCategory` holds them. */
  function ByCategoryOf(qs: seq<Question>): ByCategory
  {
    ByCategory(CategoryScores(qs, Technical), CategoryScores(qs, Conceptual),
               CategoryScores(qs, Behavioral), CategoryScores(qs, Scenario))
  }

  function Push(b: ByCategory, c: Category, x: real): (r: ByCategory)
    ensures r.Get(c) == b.Get(c) + [x]
    ensures forall d: Category :: d != c ==> r.Get(d) == b.Get(d)
  {
    match c
    case Technical => b.(technical := b.technical + [x])
    case Conceptual => b.(conceptual := b.conceptual + [x])
    case Behavioral => b.(behavioral := b.behavioral + [x])
    case Scenario => b.(scenario := b.scenario + [x])
  }

  /** The `forEach` that pushes each answered score onto its category's list. */
  method GroupByCategory(qs: seq<Question>) returns (b: ByCategory)
    ensures forall c: Category :: b.Get(c) == CategoryScores(qs, c)
  {
    b := ByCategory([], [], [], []);
    for k := 0 to |qs|
      invariant forall c: Category :: b.Get(c) == CategoryScores(qs[..k], c)
    {
      assert qs[..k + 1][..k] == qs[..k];
      var q := qs[k];
      if q.answer.Some? {
        var category := GetCategoryFromQuestion(Some(q.category));
        b := Push(b, category, q.answer.value.score);
      }
    }
    assert qs[..|qs|] == qs;
  }

  /** `calculateCategoryAverage`: 50 for no scores, otherwise the mean. */
  function CalculateCategoryAverage(scores: seq<real>): (r: real)
    ensures |scores| == 0 ==> r == 50.0
    ensures |scores| > 0 ==> r == Mean(scores)
  {
    if |scores| == 0 then 50.0 else Mean(scores)
  }

  /** Averages of scores in [0, 100] stay in [0, 100]; the default 50 does too. */
  lemma CategoryAverageInRange(scores: seq<real>)
    requires forall i :: 0 <= i < |scores| ==> 0.0 <= scores[i] <= 100.0
    ensures 0.0 <= CalculateCategoryAverage(scores) <= 100.0
  {
    if |scores| > 0 {
      MeanBounds(scores, 0.0, 100.0);
    }
  }

  /** The report's overall weighting 0.35 / 0.20 / 0.20 / 0.15 / 0.10. */
  function OverallWeighting(technical: real, behavioral: real, conceptual: real, scenario: real, timeManagement: real): real
  {
    technical * 0.35 + behavioral * 0.20 + conceptual * 0.20 + scenario * 0.15 + timeManagement * 0.10
  }

  /** The weights sum to 1: the weighting is an average. */
  lemma OverallWeightingIsAverage(t: real, b: real, c: real, s: real, tm: real, lo: real, hi: real)
    requires lo <= t <= hi && lo <= b <= hi && lo <= c <= hi && lo <= s <= hi && lo <= tm <= hi
    ensures lo <= OverallWeighting(t, b, c, s, tm) <= hi
    ensures t == b == c == s == tm ==> OverallWeighting(t, b, c, s, tm) == t
  {
  }

  /** `Math.floor((endTime - startTime) / 1000)`, times in milliseconds. */
  function DurationSeconds(startMs: int, nowMs: int): (r: int)
    ensures r * 1000 <= nowMs - startMs < r * 1000 + 1000
  {
    (nowMs - startMs) / 1000
  }

  /** The skill breakdown in the key order of the object literal, as the engine sees it. */
  function SkillList(k: SkillBreakdown): seq<SkillScore>
  {
    [SkillScore("technical", k.technical), SkillScore("behavioral", k.behavioral),
     SkillScore("conceptual", k.conceptual), SkillScore("communication", k.communication),
     SkillScore("timeManagement", k.timeManagement)]
  }

  function SkillValues(k: SkillBreakdown): seq<real>
  {
    [k.technical, k.behavioral, k.conceptual, k.communication, k.timeManagement]
  }

  /** The rounded skill breakdown of a session's answers. */
  function SkillsOf(qs: seq<Question>): SkillBreakdown
  {
    var behavioral := CalculateCategoryAverage(CategoryScores(qs, Behavioral));
    var scenario := CalculateCategoryAverage(CategoryScores(qs, Scenario));
    SkillBreakdown(
      RoundScore(CalculateCategoryAverage(CategoryScores(qs, Technical))),
      RoundScore(behavioral),
      RoundScore(CalculateCategoryAverage(CategoryScores(qs, Conceptual))),
      RoundScore(behavioral * 0.5 + scenario * 0.5),
      RoundScore(CalculateCategoryAverage(TimeEfficiencyScores(qs))))
  }

  function OverallOf(qs: seq<Question>): real
  {
    RoundScore(OverallWeighting(
      CalculateCategoryAverage(CategoryScores(qs, Technical)),
      CalculateCategoryAverage(CategoryScores(qs, Behavioral)),
      CalculateCategoryAverage(CategoryScores(qs, Conceptual)),
      CalculateCategoryAverage(CategoryScores(qs, Scenario)),
      CalculateCategoryAverage(TimeEfficiencyScores(qs))))
  }

  /** The FinalReport `endInterview` writes for these questions and this duration. */
  function ReportFor(qs: seq<Question>, totalDuration: int): Report
    requires |qs| > 0
  {
    var skills := SkillsOf(qs);
    var overallScore := OverallOf(qs);
    var performanceTrend := PerformanceTrendOf(AnsweredScores(qs));
    var sw := CalculateStrengthsAndWeaknesses(SkillList(skills), []);
    Report(overallScore, skills, performanceTrend, sw.strengths, sw.weaknesses,
           Band(overallScore), Confidence(overallScore, performanceTrend, SkillValues(skills)),
           |qs|, Round(totalDuration as real / |qs| as real))
  }

  predicate AnswerInRange(a: Answer)
  {
    && 0.0 <= a.score <= 100.0 && 0.0 <= a.accuracyScore <= 100.0 && 0.0 <= a.clarityScore <= 100.0
    && 0.0 <= a.depthScore <= 100.0 && 0.0 <= a.relevanceScore <= 100.0 && 0.0 <= a.timeEfficiencyScore <= 100.0
  }

  predicate AnswersInRange(qs: seq<Question>)
  {
    forall i :: 0 <= i < |qs| && qs[i].answer.Some? ==> AnswerInRange(qs[i].answer.value)
  }

  /** Every stored score and time-efficiency score lies between `lo` and `hi`. */
  predicate ScoresBetween(qs: seq<Question>, lo: real, hi: real)
  {
    forall i :: 0 <= i < |qs| && qs[i].answer.Some? ==>
      lo <= qs[i].answer.value.score <= hi && lo <= qs[i].answer.value.timeEfficiencyScore <= hi
  }

  /** Bounds on the stored scores carry over to every list the report averages. */
  lemma {:induction false} ScoreListsBetween(qs: seq<Question>, c: Category, lo: real, hi: real)
    requires ScoresBetween(qs, lo, hi)
    ensures forall i :: 0 <= i < |CategoryScores(qs, c)| ==> lo <= CategoryScores(qs, c)[i] <= hi
    ensures forall i :: 0 <= i < |TimeEfficiencyScores(qs)| ==> lo <= TimeEfficiencyScores(qs)[i] <= hi
  {
    if qs != [] {
      var init := qs[..|qs| - 1];
      assert ScoresBetween(init, lo, hi) by {
        forall i | 0 <= i < |init| && init[i].answer.Some?
          ensures lo <= init[i].answer.value.score <= hi && lo <= init[i].answer.value.timeEfficiencyScore <= hi
        {
          assert init[i] == qs[i];
        }
      }
      ScoreListsBetween(init, c, lo, hi);
    }
  }

  /** With every stored score in [0, 100], the five skill figures and the overall score lie in [0, 100] too. */
  lemma ScoresInRange(qs: seq<Question>)
    requires AnswersInRange(qs)
    ensures 0.0 <= OverallOf(qs) <= 100.0
    ensures var k := SkillsOf(qs);
            && 0.0 <= k.technical <= 100.0 && 0.0 <= k.behavioral <= 100.0 && 0.0 <= k.conceptual <= 100.0
            && 0.0 <= k.communication <= 100.0 && 0.0 <= k.timeManagement <= 100.0
  {
    assert ScoresBetween(qs, 0.0, 100.0);
    ScoreListsBetween(qs, Technical, 0.0, 100.0);
    ScoreListsBetween(qs, Behavioral, 0.0, 100.0);
    ScoreListsBetween(qs, Conceptual, 0.0, 100.0);
    ScoreListsBetween(qs, Scenario, 0.0, 100.0);
    var t := CalculateCategoryAverage(CategoryScores(qs, Technical));
    var b := CalculateCategoryAverage(CategoryScores(qs, Behavioral));
    var c := CalculateCategoryAverage(CategoryScores(qs, Conceptual));
    var s := CalculateCategoryAverage(CategoryScores(qs, Scenario));
    var tm := CalculateCategoryAverage(TimeEfficiencyScores(qs));
    CategoryAverageInRange(CategoryScores(qs, Technical));
    CategoryAverageInRange(CategoryScores(qs, Behavioral));
    CategoryAverageInRange(CategoryScores(qs, Conceptual));
    CategoryAverageInRange(CategoryScores(qs, Scenario));
    CategoryAverageInRange(TimeEfficiencyScores(qs));
    OverallWeightingIsAverage(t, b, c, s, tm, 0.0, 100.0);
    RoundScoreKeepsRange(t);
    RoundScoreKeepsRange(b);
    RoundScoreKeepsRange(c);
    RoundScoreKeepsRange(b * 0.5 + s * 0.5);
    RoundScoreKeepsRange(tm);
    RoundScoreKeepsRange(OverallWeighting(t, b, c, s, tm));
  }

  /**
   * With every stored score in [0, 100], every figure of the report lies in
   * [0, 100] too.
   */
  lemma ReportInRange(qs: seq<Question>, totalDuration: int)
    requires |qs| > 0 && AnswersInRange(qs)
    ensures var r := ReportFor(qs, totalDuration);
            && 0.0 <= r.overallScore <= 100.0
            && 0.0 <= r.skills.technical <= 100.0 && 0.0 <= r.skills.behavioral <= 100.0
            && 0.0 <= r.skills.conceptual <= 100.0 && 0.0 <= r.skills.communication <= 100.0
            && 0.0 <= r.skills.timeManagement <= 100.0
  {
    ScoresInRange(qs);
  }

  /**
   * A uniform performance is reported as itself: when every stored score and
   * time-efficiency score is `x` and every category was answered, the overall
   * score and all five skills are `x` rounded to one decimal.
   */
  lemma ReportUniform(qs: seq<Question>, totalDuration: int, x: real)
    requires |qs| > 0 && ScoresBetween(qs, x, x)
    requires forall c: Category :: |CategoryScores(qs, c)| > 0
    ensures var r := ReportFor(qs, totalDuration);
            && r.overallScore == RoundScore(x)
            && r.skills == SkillBreakdown(RoundScore(x), RoundScore(x), RoundScore(x), RoundScore(x), RoundScore(x))
  {
    forall c: Category ensures CalculateCategoryAverage(CategoryScores(qs, c)) == x {
      ScoreListsBetween(qs, c, x, x);
      MeanBounds(CategoryScores(qs, c), x, x);
    }
    assert |TimeEfficiencyScores(qs)| > 0 by {
      assert |CategoryScores(qs, Technical)| > 0;
    }
    ScoreListsBetween(qs, Technical, x, x);
    MeanBounds(TimeEfficiencyScores(qs), x, x);
    assert CalculateCategoryAverage(CategoryScores(qs, Technical)) == x;
    assert CalculateCategoryAverage(CategoryScores(qs, Behavioral)) == x;
    assert CalculateCategoryAverage(CategoryScores(qs, Conceptual)) == x;
    assert CalculateCategoryAverage(CategoryScores(qs, Scenario)) == x;
    OverallWeightingIsAverage(x, x, x, x, x, x, x);
  }

  /** The index of the question with this id. */
  function IndexOfId(qs: seq<Question>, id: nat): (r: Option<nat>)
    ensures r.Some? ==> r.value < |qs| && qs[r.value].id == id
    ensures r.None? ==> forall i :: 0 <= i < |qs| ==> qs[i].id != id
  {
    if qs == [] then None
    else if qs[|qs| - 1].id == id then Some(|qs| - 1)
    else IndexOfId(qs[..|qs| - 1], id)
  }

  // ---------------------------------------------------------------- state transitions as values

  /** The session as `endInterview` leaves it: Completed, timed, with its report; the reason only if one was given. */
  function Ended(s: Session, reason: Option<string>, nowMs: int): Session
    requires |s.questions| > 0
  {
    EndedWith(s, reason, nowMs, ReportFor(s.questions, DurationSeconds(s.startTime, nowMs)))
  }

  /** The session update of `endInterview`, with the report it created. */
  function EndedWith(s: Session, reason: Option<string>, nowMs: int, report: Report): Session
  {
    s.(status := Completed, endTime := Some(nowMs), totalDuration := Some(DurationSeconds(s.startTime, nowMs)),
       earlyTerminationReason := if reason.Some? then reason else s.earlyTerminationReason,
       report := Some(report))
  }

  /** The Answer row `submitAnswer` stores: every score through `normalizeScore`. */
  function StoredAnswer(responseText: string, timeTaken: real, e: Evaluation): (a: Answer)
    ensures AnswerInRange(a)
    ensures a.score == e.overallScore || !(0.0 <= e.overallScore <= 100.0)
  {
    Answer(responseText, timeTaken, NormalizeScore(e.overallScore),
           NormalizeScore(e.breakdown.accuracy), NormalizeScore(e.breakdown.clarity),
           NormalizeScore(e.breakdown.depth), NormalizeScore(e.breakdown.relevance),
           NormalizeScore(e.breakdown.timeEfficiency), e.timePenalty, e.feedback)
  }

  /** The session after an answer is stored at index `i` and the difficulty updated. */
  function Answered(s: Session, i: nat, a: Answer, d: Difficulty): (r: Session)
    requires i < |s.questions|
    ensures |r.questions| == |s.questions| && r.questions[i].answer == Some(a)
  {
    s.(questions := s.questions[i := s.questions[i].(answer := Some(a))], currentDifficulty := d)
  }

  lemma AnsweredShape(s: Session, i: nat, a: Answer, d: Difficulty)
    requires i < |s.questions| && AnswersInRange(s.questions) && AnswerInRange(a)
    ensures var r := Answered(s, i, a, d);
            && SameIds(s.questions, r.questions) && AnswersInRange(r.questions)
            && r.currentQuestionNumber == s.currentQuestionNumber && r.report == s.report && r.status == s.status
            && forall k :: 0 <= k < |r.questions| ==> r.questions[k].timeLimit == s.questions[k].timeLimit
  {
  }

  /** The categories of the questions asked so far, in order. */
  function AskedCategories(qs: seq<Question>): (r: seq<Category>)
    ensures |r| == |qs| && forall i :: 0 <= i < |qs| ==> r[i] == qs[i].category
  {
    seq(|qs|, i requires 0 <= i < |qs| => qs[i].category)
  }

  /**
   * What a successful `getNextQuestion` did to session `s`: the question has the
   * allocator's category for question number n+1, the text, difficulty and time
   * limit of the generated question, the next fresh id; it is appended and the
   * question number becomes n+1.
   */
  ghost predicate NextQuestionAdded(s: Session, completion: Option<string>, nowMs: int, id: nat,
                                    r: NextQuestion, s': Session)
  {
    var g := GenerateQuestion(completion, r.category, s.currentDifficulty);
    && IsChosenCategory(AskedCategories(s.questions), s.currentQuestionNumber + 1, r.category)
    && g.Ok?
    && r == NextQuestion(id, g.value.text, g.value.category, g.value.difficulty, g.value.timeLimit,
                         s.currentQuestionNumber + 1)
    && s' == s.(questions := s.questions + [Question(id, g.value.text, g.value.category, g.value.difficulty,
                                                     g.value.timeLimit, nowMs, None)],
                currentQuestionNumber := s.currentQuestionNumber + 1)
  }

  /**
   * What `submitAnswer` does for an existing question of session `sid`: duplicate
   * and evaluator failures change nothing; otherwise the normalised answer and the
   * next difficulty are stored, and the session is ended exactly when
   * `shouldContinueInterview` over the earlier scores plus this one says stop,
   * with the termination reason or 'Interview completed'.
   */
  ghost predicate SubmitOutcome(sessions: map<nat, Session>, sid: nat, questionId: nat, responseText: string,
                                timeTaken: real, reply: EvaluatorReply, nowMs: int,
                                r: Result<SubmitResult>, sessions': map<nat, Session>)
  {
    sid in sessions && IndexOfId(sessions[sid].questions, questionId).Some? &&
    var s := sessions[sid];
    var i := IndexOfId(s.questions, questionId).value;
    var q := s.questions[i];
    && (q.answer.Some? ==> r == Err("Answer already submitted for this question") && sessions' == sessions)
    && (q.answer.None? && reply.CallFailed? ==> r == Err("Failed to evaluate answer") && sessions' == sessions)
    && (q.answer.None? && !reply.CallFailed? ==>
          q.timeLimit > 0 &&
          var e := EvaluateAnswer(reply, timeTaken, q.timeLimit).value;
          var d := NextDifficulty(s.currentDifficulty, e.overallScore, s.currentQuestionNumber);
          var answered := Answered(s, i, StoredAnswer(responseText, timeTaken, e), d);
          var allScores := AnsweredScores(s.questions) + [e.overallScore];
          var stop := !ShouldContinueInterview(s.currentQuestionNumber, allScores, s.startTime, nowMs);
          var termination := CheckTermination(allScores, s.startTime, nowMs, false);
          var reason := if termination.reason.Some? then termination.reason.value else "Interview completed";
          && (!stop ==> r.Ok? && sessions' == sessions[sid := answered])
          && (stop && CanEnd(sessions[sid := answered], sid) ==>
                r.Ok? && sessions' == sessions[sid := Ended(answered, Some(reason), nowMs)])
          && (stop && !CanEnd(sessions[sid := answered], sid) ==>
                r == Err("Failed to end interview") && sessions' == sessions[sid := answered])
          && (r.Ok? ==> r.value == SubmitResult(
                RoundScore(e.overallScore), RoundedBreakdown(e.breakdown), e.timePenalty, e.feedback,
                e.strengths, e.improvements, d, stop, termination.reason)))
  }

  /** Storing an answer adds exactly its score to the answered scores (at the question's position). */
  lemma {:induction false} AnsweredScoresAfterAnswer(qs: seq<Question>, i: nat, a: Answer)
    requires i < |qs| && qs[i].answer.None?
    ensures |AnsweredScores(qs[i := qs[i].(answer := Some(a))])| == |AnsweredScores(qs)| + 1
  {
    var qs' := qs[i := qs[i].(answer := Some(a))];
    if i < |qs| - 1 {
      assert qs'[..|qs| - 1] == qs[..|qs| - 1][i := qs[i].(answer := Some(a))];
      AnsweredScoresAfterAnswer(qs[..|qs| - 1], i, a);
    } else {
      assert qs'[..|qs| - 1] == qs[..|qs| - 1];
    }
  }

  // ---------------------------------------------------------------- operation results

  datatype StartResult = StartResult(sessionId: nat, status: SessionStatus, currentDifficulty: Difficulty, message: string)

  datatype NextQuestion = NextQuestion(id: nat, text: string, category: Category, difficulty: Difficulty,
                                       timeLimit: int, questionNumber: nat)

  datatype SubmitResult = SubmitResult(
    overallScore: real, breakdown: Breakdown, timePenalty: int, feedback: string,
    strengths: seq<string>, improvements: seq<string>, nextDifficulty: Difficulty,
    interviewComplete: bool, terminationReason: Option<string>)

  datatype ReportView = ReportView(sessionId: nat, report: Report, totalDuration: int)

  datatype StatusView = StatusView(
    sessionId: nat, status: SessionStatus, currentQuestionNumber: nat, currentDifficulty: Difficulty,
    startTime: int, timeElapsed: real, questionsAnswered: nat, averageScore: real, lastScores: seq<real>,
    performanceTrend: PerformanceTrend, skillBreakdown: map<string, real>)

  datatype FinalReportView = FinalReportView(
    sessionId: nat, report: Report, sessionStatus: SessionStatus, startTime: int,
    endTime: Option<int>, totalDuration: Option<int>)

  /** `roundScore` applied to the evaluation as `submitAnswer` returns it. */
  function RoundedBreakdown(b: Breakdown): Breakdown
  {
    Breakdown(RoundScore(b.accuracy), RoundScore(b.clarity), RoundScore(b.depth),
              RoundScore(b.relevance), RoundScore(b.timeEfficiency))
  }

  /** `endInterview` can succeed: the session exists, has an answer, and has no report yet. */
  predicate CanEnd(sessions: map<nat, Session>, sessionId: nat)
  {
    sessionId in sessions && |AnsweredScores(sessions[sessionId].questions)| > 0
    && sessions[sessionId].report.None?
  }

  /** A stored question: a positive time limit, an id below the id counter, and scores in range once answered. */
  predicate QuestionFits(q: Question, idBound: nat)
  {
    && q.timeLimit > 0 && q.id < idBound
    && (q.answer.Some? ==> AnswerInRange(q.answer.value))
  }

  /** What every stored session satisfies: its question number counts its questions, a report only on a Completed session, and every question fits. */
  ghost predicate SessionFits(s: Session, idBound: nat)
  {
    && s.currentQuestionNumber == |s.questions|
    && (s.report.Some? ==> s.status == Completed)
    && (forall i :: 0 <= i < |s.questions| ==> QuestionFits(s.questions[i], idBound))
    && (forall i, j :: 0 <= i < j < |s.questions| ==> s.questions[i].id != s.questions[j].id)
  }

  /** The store invariant: session ids below the counter, every session fits, every owned id is found in its owner. */
  ghost predicate StoreValid(sessions: map<nat, Session>, owner: map<nat, nat>, sessionBound: nat, idBound: nat)
  {
    && (forall sid :: sid in sessions ==> sid < sessionBound && SessionFits(sessions[sid], idBound))
    && (forall qid :: qid in owner ==> owner[qid] in sessions && HasQuestion(sessions[owner[qid]].questions, qid))
  }

  /** Some question of the list carries this id. */
  ghost predicate HasQuestion(qs: seq<Question>, id: nat)
  {
    exists i :: 0 <= i < |qs| && qs[i].id == id
  }

  /** Two question lists with the same ids in the same order. */
  predicate SameIds(a: seq<Question>, b: seq<Question>)
  {
    |a| == |b| && forall k :: 0 <= k < |a| ==> a[k].id == b[k].id
  }

  lemma {:induction false} IndexOfSameIds(a: seq<Question>, b: seq<Question>, id: nat)
    requires SameIds(a, b)
    ensures IndexOfId(a, id) == IndexOfId(b, id)
  {
    if a != [] {
      assert SameIds(a[..|a| - 1], b[..|b| - 1]);
      IndexOfSameIds(a[..|a| - 1], b[..|b| - 1], id);
    }
  }

  /** Writing a key twice keeps the second value. */
  lemma MapOverwrite<K, V>(m: map<K, V>, k: K, a: V, b: V)
    ensures m[k := a][k := b] == m[k := b]
  {
  }

  /** Replacing a session by one with the same question ids keeps the store valid. */
  lemma ReplaceSessionKeepsValid(sessions: map<nat, Session>, owner: map<nat, nat>, sb: nat, ib: nat, sid: nat, s': Session)
    requires StoreValid(sessions, owner, sb, ib) && sid in sessions
    requires SameIds(sessions[sid].questions, s'.questions)
    requires s'.currentQuestionNumber == |s'.questions| && (s'.report.Some? ==> s'.status == Completed)
    requires AnswersInRange(s'.questions)
    requires forall i :: 0 <= i < |s'.questions| ==> s'.questions[i].timeLimit > 0
    ensures StoreValid(sessions[sid := s'], owner, sb, ib)
  {
    var old_s := sessions[sid];
    assert SessionFits(old_s, ib);
    assert SessionFits(s', ib) by {
      forall i | 0 <= i < |s'.questions| ensures s'.questions[i].id == old_s.questions[i].id { }
    }
    forall qid | qid in owner && owner[qid] == sid
      ensures HasQuestion(s'.questions, qid)
    {
      var i :| 0 <= i < |old_s.questions| && old_s.questions[i].id == qid;
      assert s'.questions[i].id == qid;
    }
  }

  /** Appending a question with the next fresh id to a session keeps the store valid. */
  lemma AddQuestionKeepsValid(sessions: map<nat, Session>, owner: map<nat, nat>, sb: nat, ib: nat, sid: nat, q: Question)
    requires StoreValid(sessions, owner, sb, ib) && sid in sessions
    requires q.id == ib && q.timeLimit > 0 && q.answer.None?
    ensures q.id !in owner
    ensures var s := sessions[sid];
            StoreValid(sessions[sid := s.(questions := s.questions + [q], currentQuestionNumber := s.currentQuestionNumber + 1)],
                       owner[q.id := sid], sb, ib + 1)
  {
    var s := sessions[sid];
    var updated := s.(questions := s.questions + [q], currentQuestionNumber := s.currentQuestionNumber + 1);
    var sessions' := sessions[sid := updated];
    var owner' := owner[q.id := sid];
    forall t | t in sessions' ensures SessionFits(sessions'[t], ib + 1) {
      assert SessionFits(sessions[t], ib);
      if t == sid {
        assert forall i :: 0 <= i < |s.questions| ==> updated.questions[i] == s.questions[i];
      }
    }
    forall qid | qid in owner'
      ensures owner'[qid] in sessions' && HasQuestion(sessions'[owner'[qid]].questions, qid)
    {
      if qid == q.id {
        assert updated.questions[|updated.questions| - 1].id == qid;
      } else if owner'[qid] == sid {
        var k :| 0 <= k < |s.questions| && s.questions[k].id == qid;
        assert updated.questions[k].id == qid;
      }
    }
  }

  /** The report computation of `endInterview`, in the order the source performs it. */
  method BuildReport(qs: seq<Question>, totalDuration: int) returns (report: Report)
    requires |qs| > 0
    ensures report == ReportFor(qs, totalDuration)
  {
    var scores := AnsweredScores(qs);
    var answersByCategory := GroupByCategory(qs);
    var technicalScore := CalculateCategoryAverage(answersByCategory.technical);
    var conceptualScore := CalculateCategoryAverage(answersByCategory.conceptual);
    var behavioralScore := CalculateCategoryAverage(answersByCategory.behavioral);
    var scenarioScore := CalculateCategoryAverage(answersByCategory.scenario);
    var timeManagementScore := CalculateCategoryAverage(TimeEfficiencyScores(qs));
    var skillBreakdown := SkillBreakdown(
      RoundScore(technicalScore), RoundScore(behavioralScore), RoundScore(conceptualScore),
      RoundScore(behavioralScore * 0.5 + scenarioScore * 0.5), RoundScore(timeManagementScore));
    var overallScore := RoundScore(OverallWeighting(technicalScore, behavioralScore, conceptualScore,
                                                    scenarioScore, timeManagementScore));
    var performanceTrend := PerformanceTrendOf(scores);
    var recommendation, confidence := CalculateRecommendation(overallScore, performanceTrend, SkillValues(skillBreakdown));
    var sw := CalculateStrengthsAndWeaknesses(SkillList(skillBreakdown), []);
    assert answersByCategory.Get(Technical) == CategoryScores(qs, Technical);
    assert answersByCategory.Get(Conceptual) == CategoryScores(qs, Conceptual);
    assert answersByCategory.Get(Behavioral) == CategoryScores(qs, Behavioral);
    assert answersByCategory.Get(Scenario) == CategoryScores(qs, Scenario);
    assert skillBreakdown == SkillsOf(qs);
    assert overallScore == OverallOf(qs);
    report := Report(overallScore, skillBreakdown, performanceTrend, sw.strengths, sw.weaknesses,
                     recommendation, confidence, |qs|, Round(totalDuration as real / |qs| as real));
  }

  // ---------------------------------------------------------------- the service

  class Service {
    var sessions: map<nat, Session>
    /** Which session each question id belongs to. */
    var questionOwner: map<nat, nat>
    var resumes: set<nat>
    var jds: set<nat>
    var nextSessionId: nat
    var nextQuestionId: nat

    ghost predicate Valid()
      reads this
    {
      StoreValid(sessions, questionOwner, nextSessionId, nextQuestionId)
    }

    constructor (resumes: set<nat>, jds: set<nat>)
      ensures Valid()
      ensures this.sessions == map[] && this.questionOwner == map[]
      ensures this.resumes == resumes && this.jds == jds
    {
      this.sessions := map[];
      this.questionOwner := map[];
      this.resumes := resumes;
      this.jds := jds;
      this.nextSessionId := 0;
      this.nextQuestionId := 0;
    }

    /** Writes the new row of session `sid`; its question ids stay as they were. */
    method PutSession(sid: nat, s': Session)
      requires Valid() && sid in sessions
      requires SameIds(sessions[sid].questions, s'.questions)
      requires s'.currentQuestionNumber == |s'.questions| && (s'.report.Some? ==> s'.status == Completed)
      requires AnswersInRange(s'.questions)
      requires forall i :: 0 <= i < |s'.questions| ==> s'.questions[i].timeLimit > 0
      modifies this
      ensures Valid()
      ensures sessions == old(sessions)[sid := s']
      ensures questionOwner == old(questionOwner) && resumes == old(resumes) && jds == old(jds)
      ensures nextSessionId == old(nextSessionId) && nextQuestionId == old(nextQuestionId)
    {
      ReplaceSessionKeepsValid(sessions, questionOwner, nextSessionId, nextQuestionId, sid, s');
      sessions := sessions[sid := s'];
    }

    /** Creates the Question row for a generated question under the next id and appends it to session `sid`. */
    method AppendQuestion(sid: nat, g: GeneratedQuestion, nowMs: int) returns (q: Question)
      requires Valid() && sid in sessions && g.timeLimit > 0
      modifies this
      ensures Valid()
      ensures q == Question(old(nextQuestionId), g.text, g.category, g.difficulty, g.timeLimit, nowMs, None)
      ensures q.id !in old(questionOwner) && questionOwner == old(questionOwner)[q.id := sid]
      ensures var s := old(sessions)[sid];
              sessions == old(sessions)[sid := s.(questions := s.questions + [q],
                                                   currentQuestionNumber := s.currentQuestionNumber + 1)]
      ensures nextQuestionId == old(nextQuestionId) + 1
      ensures resumes == old(resumes) && jds == old(jds) && nextSessionId == old(nextSessionId)
    {
      q := Question(nextQuestionId, g.text, g.category, g.difficulty, g.timeLimit, nowMs, None);
      var s := sessions[sid];
      var updated := s.(questions := s.questions + [q], currentQuestionNumber := s.currentQuestionNumber + 1);
      AddQuestionKeepsValid(sessions, questionOwner, nextSessionId, nextQuestionId, sid, q);
      var sessions', owner', nextId' := sessions[sid := updated], questionOwner[q.id := sid], nextQuestionId + 1;
      sessions, questionOwner, nextQuestionId := sessions', owner', nextId';
    }

    /**
     * `startInterview`: fails unless both the resume and the job description exist;
     * otherwise adds a fresh session, InProgress at Medium with no questions.
     */
    method StartInterview(userId: string, resumeId: nat, jdId: nat, nowMs: int) returns (r: Result<StartResult>)
      requires Valid()
      modifies this
      ensures Valid()
      ensures r.Err? <==> resumeId !in resumes || jdId !in jds
      ensures r.Err? ==> r.message == "Failed to start interview" && sessions == old(sessions)
      ensures r.Ok? ==>
                && r.value == StartResult(old(nextSessionId), InProgress, Medium, "Interview session started successfully")
                && old(nextSessionId) !in old(sessions)
                && sessions == old(sessions)[old(nextSessionId) :=
                     Session(userId, resumeId, jdId, InProgress, Medium, 0, nowMs, None, None, None, [], None)]
      ensures questionOwner == old(questionOwner) && resumes == old(resumes) && jds == old(jds)
      ensures nextQuestionId == old(nextQuestionId)
    {
      if resumeId !in resumes || jdId !in jds {
        return Err("Failed to start interview");
      }
      var sessionId := nextSessionId;
      var session := Session(userId, resumeId, jdId, InProgress, Medium, 0, nowMs, None, None, None, [], None);
      assert SessionFits(session, nextQuestionId);
      sessions := sessions[sessionId := session];
      nextSessionId := nextSessionId + 1;
      r := Ok(StartResult(sessionId, session.status, session.currentDifficulty, "Interview session started successfully"));
    }

    /**
     * `endInterview`: fails (changing nothing) when the session is missing, has no
     * answer yet, or already has its report; otherwise writes the report and marks
     * the session Completed.
     */
    method EndInterview(sessionId: nat, reason: Option<string>, nowMs: int) returns (r: Result<ReportView>)
      requires Valid()
      modifies this
      ensures Valid()
      ensures r.Ok? <==> CanEnd(old(sessions), sessionId)
      ensures r.Err? ==> r.message == "Failed to end interview" && sessions == old(sessions)
      ensures r.Ok? ==>
                && sessionId in old(sessions) && |old(sessions)[sessionId].questions| > 0
                && r.value.sessionId == sessionId
                && r.value.totalDuration == DurationSeconds(old(sessions)[sessionId].startTime, nowMs)
                && r.value.report == ReportFor(old(sessions)[sessionId].questions, r.value.totalDuration)
                && sessions == old(sessions)[sessionId := EndedWith(old(sessions)[sessionId], reason, nowMs, r.value.report)]
      ensures questionOwner == old(questionOwner) && resumes == old(resumes) && jds == old(jds)
      ensures nextSessionId == old(nextSessionId) && nextQuestionId == old(nextQuestionId)
    {
      if sessionId !in sessions {
        return Err("Failed to end interview");
      }
      var session := sessions[sessionId];
      var endTime := nowMs;
      var totalDuration := DurationSeconds(session.startTime, endTime);
      var scores := AnsweredScores(session.questions);
      if |scores| == 0 {
        return Err("Failed to end interview");
      }
      var report := BuildReport(session.questions, totalDuration);
      // one report per session: creating a second one fails
      if session.report.Some? {
        return Err("Failed to end interview");
      }
      var ended := session.(status := Completed, endTime := Some(endTime), totalDuration := Some(totalDuration),
                            earlyTerminationReason := if reason.Some? then reason else session.earlyTerminationReason,
                            report := Some(report));
      assert SessionFits(session, nextQuestionId);
      PutSession(sessionId, ended);
      r := Ok(ReportView(sessionId, report, totalDuration));
    }

    /**
     * `getNextQuestion`: fails unless the session exists and is InProgress; at 12
     * questions it ends the interview and reports completion; otherwise it adds one
     * question of the allocator's category at the current difficulty and advances
     * the question number.
     */
    method GetNextQuestion(sessionId: nat, completion: Option<string>, nowMs: int) returns (r: Result<NextQuestion>)
      requires Valid()
      modifies this
      ensures Valid()
      ensures sessionId !in old(sessions) || old(sessions)[sessionId].status != InProgress ==>
                r == Err("Failed to get next question") && sessions == old(sessions)
      ensures sessionId in old(sessions) && old(sessions)[sessionId].status == InProgress
              && old(sessions)[sessionId].currentQuestionNumber >= MaxQuestions ==>
                && (CanEnd(old(sessions), sessionId) ==>
                      r == Err("Interview completed. Maximum questions reached.")
                      && sessions == old(sessions)[sessionId := Ended(old(sessions)[sessionId], Some("Maximum questions reached"), nowMs)])
                && (!CanEnd(old(sessions), sessionId) ==> r == Err("Failed to get next question") && sessions == old(sessions))
      ensures sessionId in old(sessions) && old(sessions)[sessionId].status == InProgress
              && old(sessions)[sessionId].currentQuestionNumber < MaxQuestions ==>
                (r.Ok? <==> completion.Some? && !IsBlank(completion.value))
      ensures r.Ok? ==>
                && sessionId in old(sessions) && old(sessions)[sessionId].status == InProgress
                && old(sessions)[sessionId].currentQuestionNumber < MaxQuestions
                && sessionId in sessions
                && NextQuestionAdded(old(sessions)[sessionId], completion, nowMs, old(nextQuestionId), r.value, sessions[sessionId])
                && sessions == old(sessions)[sessionId := sessions[sessionId]]
      ensures r.Err? && r.message == "Failed to get next question" ==> sessions == old(sessions)
      ensures resumes == old(resumes) && jds == old(jds) && nextSessionId == old(nextSessionId)
    {
      if sessionId !in sessions || sessions[sessionId].status != InProgress {
        return Err("Failed to get next question");
      }
      var session := sessions[sessionId];
      var bounds := GetQuestionBounds();
      if session.currentQuestionNumber >= bounds.max {
        var ended := EndInterview(sessionId, Some("Maximum questions reached"), nowMs);
        if ended.Err? {
          return Err("Failed to get next question");
        }
        return Err("Interview completed. Maximum questions reached.");
      }
      var askedCategories := AskedCategories(session.questions);
      var nextCategory := DetermineQuestionCategory(askedCategories, session.currentQuestionNumber + 1);
      var generated := GenerateQuestion(completion, nextCategory, session.currentDifficulty);
      if generated.Err? {
        return Err("Failed to get next question");
      }
      var question := AppendQuestion(sessionId, generated.value, nowMs);
      r := Ok(NextQuestion(question.id, question.text, question.category, question.difficulty,
                           question.timeLimit, session.currentQuestionNumber + 1));
    }

    /**
     * `submitAnswer`: rejects an unknown question and a question already answered;
     * stores the normalised evaluation, moves the difficulty by the state machine,
     * and ends the interview exactly when `shouldContinueInterview` says stop, over
     * the earlier answered scores followed by the new one.
     */
    method SubmitAnswer(questionId: nat, responseText: string, timeTaken: real, reply: EvaluatorReply, nowMs: int)
      returns (r: Result<SubmitResult>)
      requires Valid()
      modifies this
      ensures Valid()
      ensures questionId !in old(questionOwner) ==> r == Err("Question not found") && sessions == old(sessions)
      ensures questionId in old(questionOwner) ==>
                SubmitOutcome(old(sessions), old(questionOwner)[questionId], questionId, responseText, timeTaken,
                              reply, nowMs, r, sessions)
      ensures questionOwner == old(questionOwner) && resumes == old(resumes) && jds == old(jds)
      ensures nextSessionId == old(nextSessionId) && nextQuestionId == old(nextQuestionId)
    {
      if questionId !in questionOwner {
        return Err("Question not found");
      }
      var sessionId := questionOwner[questionId];
      var session := sessions[sessionId];
      var i := IndexOfId(session.questions, questionId).value;
      var question := session.questions[i];
      if question.answer.Some? {
        return Err("Answer already submitted for this question");
      }
      var previousScores := AnsweredScores(session.questions);
      assert SessionFits(session, nextQuestionId);
      var evaluated := EvaluateAnswer(reply, timeTaken, question.timeLimit);
      if evaluated.Err? {
        return Err(evaluated.message);
      }
      var evaluation := evaluated.value;
      var answer := StoredAnswer(responseText, timeTaken, evaluation);
      var nextDifficulty := NextDifficulty(session.currentDifficulty, evaluation.overallScore, session.currentQuestionNumber);
      var answered := Answered(session, i, answer, nextDifficulty);
      AnsweredShape(session, i, answer, nextDifficulty);
      PutSession(sessionId, answered);
      var allScores := previousScores + [evaluation.overallScore];
      var termination := CheckTermination(allScores, session.startTime, nowMs, false);
      var shouldContinue := ShouldContinueInterview(session.currentQuestionNumber, allScores, session.startTime, nowMs);
      if !shouldContinue {
        var reason := if termination.reason.Some? then termination.reason.value else "Interview completed";
        var ended := EndInterview(sessionId, Some(reason), nowMs);
        if ended.Err? {
          return Err(ended.message);
        }
        assert ended.value.report == ReportFor(answered.questions, DurationSeconds(answered.startTime, nowMs));
        MapOverwrite(old(sessions), sessionId, answered, Ended(answered, Some(reason), nowMs));
      }
      r := Ok(SubmitResult(RoundScore(evaluation.overallScore), RoundedBreakdown(evaluation.breakdown),
                           evaluation.timePenalty, evaluation.feedback, evaluation.strengths, evaluation.improvements,
                           nextDifficulty, !shouldContinue, termination.reason));
    }

    /**
     * `getInterviewStatus`: the live metrics of a session, read-only; an unknown
     * session gives 'Failed to get interview status'.
     */
    method GetInterviewStatus(sessionId: nat, nowMs: int) returns (r: Result<StatusView>)
      ensures r.Err? <==> sessionId !in sessions
      ensures r.Err? ==> r.message == "Failed to get interview status"
      ensures r.Ok? ==>
                var s := sessions[sessionId];
                var scores := AnsweredScores(s.questions);
                && r.value.sessionId == sessionId && r.value.status == s.status
                && r.value.currentQuestionNumber == s.currentQuestionNumber
                && r.value.currentDifficulty == s.currentDifficulty && r.value.startTime == s.startTime
                && r.value.timeElapsed == ElapsedSeconds(s.startTime, nowMs)
                && r.value.questionsAnswered == |scores|
                && r.value.averageScore == RoundScore(if |scores| > 0 then Mean(scores) else 0.0)
                && r.value.lastScores == LastN(scores, 3)
                && r.value.performanceTrend == PerformanceTrendOf(scores)
                && (forall c: Category :: CategoryKey(c) in r.value.skillBreakdown <==> |CategoryScores(s.questions, c)| > 0)
                && (forall c: Category :: CategoryKey(c) in r.value.skillBreakdown ==>
                      r.value.skillBreakdown[CategoryKey(c)] == Mean(CategoryScores(s.questions, c)))
                && (forall key :: key in r.value.skillBreakdown ==> key in CategoryKeys)
    {
      if sessionId !in sessions {
        return Err("Failed to get interview status");
      }
      var session := sessions[sessionId];
      var scores := AnsweredScores(session.questions);
      var answersByCategory := GroupByCategory(session.questions);
      var metrics := CalculatePerformanceMetrics(session.currentQuestionNumber, scores, session.currentDifficulty,
                                                 session.startTime, nowMs, answersByCategory);
      var performanceTrend := PerformanceTrendOf(scores);
      assert metrics.lastScores == LastN(scores, 3);
      r := Ok(StatusView(sessionId, session.status, session.currentQuestionNumber, session.currentDifficulty,
                         session.startTime, metrics.timeElapsed, metrics.totalQuestionsAsked,
                         RoundScore(metrics.averageScore), metrics.lastScores, performanceTrend, metrics.skillBreakdown));
    }

    /** `getFinalReport`: read-only; fails until the session has its report. */
    method GetFinalReport(sessionId: nat) returns (r: Result<FinalReportView>)
      ensures r.Err? <==> sessionId !in sessions || sessions[sessionId].report.None?
      ensures r.Err? ==> r.message == "Failed to get final report"
      ensures r.Ok? ==>
                var s := sessions[sessionId];
                r.value == FinalReportView(sessionId, s.report.value, s.status, s.startTime, s.endTime, s.totalDuration)
    {
      if sessionId !in sessions {
        return Err("Failed to get final report");
      }
      var session := sessions[sessionId];
      if session.report.None? {
        return Err("Failed to get final report");
      }
      r := Ok(FinalReportView(sessionId, session.report.value, session.status, session.startTime,
                              session.endTime, session.totalDuration));
    }
  }

  /**
   * The report of an ended session: one entry per question asked (answered or not)
   * in the question count and the average time, the recommendation band of the
   * overall score, and a confidence in [40, 85].
   */
  lemma ReportForShape(qs: seq<Question>, totalDuration: int)
    requires |qs| > 0
    ensures var r := ReportFor(qs, totalDuration);
            && r.questionCount == |qs|
            && r.averageTimePerQuestion == Round(totalDuration as real / |qs| as real)
            && r.recommendation == Band(r.overallScore)
            && r.performanceTrend == PerformanceTrendOf(AnsweredScores(qs))
            && r.recommendationConfidence == Confidence(r.overallScore, r.performanceTrend, SkillValues(r.skills))
            && 40 <= r.recommendationConfidence <= 85
  {
    var r := ReportFor(qs, totalDuration);
    ConfidenceRange(r.overallScore, r.performanceTrend, SkillValues(r.skills));
  }

  /**
   * `endInterview` always marks the session Completed, never Terminated, keeps its
   * questions, question number and difficulty, records the end time and the
   * whole-second duration, and replaces the stored reason only when one is given.
   */
  lemma EndedShape(s: Session, reason: Option<string>, nowMs: int)
    requires |s.questions| > 0
    ensures var e := Ended(s, reason, nowMs);
            && e.status == Completed && e.report == Some(ReportFor(s.questions, DurationSeconds(s.startTime, nowMs)))
            && e.questions == s.questions && e.currentQuestionNumber == s.currentQuestionNumber
            && e.currentDifficulty == s.currentDifficulty && e.startTime == s.startTime
            && e.endTime == Some(nowMs) && e.totalDuration == Some(DurationSeconds(s.startTime, nowMs))
            && e.earlyTerminationReason == if reason.Some? then reason else s.earlyTerminationReason
  {
  }

}
