/**
 * The adaptive interview rules: the difficulty state machine, the category
 * allocator, the early-termination checks and question-count bounds, live
 * metrics, performance trend, recommendation, and strengths/weaknesses.
 */
module InterviewEngine {
  import opened Basics
  import opened Text
  import opened InterviewTypes
  import LlmScoring

  // ---------------------------------------------------------------- difficulty

  /**
   * `determineNextDifficulty`. In the warm-up (question number below 3) the level
   * can only drop, and only on a score below 50. Afterwards a score of at least 75
   * raises it and a score below 50 lowers it, one level at a time, within Easy..Hard.
   */
  function NextDifficulty(current: Difficulty, answerScore: real, questionNumber: int): (r: Difficulty)
    ensures Level(current) - 1 <= Level(r) <= Level(current) + 1
    ensures Level(r) < Level(current) <==> answerScore < 50.0 && current != Easy
    ensures Level(r) > Level(current) <==> questionNumber >= 3 && answerScore >= 75.0 && current != Hard
    ensures questionNumber < 3 ==> Level(r) <= Level(current)
    ensures 50.0 <= answerScore < 75.0 ==> r == current
  {
    var currentIndex := Level(current);
    if questionNumber < 3 then
      if answerScore < 50.0 && currentIndex > 0 then LevelToDifficulty(currentIndex - 1) else current
    else if answerScore >= 75.0 then
      if currentIndex < 2 then LevelToDifficulty(currentIndex + 1) else current
    else if answerScore < 50.0 then
      if currentIndex > 0 then LevelToDifficulty(currentIndex - 1) else current
    else current
  }

  lemma NextDifficultyExamples()
    ensures NextDifficulty(Medium, 80.0, 5) == Hard
    ensures NextDifficulty(Medium, 30.0, 1) == Easy
    ensures NextDifficulty(Medium, 80.0, 1) == Medium
    ensures NextDifficulty(Hard, 90.0, 10) == Hard
    ensures NextDifficulty(Easy, 10.0, 10) == Easy
  {
  }

  // ---------------------------------------------------------------- categories

  /** `askedCategories.filter(c => c === cat).length`. */
  function Count(asked: seq<Category>, c: Category): (n: nat)
    ensures n <= |asked|
  {
    if asked == [] then 0
    else Count(asked[..|asked| - 1], c) + (if asked[|asked| - 1] == c then 1 else 0)
  }

  /** Expected count minus actual count of a category before question `questionNumber`. */
  function Deviation(asked: seq<Category>, questionNumber: int, c: Category): real
  {
    questionNumber as real * CategoryWeight(c) - Count(asked, c) as real
  }

  /**
   * What element 0 of the deviations sorted descending by a stable sort is: a
   * category of largest deviation, with every category declared before it
   * strictly smaller.
   */
  predicate IsChosenCategory(asked: seq<Category>, questionNumber: int, c: Category)
  {
    && (forall d: Category :: Deviation(asked, questionNumber, d) <= Deviation(asked, questionNumber, c))
    && (forall d: Category :: CategoryIndex(d) < CategoryIndex(c) ==>
          Deviation(asked, questionNumber, d) < Deviation(asked, questionNumber, c))
  }

  /** `determineQuestionCategory`: the most under-represented category, ties to the earlier one. */
  method DetermineQuestionCategory(asked: seq<Category>, questionNumber: int) returns (c: Category)
    ensures IsChosenCategory(asked, questionNumber, c)
  {
    // the count accumulator, one entry per category
    var categoryCounts: map<Category, nat> := map[];
    for k := 0 to 4
      invariant forall j :: 0 <= j < k ==> Categories[j] in categoryCounts
      invariant forall d :: d in categoryCounts ==> categoryCounts[d] == Count(asked, d)
    {
      var cat := Categories[k];
      categoryCounts := categoryCounts[cat := Count(asked, cat)];
    }
    // deviations in declaration order
    var deviations: seq<real> := [];
    for k := 0 to 4
      invariant |deviations| == k
      invariant forall j :: 0 <= j < k ==> deviations[j] == Deviation(asked, questionNumber, Categories[j])
    {
      var cat := Categories[k];
      var deviation := questionNumber as real * CategoryWeight(cat) - categoryCounts[cat] as real;
      assert deviation == Deviation(asked, questionNumber, cat);
      deviations := deviations + [deviation];
    }
    // the first element of a stable descending sort: the first maximum
    var best := 0;
    for k := 1 to 4
      invariant 0 <= best < k
      invariant forall j :: 0 <= j < k ==> deviations[j] <= deviations[best]
      invariant forall j :: 0 <= j < best ==> deviations[j] < deviations[best]
    {
      if deviations[k] > deviations[best] {
        best := k;
      }
    }
    c := Categories[best];
    forall d: Category
      ensures Deviation(asked, questionNumber, d) <= Deviation(asked, questionNumber, c)
      ensures CategoryIndex(d) < CategoryIndex(c) ==>
                Deviation(asked, questionNumber, d) < Deviation(asked, questionNumber, c)
    {
      assert Categories[CategoryIndex(d)] == d;
      assert CategoryIndex(c) == best;
    }
  }

  /** The choice is deterministic: at most one category satisfies the rule. */
  lemma ChosenCategoryUnique(asked: seq<Category>, questionNumber: int, c1: Category, c2: Category)
    requires IsChosenCategory(asked, questionNumber, c1) && IsChosenCategory(asked, questionNumber, c2)
    ensures c1 == c2
  {
    var d1, d2 := Deviation(asked, questionNumber, c1), Deviation(asked, questionNumber, c2);
    assert d2 <= d1 && d1 <= d2;
    assert CategoryIndex(c1) == CategoryIndex(c2);
    assert Categories[CategoryIndex(c1)] == c1 && Categories[CategoryIndex(c2)] == c2;
  }

  /** With no history, question 1 is Technical, the category of largest weight. */
  lemma FirstQuestionIsTechnical(c: Category)
    ensures IsChosenCategory([], 1, c) <==> c == Technical
  {
    assert IsChosenCategory([], 1, Technical);
    if IsChosenCategory([], 1, c) {
      ChosenCategoryUnique([], 1, c, Technical);
    }
  }

  /** The four counts add up to the length of the history. */
  lemma {:induction false} CountsSum(asked: seq<Category>)
    ensures Count(asked, Technical) + Count(asked, Conceptual) + Count(asked, Behavioral) + Count(asked, Scenario) == |asked|
  {
    if asked != [] {
      CountsSum(asked[..|asked| - 1]);
    }
  }

  /**
   * When the history holds one entry per earlier question, the chosen category is
   * genuinely under-represented: its deviation is positive (the deviations sum to 1).
   */
  lemma ChosenDeviationPositive(asked: seq<Category>, questionNumber: int, c: Category)
    requires |asked| == questionNumber - 1
    requires IsChosenCategory(asked, questionNumber, c)
    ensures Deviation(asked, questionNumber, c) > 0.0
  {
    CountsSum(asked);
    var total := Deviation(asked, questionNumber, Technical) + Deviation(asked, questionNumber, Conceptual)
               + Deviation(asked, questionNumber, Behavioral) + Deviation(asked, questionNumber, Scenario);
    assert total == questionNumber as real - |asked| as real;
    assert total == 1.0;
  }

  // ---------------------------------------------------------------- termination

  datatype TerminationCondition = TerminationCondition(
    shouldTerminate: bool, reason: Option<string>, checkType: Option<TerminationKind>)

  /** `(currentTime - startTime) / 1000`, times in milliseconds. */
  function ElapsedSeconds(startMs: int, nowMs: int): (r: real)
    ensures r * 1000.0 == (nowMs - startMs) as real
    ensures r >= 0.0 <==> nowMs >= startMs
  {
    (nowMs - startMs) as real / 1000.0
  }

  predicate LowAverage(scores: seq<real>)
  {
    |scores| >= 4 && Mean(scores) < 35.0
  }

  predicate LastThreeBelow40(scores: seq<real>)
  {
    |scores| >= 3 && forall i :: |scores| - 3 <= i < |scores| ==> scores[i] < 40.0
  }

  /**
   * `checkTerminationConditions`: the first of four conditions that holds decides,
   * in the order explicit request, time over 45 minutes, low average after four
   * answers, three low answers in a row.
   */
  function CheckTermination(scores: seq<real>, startMs: int, nowMs: int, explicitRequest: bool): (r: TerminationCondition)
    ensures r.shouldTerminate <==> r.checkType.Some?
    ensures r.shouldTerminate <==> r.reason.Some?
    ensures r.checkType == Some(UserRequested) <==> explicitRequest
    ensures r.checkType == Some(MaxTimeExceeded) <==>
              !explicitRequest && ElapsedSeconds(startMs, nowMs) > MaxInterviewSeconds as real
    ensures r.checkType == Some(LowAverageScore) <==>
              !explicitRequest && ElapsedSeconds(startMs, nowMs) <= MaxInterviewSeconds as real && LowAverage(scores)
    ensures r.checkType == Some(ConsecutiveLowScores) <==>
              !explicitRequest && ElapsedSeconds(startMs, nowMs) <= MaxInterviewSeconds as real
              && !LowAverage(scores) && LastThreeBelow40(scores)
  {
    if explicitRequest then
      TerminationCondition(true, Some("Candidate requested termination"), Some(UserRequested))
    else
      var questionCount := |scores|;
      var timeElapsed := ElapsedSeconds(startMs, nowMs);
      if timeElapsed > MaxInterviewSeconds as real then
        TerminationCondition(true, Some("Maximum interview time (45 minutes) exceeded"), Some(MaxTimeExceeded))
      else if questionCount >= 4 && Mean(scores) < 35.0 then
        TerminationCondition(true, Some("Average score (" + FixedOne(Mean(scores)) + ") falls below 35% threshold"),
                             Some(LowAverageScore))
      else if questionCount >= 3 && (forall i :: questionCount - 3 <= i < questionCount ==> scores[i] < 40.0) then
        TerminationCondition(true, Some("Three consecutive answers scored below 40%"), Some(ConsecutiveLowScores))
      else
        TerminationCondition(false, None, None)
  }

  lemma TerminationExamples(startMs: int, nowMs: int)
    requires nowMs - startMs <= 2700000
    ensures CheckTermination([20.0, 25.0, 30.0, 15.0], startMs, nowMs, false).checkType == Some(LowAverageScore)
    ensures CheckTermination([60.0, 30.0, 35.0, 38.0], startMs, nowMs, false).checkType == Some(ConsecutiveLowScores)
    ensures !CheckTermination([60.0, 30.0, 35.0, 40.0], startMs, nowMs, false).shouldTerminate
  {
    var a := [20.0, 25.0, 30.0, 15.0];
    assert Sum(a) == 90.0 by {
      assert a[1..] == [25.0, 30.0, 15.0];
      assert a[1..][1..] == [30.0, 15.0];
      assert a[1..][1..][1..] == [15.0];
    }
    var b := [60.0, 30.0, 35.0, 38.0];
    assert Sum(b) == 163.0 by {
      assert b[1..] == [30.0, 35.0, 38.0];
      assert b[1..][1..] == [35.0, 38.0];
      assert b[1..][1..][1..] == [38.0];
    }
    var c := [60.0, 30.0, 35.0, 40.0];
    assert Sum(c) == 165.0 by {
      assert c[1..] == [30.0, 35.0, 40.0];
      assert c[1..][1..] == [35.0, 40.0];
      assert c[1..][1..][1..] == [40.0];
    }
  }

  /** `getQuestionBounds`. */
  datatype QuestionBounds = QuestionBounds(min: int, max: int)

  function GetQuestionBounds(): (b: QuestionBounds)
    ensures b.min == 8 && b.max == 12
  {
    QuestionBounds(MinQuestions, MaxQuestions)
  }

  /**
   * `shouldContinueInterview`: always continue below 8 questions, always stop from
   * 12 on, and in between continue exactly when no termination condition holds.
   */
  function ShouldContinueInterview(currentQuestionNumber: int, scores: seq<real>, startMs: int, nowMs: int): (r: bool)
    ensures currentQuestionNumber < MinQuestions ==> r
    ensures currentQuestionNumber >= MaxQuestions ==> !r
    ensures MinQuestions <= currentQuestionNumber < MaxQuestions ==>
              (r <==> !CheckTermination(scores, startMs, nowMs, false).shouldTerminate)
  {
    var bounds := GetQuestionBounds();
    if currentQuestionNumber < bounds.min then true
    else if currentQuestionNumber >= bounds.max then false
    else !CheckTermination(scores, startMs, nowMs, false).shouldTerminate
  }

  // ---------------------------------------------------------------- live metrics

  /** `answersByCategory`: the scores of answered questions, one list per category. */
  datatype ByCategory = ByCategory(technical: seq<real>, conceptual: seq<real>, behavioral: seq<real>, scenario: seq<real>)
  {
    function Get(c: Category): seq<real>
    {
      match c
      case Technical => technical
      case Conceptual => conceptual
      case Behavioral => behavioral
      case Scenario => scenario
    }
  }

  datatype PerformanceMetrics = PerformanceMetrics(
    currentQuestionNumber: int, totalQuestionsAsked: nat, averageScore: real, currentDifficulty: Difficulty,
    timeElapsed: real, lastScores: seq<real>, skillBreakdown: map<string, real>)

  /** `calculatePerformanceMetrics`. */
  method CalculatePerformanceMetrics(currentQuestionNumber: int, scores: seq<real>, currentDifficulty: Difficulty,
                                     startMs: int, nowMs: int, answersByCategory: ByCategory)
    returns (m: PerformanceMetrics)
    ensures m.currentQuestionNumber == currentQuestionNumber && m.currentDifficulty == currentDifficulty
    ensures m.totalQuestionsAsked == |scores|
    ensures m.averageScore == if |scores| > 0 then Mean(scores) else 0.0
    ensures m.timeElapsed == ElapsedSeconds(startMs, nowMs)
    ensures |m.lastScores| == IntMin(3, |scores|)
    ensures forall i :: 0 <= i < |m.lastScores| ==> m.lastScores[i] == scores[|scores| - |m.lastScores| + i]
    ensures forall c: Category :: CategoryKey(c) in m.skillBreakdown <==> |answersByCategory.Get(c)| > 0
    ensures forall c: Category :: CategoryKey(c) in m.skillBreakdown ==>
              m.skillBreakdown[CategoryKey(c)] == Mean(answersByCategory.Get(c))
    ensures forall key :: key in m.skillBreakdown ==> key in CategoryKeys
  {
    CategoryKeyInjective();
    var timeElapsed := ElapsedSeconds(startMs, nowMs);
    var averageScore := if |scores| > 0 then Mean(scores) else 0.0;
    var skillBreakdown: map<string, real> := map[];
    for k := 0 to 4
      invariant forall c: Category :: CategoryKey(c) in skillBreakdown <==> CategoryIndex(c) < k && |answersByCategory.Get(c)| > 0
      invariant forall c: Category :: CategoryKey(c) in skillBreakdown ==>
                  skillBreakdown[CategoryKey(c)] == Mean(answersByCategory.Get(c))
      invariant forall key :: key in skillBreakdown ==> key in CategoryKeys
    {
      var category := Categories[k];
      var categoryScores := answersByCategory.Get(category);
      if |categoryScores| > 0 {
        skillBreakdown := skillBreakdown[CategoryKey(category) := Mean(categoryScores)];
      }
    }
    m := PerformanceMetrics(currentQuestionNumber, |scores|, averageScore, currentDifficulty,
                            timeElapsed, LastN(scores, 3), skillBreakdown);
  }

  // ---------------------------------------------------------------- trend

  /**
   * `calculatePerformanceTrend`: compare the mean of the second half with the mean
   * of the first half; the first half is the first floor(n/2) scores.
   */
  function PerformanceTrendOf(scores: seq<real>): (r: PerformanceTrend)
    ensures |scores| < 3 ==> r == Stable
  {
    if |scores| < 3 then Stable
    else
      var half := |scores| / 2;
      var difference := Mean(scores[half..]) - Mean(scores[..half]);
      if difference > 10.0 then Improving
      else if difference < -10.0 then Declining
      else Stable
  }

  /** For three or more scores the trend is decided by the half means; a difference of exactly 10 is Stable. */
  lemma TrendByHalves(scores: seq<real>)
    requires |scores| >= 3
    ensures var h := |scores| / 2;
            var d := Mean(scores[h..]) - Mean(scores[..h]);
            && |scores[h..]| >= |scores[..h]| >= 1
            && (|scores| % 2 == 1 ==> |scores[h..]| == |scores[..h]| + 1)
            && (PerformanceTrendOf(scores) == Improving <==> d > 10.0)
            && (PerformanceTrendOf(scores) == Declining <==> d < -10.0)
            && (PerformanceTrendOf(scores) == Stable <==> -10.0 <= d <= 10.0)
  {
  }

  /** Equal scores give a Stable trend. */
  lemma TrendOfConstant(scores: seq<real>, x: real)
    requires forall i :: 0 <= i < |scores| ==> scores[i] == x
    ensures PerformanceTrendOf(scores) == Stable
  {
    if |scores| >= 3 {
      var h := |scores| / 2;
      MeanConstant(scores[h..], x);
      MeanConstant(scores[..h], x);
    }
  }

  /** The trend does not change when every score moves by the same amount. */
  lemma TrendShiftInvariant(scores: seq<real>, shifted: seq<real>, d: real)
    requires |scores| == |shifted|
    requires forall i :: 0 <= i < |scores| ==> shifted[i] == scores[i] + d
    ensures PerformanceTrendOf(shifted) == PerformanceTrendOf(scores)
  {
    if |scores| >= 3 {
      var h := |scores| / 2;
      MeanShift(scores[h..], shifted[h..], d);
      MeanShift(scores[..h], shifted[..h], d);
    }
  }

  // ---------------------------------------------------------------- recommendation

  /** The recommendation band of an overall score. */
  function Band(overallScore: real): (r: Recommendation)
    ensures r == Ready <==> overallScore >= 75.0
    ensures r == NeedsPractice <==> 50.0 <= overallScore < 75.0
    ensures r == NotReady <==> overallScore < 50.0
  {
    if overallScore >= 75.0 then Ready else if overallScore >= 50.0 then NeedsPractice else NotReady
  }

  function BandCap(r: Recommendation): int
  {
    match r
    case Ready => 95
    case NeedsPractice => 90
    case NotReady => 85
  }

  function TrendAdjustment(t: PerformanceTrend): int
  {
    match t
    case Improving => 10
    case Declining => -10
    case Stable => 0
  }

  function Abs(x: real): real
  {
    if x < 0.0 then -x else x
  }

  /**
   * The confidence `calculateRecommendation` reports: 75 adjusted by the trend and
   * capped by band, then lowered by 15 for a skill spread over 30 and by 10 for a
   * skill mean more than 15 away from the overall score, clamped to [40, 95].
   */
  function Confidence(overallScore: real, trend: PerformanceTrend, skillScores: seq<real>): (r: int)
    ensures 40 <= r <= 95
  {
    var capped := IntMin(BandCap(Band(overallScore)), 75 + TrendAdjustment(trend));
    var spreadPenalty := if |skillScores| > 0 && MaxOf(skillScores) - MinOf(skillScores) > 30.0 then 15 else 0;
    var offsetPenalty := if |skillScores| > 0 && Abs(Mean(skillScores) - overallScore) > 15.0 then 10 else 0;
    IntMax(40, IntMin(95, capped - spreadPenalty - offsetPenalty))
  }

  /** `calculateRecommendation`, updating `confidence` step by step as the source does. */
  method CalculateRecommendation(overallScore: real, trend: PerformanceTrend, skillScores: seq<real>)
    returns (recommendation: Recommendation, confidence: int)
    ensures recommendation == Band(overallScore)
    ensures confidence == Confidence(overallScore, trend, skillScores)
    ensures 40 <= confidence <= 85
  {
    confidence := 75;
    if trend == Improving {
      confidence := confidence + 10;
    } else if trend == Declining {
      confidence := confidence - 10;
    }
    if overallScore >= 75.0 {
      recommendation := Ready;
      confidence := IntMin(95, confidence);
    } else if overallScore >= 50.0 {
      recommendation := NeedsPractice;
      confidence := IntMin(90, confidence);
    } else {
      recommendation := NotReady;
      confidence := IntMin(85, confidence);
    }
    if |skillScores| > 0 {
      var avgSkillScore := Mean(skillScores);
      var scoreVariance := MaxOf(skillScores) - MinOf(skillScores);
      if scoreVariance > 30.0 {
        confidence := confidence - 15;
      }
      if Abs(avgSkillScore - overallScore) > 15.0 {
        confidence := confidence - 10;
      }
    }
    confidence := IntMax(40, IntMin(95, confidence));
    ConfidenceRange(overallScore, trend, skillScores);
  }

  /**
   * The band caps and the final clamp never bind: the base is at most 85 and the
   * three adjustments take at most 35 off, so the confidence is the base minus the
   * penalties and lies in [40, 85].
   */
  lemma ConfidenceRange(overallScore: real, trend: PerformanceTrend, skillScores: seq<real>)
    ensures 40 <= Confidence(overallScore, trend, skillScores) <= 85
    ensures Confidence(overallScore, trend, skillScores) <= BandCap(Band(overallScore))
    ensures Confidence(overallScore, trend, skillScores) ==
              75 + TrendAdjustment(trend)
              - (if |skillScores| > 0 && MaxOf(skillScores) - MinOf(skillScores) > 30.0 then 15 else 0)
              - (if |skillScores| > 0 && Abs(Mean(skillScores) - overallScore) > 15.0 then 10 else 0)
  {
  }

  /** Skills all equal to the overall score, with a Stable trend, give exactly the base confidence 75. */
  lemma UniformSkillsConfidence(overallScore: real, skillScores: seq<real>)
    requires |skillScores| > 0
    requires forall i :: 0 <= i < |skillScores| ==> skillScores[i] == overallScore
    ensures Confidence(overallScore, Stable, skillScores) == 75
  {
    MeanConstant(skillScores, overallScore);
  }

  // ---------------------------------------------------------------- strengths and weaknesses

  datatype SkillScore = SkillScore(skill: string, score: real)

  datatype FeedbackItem = FeedbackItem(skill: string, score: real, feedback: string)

  datatype Weakness = Weakness(skill: string, feedback: string, improvement: string)

  datatype StrengthsAndWeaknesses = StrengthsAndWeaknesses(strengths: seq<string>, weaknesses: seq<Weakness>)

  predicate SortedDesc(l: seq<SkillScore>)
  {
    forall i, j :: 0 <= i < j < |l| ==> l[i].score >= l[j].score
  }

  /** The entries of `l` whose score is `v`, in order. */
  function WithScore(l: seq<SkillScore>, v: real): seq<SkillScore>
  {
    if l == [] then [] else (if l[0].score == v then [l[0]] else []) + WithScore(l[1..], v)
  }

  /** Insert `x` before the first entry it is not below, so that it stays ahead of equal scores. */
  function Insert(x: SkillScore, l: seq<SkillScore>): (r: seq<SkillScore>)
    ensures |r| == |l| + 1
  {
    if l == [] || x.score >= l[0].score then [x] + l else [l[0]] + Insert(x, l[1..])
  }

  /** The stable descending sort `sort((a, b) => b.score - a.score)`. */
  function SortByScoreDesc(s: seq<SkillScore>): (r: seq<SkillScore>)
    ensures |r| == |s|
  {
    if s == [] then [] else Insert(s[0], SortByScoreDesc(s[1..]))
  }

  lemma {:induction false} InsertPermutes(x: SkillScore, l: seq<SkillScore>)
    ensures multiset(Insert(x, l)) == multiset(l) + multiset{x}
  {
    if l != [] && x.score < l[0].score {
      InsertPermutes(x, l[1..]);
      assert l == [l[0]] + l[1..];
    }
  }

  lemma {:induction false} InsertSorted(x: SkillScore, l: seq<SkillScore>)
    requires SortedDesc(l)
    ensures SortedDesc(Insert(x, l))
  {
    if l != [] && x.score < l[0].score {
      var rest := Insert(x, l[1..]);
      InsertSorted(x, l[1..]);
      InsertPermutes(x, l[1..]);
      forall i | 0 <= i < |rest| ensures l[0].score >= rest[i].score {
        assert rest[i] in multiset(l[1..]) + multiset{x};
        if rest[i] != x {
          var k :| 0 <= k < |l[1..]| && l[1..][k] == rest[i];
          assert l[k + 1] == rest[i];
        }
      }
    }
  }

  lemma {:induction false} WithScoreAppend(a: seq<SkillScore>, b: seq<SkillScore>, v: real)
    ensures WithScore(a + b, v) == WithScore(a, v) + WithScore(b, v)
  {
    if a != [] {
      assert (a + b)[1..] == a[1..] + b;
      WithScoreAppend(a[1..], b, v);
    } else {
      assert a + b == b;
    }
  }

  /** Selecting from a sequence with a known first entry. */
  lemma WithScoreCons(a: SkillScore, l: seq<SkillScore>, v: real)
    ensures WithScore([a] + l, v) == (if a.score == v then [a] else []) + WithScore(l, v)
  {
    assert ([a] + l)[1..] == l;
  }

  lemma {:induction false} InsertStable(x: SkillScore, l: seq<SkillScore>, v: real)
    ensures WithScore(Insert(x, l), v) == WithScore([x] + l, v)
  {
    if l != [] && x.score < l[0].score {
      var rest := Insert(x, l[1..]);
      InsertStable(x, l[1..], v);
      WithScoreCons(l[0], rest, v);
      WithScoreCons(x, l[1..], v);
      WithScoreCons(x, l, v);
      WithScoreCons(l[0], l[1..], v);
      assert [l[0]] + l[1..] == l;
      if x.score == v {
        assert WithScore(l, v) == WithScore(l[1..], v);
      } else if l[0].score == v {
        assert WithScore(rest, v) == WithScore(l[1..], v);
      }
    }
  }

  /**
   * The sort is correct and stable: its output is ordered by descending score, is a
   * permutation of the input, and keeps entries of equal score in input order.
   */
  lemma {:induction false} SortByScoreDescCorrect(s: seq<SkillScore>)
    ensures SortedDesc(SortByScoreDesc(s))
    ensures multiset(SortByScoreDesc(s)) == multiset(s)
    ensures forall v :: WithScore(SortByScoreDesc(s), v) == WithScore(s, v)
  {
    if s != [] {
      SortByScoreDescCorrect(s[1..]);
      InsertSorted(s[0], SortByScoreDesc(s[1..]));
      InsertPermutes(s[0], SortByScoreDesc(s[1..]));
      assert s == [s[0]] + s[1..];
      forall v ensures WithScore(SortByScoreDesc(s), v) == WithScore(s, v) {
        InsertStable(s[0], SortByScoreDesc(s[1..]), v);
        WithScoreAppend([s[0]], SortByScoreDesc(s[1..]), v);
        WithScoreAppend([s[0]], s[1..], v);
      }
    }
  }

  /** The index of the first feedback item whose skill matches case-insensitively. */
  function FirstFeedbackMatch(items: seq<FeedbackItem>, skill: string): (r: Option<nat>)
    ensures r.Some? ==> r.value < |items| && ToLower(items[r.value].skill) == ToLower(skill)
    ensures r.Some? ==> forall j :: 0 <= j < r.value ==> ToLower(items[j].skill) != ToLower(skill)
    ensures r.None? ==> forall j :: 0 <= j < |items| ==> ToLower(items[j].skill) != ToLower(skill)
  {
    if items == [] then None
    else if ToLower(items[0].skill) == ToLower(skill) then Some(0)
    else match FirstFeedbackMatch(items[1..], skill)
      case None => None
      case Some(i) => Some(i + 1)
  }

  /** The feedback given to a weak skill that no item describes. */
  function GenericWeakness(skill: string): string
  {
    "Performance in " + skill + " needs improvement"
  }

  /**
   * `feedbackItem?.feedback || ...`: the feedback of the first item naming the
   * skill (ignoring case) when it is not empty, and the generic text when no
   * item names it or the first one that does has empty feedback.
   */
  function WeaknessFor(skill: string, items: seq<FeedbackItem>): (w: Weakness)
    ensures w.skill == skill
    ensures w.improvement == "Focus on improving " + skill + " skills through practice and learning"
    ensures forall i :: 0 <= i < |items| && ToLower(items[i].skill) == ToLower(skill)
                        && (forall j :: 0 <= j < i ==> ToLower(items[j].skill) != ToLower(skill)) ==>
              w.feedback == if items[i].feedback != "" then items[i].feedback else GenericWeakness(skill)
    ensures (forall i :: 0 <= i < |items| ==> ToLower(items[i].skill) != ToLower(skill)) ==>
              w.feedback == GenericWeakness(skill)
  {
    var feedbackItem := FirstFeedbackMatch(items, skill);
    Weakness(skill,
             if feedbackItem.Some? && items[feedbackItem.value].feedback != "" then items[feedbackItem.value].feedback
             else GenericWeakness(skill),
             "Focus on improving " + skill + " skills through practice and learning")
  }

  /**
   * `calculateStrengthsAndWeaknesses`: strengths are the names of the top three
   * skills, best first; weaknesses are the bottom three, worst first.
   */
  function CalculateStrengthsAndWeaknesses(skills: seq<SkillScore>, feedbackItems: seq<FeedbackItem>): (r: StrengthsAndWeaknesses)
    ensures |r.strengths| == IntMin(3, |skills|) && |r.weaknesses| == IntMin(3, |skills|)
  {
    var sortedSkills := SortByScoreDesc(skills);
    var k := IntMin(3, |skills|);
    var n := |skills|;
    StrengthsAndWeaknesses(
      seq(k, i requires 0 <= i < k => sortedSkills[i].skill),
      seq(k, i requires 0 <= i < k => WeaknessFor(sortedSkills[n - 1 - i].skill, feedbackItems)))
  }

  /**
   * The strengths name min(3, n) skills in descending score order, each scoring at
   * least as well as every skill left out; the weaknesses name min(3, n) skills in
   * ascending score order, each scoring no better than every skill left out.
   */
  lemma StrengthsAndWeaknessesSpec(skills: seq<SkillScore>, feedbackItems: seq<FeedbackItem>)
    ensures var r := CalculateStrengthsAndWeaknesses(skills, feedbackItems);
            var sorted := SortByScoreDesc(skills);
            var n := |skills|;
            && |r.strengths| == IntMin(3, n) && |r.weaknesses| == IntMin(3, n)
            && multiset(sorted) == multiset(skills)
            && (forall i :: 0 <= i < |r.strengths| ==> r.strengths[i] == sorted[i].skill)
            && (forall i, j :: 0 <= i < |r.strengths| && i < j < n ==> sorted[i].score >= sorted[j].score)
            && (forall i :: 0 <= i < |r.weaknesses| ==>
                  r.weaknesses[i] == WeaknessFor(sorted[n - 1 - i].skill, feedbackItems))
            && (forall j, k :: n - |r.weaknesses| <= k < n && 0 <= j < k ==>
                  sorted[j].score >= sorted[k].score)
  {
    var r := CalculateStrengthsAndWeaknesses(skills, feedbackItems);
    var sorted := SortByScoreDesc(skills);
    SortByScoreDescOrdered(skills);
    SortedEnds(sorted, IntMin(3, |skills|));
  }

  /** The order and permutation halves of `SortByScoreDescCorrect`. */
  lemma SortByScoreDescOrdered(s: seq<SkillScore>)
    ensures SortedDesc(SortByScoreDesc(s)) && multiset(SortByScoreDesc(s)) == multiset(s)
  {
    SortByScoreDescCorrect(s);
  }

  /** In a descending list the first `k` entries dominate the rest and the last `k` are dominated by the rest. */
  lemma SortedEnds(sorted: seq<SkillScore>, k: nat)
    requires SortedDesc(sorted) && k <= |sorted|
    ensures forall i, j :: 0 <= i < k && i < j < |sorted| ==> sorted[i].score >= sorted[j].score
    ensures forall j, m :: |sorted| - k <= m < |sorted| && 0 <= j < m ==> sorted[j].score >= sorted[m].score
  {
  }

  // ---------------------------------------------------------------- answer time and score helpers

  datatype TimeValidation = TimeValidation(isValid: bool, penalty: int, shouldAutoSubmit: bool)

  /**
   * `validateAnswerTime`: every submission is valid; the penalty is the time penalty
   * (the engine's private copy of `calculateTimePenalty` has the same body as the
   * scoring one), and a submission at 150% of the limit or later is auto-submitted.
   */
  function ValidateAnswerTime(timeTaken: real, timeLimit: int): (v: TimeValidation)
    ensures v.isValid
    ensures v.penalty == LlmScoring.TimePenalty(timeTaken, timeLimit)
    ensures v.shouldAutoSubmit <==> timeTaken >= timeLimit as real * 1.5
  {
    var maxTime := timeLimit as real * 1.5;
    TimeValidation(true, LlmScoring.TimePenalty(timeTaken, timeLimit), timeTaken >= maxTime)
  }

  /**
   * With the limits in use (at least 120 s), an answer late enough to be
   * auto-submitted is at least 60 s over and already carries the full -20 penalty.
   */
  lemma AutoSubmitCarriesFullPenalty(timeTaken: real, timeLimit: int)
    requires timeLimit >= 80
    requires ValidateAnswerTime(timeTaken, timeLimit).shouldAutoSubmit
    ensures ValidateAnswerTime(timeTaken, timeLimit).penalty == -20
  {
    var overtime := timeTaken - timeLimit as real;
    assert overtime >= 40.0;
    assert (overtime / 10.0).Floor >= 4;
  }

  /** `question.category || 'Technical'`: a question without a category counts as Technical. */
  function GetCategoryFromQuestion(category: Option<Category>): (c: Category)
    ensures category.Some? ==> c == category.value
    ensures category.None? ==> c == Technical
  {
    if category.Some? then category.value else Technical
  }

  /** `normalizeScore`: the score clamped into [0, 100]. */
  function NormalizeScore(score: real): (r: real)
    ensures 0.0 <= r <= 100.0
    ensures 0.0 <= score <= 100.0 ==> r == score
    ensures score < 0.0 ==> r == 0.0
    ensures score > 100.0 ==> r == 100.0
  {
    Max(0.0, Min(100.0, score))
  }

  lemma NormalizeScoreIdempotent(score: real)
    ensures NormalizeScore(NormalizeScore(score)) == NormalizeScore(score)
  {
  }

  /**
   * `roundScore(score)` with its default of one decimal, the only form the core
   * calls: `Math.round(score * 10) / 10`.
   */
  function RoundScore(score: real): real
  {
    Round(score * 10.0) as real / 10.0
  }

  /** The rounded score is a whole number of tenths within half a tenth of the input. */
  lemma RoundScoreNearest(score: real)
    ensures (RoundScore(score) * 10.0).Floor as real == RoundScore(score) * 10.0
    ensures score - 1.0 / 20.0 < RoundScore(score) <= score + 1.0 / 20.0
  {
    var n := Round(score * 10.0);
    assert RoundScore(score) * 10.0 == n as real;
    assert n as real - 1.0 / 2.0 <= score * 10.0 < n as real + 1.0 / 2.0;
  }

  /** Rounding an already rounded score changes nothing. */
  lemma RoundScoreIdempotent(score: real)
    ensures RoundScore(RoundScore(score)) == RoundScore(score)
  {
    var n := Round(score * 10.0);
    assert RoundScore(score) * 10.0 == n as real;
    assert Round(n as real) == n;
  }

  /** Rounding to one decimal keeps a normalised score in [0, 100]. */
  lemma RoundScoreKeepsRange(score: real)
    requires 0.0 <= score <= 100.0
    ensures 0.0 <= RoundScore(score) <= 100.0
  {
    var n := Round(score * 10.0);
    assert 0 <= n <= 1000;
  }

  lemma RoundScoreExamples()
    ensures RoundScore(83.34) == 83.3
    ensures RoundScore(83.35) == 83.4
    ensures RoundScore(72.0) == 72.0
  {
    assert Round(833.4) == 833;
    assert Round(833.5) == 834;
    assert Round(720.0) == 720;
  }
}
