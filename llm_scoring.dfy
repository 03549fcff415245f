/**
 * The deterministic arithmetic of the language-model service: time limits, time
 * efficiency, time penalty, rubric weighting, and the shapes of a generated
 * question and of an evaluation. The model's replies are inputs.
 */
module LlmScoring {
  import opened Basics
  import opened Text
  import opened InterviewTypes

  /** `getTimeLimit`: seconds allowed per difficulty (Easy 120, Medium 180, Hard 240). */
  function GetTimeLimit(d: Difficulty): (t: int)
    ensures t == 120 + 60 * Level(d)
  {
    match d
    case Easy => 120
    case Medium => 180
    case Hard => 240
  }

  /** `calculateTimeEfficiency`: full marks on time, then a linear decrease to 0 at twice the limit. */
  function TimeEfficiency(timeTaken: real, timeLimit: int): (r: real)
    requires timeLimit > 0
    ensures 0.0 <= r <= 100.0
    ensures timeTaken <= timeLimit as real ==> r == 100.0
    ensures timeTaken > timeLimit as real ==>
              r == Max(0.0, 100.0 - Min(100.0, (timeTaken - timeLimit as real) / timeLimit as real * 100.0))
  {
    if timeTaken <= timeLimit as real then 100.0
    else
      var overtime := timeTaken - timeLimit as real;
      var penalty := Min(100.0, overtime / timeLimit as real * 100.0);
      Max(0.0, 100.0 - penalty)
  }

  /** Answering later never earns a better efficiency score. */
  lemma TimeEfficiencyNonIncreasing(t1: real, t2: real, timeLimit: int)
    requires timeLimit > 0 && t1 <= t2
    ensures TimeEfficiency(t2, timeLimit) <= TimeEfficiency(t1, timeLimit)
  {
    var l := timeLimit as real;
    if t1 > l {
      assert (t2 - l) / l - (t1 - l) / l == (t2 - t1) / l;
      assert (t2 - t1) / l >= 0.0;
      assert (t1 - l) / l * 100.0 <= (t2 - l) / l * 100.0;
    }
  }

  /** 140 s against a 120 s limit: 20 s over is 1/6 of the limit, so the score is 83.33... */
  lemma TimeEfficiencyExample()
    ensures TimeEfficiency(140.0, 120) == 250.0 / 3.0
    ensures TimeEfficiency(90.0, 120) == 100.0
  {
    assert (140.0 - 120.0) / 120.0 * 100.0 == 50.0 / 3.0;
  }

  /**
   * `calculateTimePenalty`: nothing on time, otherwise 5 points for every full
   * 10 seconds over, at most 20. The engine's private copy has the same body.
   */
  function TimePenalty(timeTaken: real, timeLimit: int): (r: int)
    ensures -20 <= r <= 0
    ensures timeTaken <= timeLimit as real ==> r == 0
    ensures timeTaken > timeLimit as real ==>
              r == -5 * IntMin(4, ((timeTaken - timeLimit as real) / 10.0).Floor)
  {
    if timeTaken <= timeLimit as real then 0
    else
      var overtime := timeTaken - timeLimit as real;
      var penaltyIntervals := (overtime / 10.0).Floor;
      var penalty := penaltyIntervals * 5;
      IntMax(-20, IntMin(0, -penalty))
  }

  lemma TimePenaltyNonIncreasing(t1: real, t2: real, timeLimit: int)
    requires t1 <= t2
    ensures TimePenalty(t2, timeLimit) <= TimePenalty(t1, timeLimit)
  {
    var l := timeLimit as real;
    if t1 > l {
      assert (t1 - l) / 10.0 <= (t2 - l) / 10.0;
      assert ((t1 - l) / 10.0).Floor <= ((t2 - l) / 10.0).Floor;
    }
  }

  /** 140 s against 120 s: two full intervals, -10. */
  lemma TimePenaltyExample()
    ensures TimePenalty(140.0, 120) == -10
    ensures TimePenalty(90.0, 120) == 0
    ensures TimePenalty(1000.0, 120) == -20
  {
    assert (20.0 / 10.0).Floor == 2;
    assert (880.0 / 10.0).Floor == 88;
  }

  /** The four numbers and texts the evaluator model is asked to return. */
  datatype Rubric = Rubric(accuracy: real, clarity: real, depth: real, relevance: real,
                           feedback: string, strengths: seq<string>, improvements: seq<string>)

  /** What came back from the evaluator: nothing (the call threw), text that is not JSON, or a rubric. */
  datatype EvaluatorReply = CallFailed | Unparseable | Parsed(rubric: Rubric)

  /** The neutral rubric substituted when the reply does not parse. */
  const DefaultRubric: Rubric :=
    Rubric(50.0, 50.0, 50.0, 50.0, "Could not parse evaluation. Please try again.", [], [])

  datatype Breakdown = Breakdown(accuracy: real, clarity: real, depth: real, relevance: real, timeEfficiency: real)

  datatype Evaluation = Evaluation(overallScore: real, breakdown: Breakdown, timePenalty: int,
                                   feedback: string, strengths: seq<string>, improvements: seq<string>)

  /** The rubric weighting 0.30 / 0.20 / 0.25 / 0.15 / 0.10. */
  function WeightedScore(b: Breakdown): (r: real)
    ensures (&& 0.0 <= b.accuracy <= 100.0 && 0.0 <= b.clarity <= 100.0 && 0.0 <= b.depth <= 100.0
             && 0.0 <= b.relevance <= 100.0 && 0.0 <= b.timeEfficiency <= 100.0)
            ==> 0.0 <= r <= 100.0
  {
    b.accuracy * 0.30 + b.clarity * 0.20 + b.depth * 0.25 + b.relevance * 0.15 + b.timeEfficiency * 0.10
  }

  /** The weights sum to 1: a weighted score lies between the bounds of its parts and preserves a common value. */
  lemma WeightedScoreIsAverage(b: Breakdown, lo: real, hi: real)
    requires lo <= b.accuracy <= hi && lo <= b.clarity <= hi && lo <= b.depth <= hi
    requires lo <= b.relevance <= hi && lo <= b.timeEfficiency <= hi
    ensures lo <= WeightedScore(b) <= hi
    ensures lo == hi ==> WeightedScore(b) == lo
  {
  }

  /** The score arithmetic of `evaluateAnswer`, with the evaluator's reply as input. */
  function EvaluateAnswer(reply: EvaluatorReply, timeTaken: real, timeLimit: int): (r: Result<Evaluation>)
    requires timeLimit > 0
    ensures r.Err? <==> reply.CallFailed?
    ensures r.Err? ==> r.message == "Failed to evaluate answer"
    ensures r.Ok? ==> 0.0 <= r.value.overallScore <= 100.0
    ensures r.Ok? ==> r.value.breakdown.timeEfficiency == TimeEfficiency(timeTaken, timeLimit)
    ensures r.Ok? ==> r.value.timePenalty == TimePenalty(timeTaken, timeLimit)
    ensures r.Ok? ==> r.value.overallScore == Clamp(WeightedScore(r.value.breakdown) + r.value.timePenalty as real, 0.0, 100.0)
    ensures r.Ok? ==> r.value.overallScore <= Clamp(WeightedScore(r.value.breakdown), 0.0, 100.0)
    ensures r.Ok? ==>
              var rubric := if reply.Parsed? then reply.rubric else DefaultRubric;
              && r.value.breakdown.accuracy == rubric.accuracy && r.value.breakdown.clarity == rubric.clarity
              && r.value.breakdown.depth == rubric.depth && r.value.breakdown.relevance == rubric.relevance
              && r.value.feedback == rubric.feedback && r.value.strengths == rubric.strengths
              && r.value.improvements == rubric.improvements
  {
    match reply
    case CallFailed => Err("Failed to evaluate answer")
    case Unparseable => Ok(Score(DefaultRubric, timeTaken, timeLimit))
    case Parsed(evaluation) => Ok(Score(evaluation, timeTaken, timeLimit))
  }

  /** Weighting, penalty and clamp applied to a rubric (lines 201-230 of the service). */
  function Score(evaluation: Rubric, timeTaken: real, timeLimit: int): Evaluation
    requires timeLimit > 0
  {
    var timeEfficiencyScore := TimeEfficiency(timeTaken, timeLimit);
    var breakdown := Breakdown(evaluation.accuracy, evaluation.clarity, evaluation.depth,
                               evaluation.relevance, timeEfficiencyScore);
    var overallScore := WeightedScore(breakdown);
    var timePenalty := TimePenalty(timeTaken, timeLimit);
    var finalScore := Clamp(overallScore + timePenalty as real, 0.0, 100.0);
    Evaluation(finalScore, breakdown, timePenalty, evaluation.feedback,
               evaluation.strengths, evaluation.improvements)
  }

  /** An unparseable reply to an answer given in time scores 0.9 * 50 + 0.1 * 100 = 55. */
  lemma UnparseableOnTimeScores55(timeTaken: real, timeLimit: int)
    requires timeLimit > 0 && timeTaken <= timeLimit as real
    ensures EvaluateAnswer(Unparseable, timeTaken, timeLimit).Ok?
    ensures EvaluateAnswer(Unparseable, timeTaken, timeLimit).value.overallScore == 55.0
  {
  }

  /** A generated question as `generateQuestion` returns it (the store fills in the ids). */
  datatype GeneratedQuestion = GeneratedQuestion(text: string, category: Category, difficulty: Difficulty, timeLimit: int)

  /**
   * The result shape of `generateQuestion`: `completion` is the model's message
   * content, `None` when it is missing or the call threw.
   */
  function GenerateQuestion(completion: Option<string>, category: Category, difficulty: Difficulty): (r: Result<GeneratedQuestion>)
    ensures r.Ok? <==> completion.Some? && !IsBlank(completion.value)
    ensures r.Err? ==> r.message == "Failed to generate question"
    ensures r.Ok? ==> r.value.text == Trim(completion.value) && r.value.text != []
    ensures r.Ok? ==> r.value.category == category && r.value.difficulty == difficulty
    ensures r.Ok? ==> r.value.timeLimit == GetTimeLimit(difficulty)
  {
    if completion.None? then Err("Failed to generate question")
    else
      var questionText := Trim(completion.value);
      TrimEmptyIffBlank(completion.value);
      if questionText == [] then Err("Failed to generate question")
      else Ok(GeneratedQuestion(questionText, category, difficulty, GetTimeLimit(difficulty)))
  }
}
