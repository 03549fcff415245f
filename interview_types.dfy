/** The enumerations and constant tables the interview core is configured with. */
module InterviewTypes {

  /** The three ordered difficulty levels. */
  datatype Difficulty = Easy | Medium | Hard

  /** The four question categories, in their declared order. */
  datatype Category = Technical | Conceptual | Behavioral | Scenario

  datatype SessionStatus = NotStarted | InProgress | Completed | Terminated

  datatype PerformanceTrend = Improving | Declining | Stable

  datatype Recommendation = Ready | NeedsPractice | NotReady

  datatype TerminationKind = LowAverageScore | ConsecutiveLowScores | MaxTimeExceeded | UserRequested

  /** Position of a level in `['Easy', 'Medium', 'Hard']`. */
  function Level(d: Difficulty): (n: nat)
    ensures n <= 2
  {
    match d
    case Easy => 0
    case Medium => 1
    case Hard => 2
  }

  function LevelToDifficulty(n: nat): (d: Difficulty)
    requires n <= 2
    ensures Level(d) == n
  {
    if n == 0 then Easy else if n == 1 then Medium else Hard
  }

  /** Categories in declaration order, the order ties are broken in. */
  const Categories: seq<Category> := [Technical, Conceptual, Behavioral, Scenario]

  function CategoryIndex(c: Category): (n: nat)
    ensures n < 4 && Categories[n] == c
  {
    match c
    case Technical => 0
    case Conceptual => 1
    case Behavioral => 2
    case Scenario => 3
  }

  /** `CATEGORY_WEIGHTS`: the target share of each category. */
  function CategoryWeight(c: Category): real
  {
    match c
    case Technical => 0.40
    case Conceptual => 0.25
    case Behavioral => 0.20
    case Scenario => 0.15
  }

  /** The weights are a distribution. */
  lemma WeightsSumToOne()
    ensures CategoryWeight(Technical) + CategoryWeight(Conceptual)
            + CategoryWeight(Behavioral) + CategoryWeight(Scenario) == 1.0
  {
  }

  /** The key under which a category appears in a live skill breakdown (`category.toLowerCase()`). */
  function CategoryKey(c: Category): (k: string)
    ensures k in CategoryKeys
  {
    match c
    case Technical => "technical"
    case Conceptual => "conceptual"
    case Behavioral => "behavioral"
    case Scenario => "scenario"
  }

  /** The four keys. */
  const CategoryKeys: set<string> := {"technical", "conceptual", "behavioral", "scenario"}

  /** Distinct categories have distinct keys (their first letters already differ). */
  lemma CategoryKeyInjective()
    ensures forall c, d :: CategoryKey(c) == CategoryKey(d) ==> c == d
  {
    forall c, d | CategoryKey(c) == CategoryKey(d) ensures c == d {
      assert CategoryKey(c)[0] == CategoryKey(d)[0];
    }
  }

  /** Question-count bounds, `getQuestionBounds()`. */
  const MinQuestions: int := 8
  const MaxQuestions: int := 12

  /** 45 minutes, in seconds. */
  const MaxInterviewSeconds: int := 45 * 60
}
