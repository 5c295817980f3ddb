/** Shapes of the records the dashboard works on (src/types/index.ts), the
    closed string enums they use, and the icon glyphs the views select. */
module Types {

  datatype Option<+T> = None | Some(value: T)

  /** `Transaction.type` */
  datatype TxKind = Income | Expense {
    function Name(): string {
      match this
      case Income => "income"
      case Expense => "expense"
    }
  }

  /** `CreditFactor.impact` */
  datatype Impact = Positive | Negative | Neutral {
    function Name(): string {
      match this
      case Positive => "positive"
      case Negative => "negative"
      case Neutral => "neutral"
    }
  }

  /** `FraudAlert.risk_level` */
  datatype RiskLevel = Low | Medium | High {
    function Name(): string {
      match this
      case Low => "low"
      case Medium => "medium"
      case High => "high"
    }
  }

  /** `FraudAlert.status` */
  datatype AlertStatus = Pending | Reviewed | Resolved | FalsePositive {
    function Name(): string {
      match this
      case Pending => "pending"
      case Reviewed => "reviewed"
      case Resolved => "resolved"
      case FalsePositive => "false_positive"
    }
  }

  /** `QuizQuestion.difficulty` */
  datatype Difficulty = Easy | Moderate | Hard {
    function Name(): string {
      match this
      case Easy => "easy"
      case Moderate => "medium"
      case Hard => "hard"
    }
  }

  /** A transaction without its identifiers and dates, which the views never compute with. */
  datatype Transaction = Transaction(kind: TxKind, category: string, amount: int, description: string)

  datatype SavingsGoal = SavingsGoal(goalName: string, targetAmount: int, currentAmount: int)

  datatype CreditFactor = CreditFactor(name: string, impact: Impact, weight: int, description: string)

  datatype CreditReport = CreditReport(score: int, factors: seq<CreditFactor>)

  datatype HealthReport = HealthReport(
    healthIndex: int, incomeStability: int, expenseRatio: int, savingsRate: int, debtRatio: int)

  datatype FraudAlert = FraudAlert(
    riskLevel: RiskLevel, alertType: string, description: string, aiConfidence: real, status: AlertStatus)

  datatype QuizQuestion = QuizQuestion(
    question: string, options: seq<string>, correctAnswer: int, category: string,
    difficulty: Difficulty, points: int)

  datatype Badge = Badge(name: string, description: string, icon: string, requirement: string)

  /** The icon components of the icon library that the helpers choose between. */
  datatype Glyph =
    | AlertTriangle | ShieldGlyph | CheckCircle | XCircle | Clock
    | TrendingUp | TrendingDown | Minus | Trophy | Award | Star | Target

  /** An icon element: which glyph, drawn in which text colour class. */
  datatype IconView = IconView(glyph: Glyph, colour: string)

  /** The wire names of each enum are pairwise distinct, so a helper over
      strings can tell every enum member apart. */
  lemma NamesAreDistinct()
    ensures forall a: TxKind, b: TxKind :: a.Name() == b.Name() ==> a == b
    ensures forall a: Impact, b: Impact :: a.Name() == b.Name() ==> a == b
    ensures forall a: RiskLevel, b: RiskLevel :: a.Name() == b.Name() ==> a == b
    ensures forall a: AlertStatus, b: AlertStatus :: a.Name() == b.Name() ==> a == b
    ensures forall a: Difficulty, b: Difficulty :: a.Name() == b.Name() ==> a == b
  {
  }
}
