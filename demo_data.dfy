/** The sample tables every view runs over (src/lib/demoData.ts), without
    their dates and identifiers, and the well-formedness facts the views
    rely on. */
module DemoData {
  import opened Types

  const DemoTransactions: seq<Transaction> := [
    Transaction(Income, "Salary", 3500, "Monthly salary"),
    Transaction(Income, "Freelance", 800, "Side project payment"),
    Transaction(Expense, "Rent", 1200, "Monthly rent"),
    Transaction(Expense, "Groceries", 350, "Supermarket shopping"),
    Transaction(Expense, "Transportation", 120, "Public transit pass"),
    Transaction(Expense, "Utilities", 150, "Electricity and water"),
    Transaction(Expense, "Healthcare", 80, "Doctor visit"),
    Transaction(Income, "Investment", 200, "Dividend payment"),
    Transaction(Expense, "Entertainment", 60, "Movie tickets"),
    Transaction(Expense, "Education", 150, "Online course")
  ]

  const DemoSavingsGoals: seq<SavingsGoal> := [
    SavingsGoal("Emergency Fund", 5000, 2800),
    SavingsGoal("Home Down Payment", 20000, 8500),
    SavingsGoal("Vacation", 2000, 1200)
  ]

  const DemoCreditScore: CreditReport := CreditReport(720, [
    CreditFactor("Payment History", Positive, 35, "Consistent on-time payments with no defaults"),
    CreditFactor("Credit Utilization", Positive, 30, "Low credit utilization at 25%"),
    CreditFactor("Length of Credit History", Neutral, 15, "Moderate credit history of 4 years"),
    CreditFactor("Alternative Data: Utility Bills", Positive, 10, "Regular utility payments recorded"),
    CreditFactor("Alternative Data: Mobile Payments", Positive, 5, "Active digital wallet usage shows financial engagement"),
    CreditFactor("Alternative Data: Rental Payments", Positive, 5, "Consistent rental payment history")
  ])

  const DemoFinancialHealth: HealthReport := HealthReport(72, 85, 68, 75, 62)

  const DemoFraudAlerts: seq<FraudAlert> := [
    FraudAlert(Low, "Unusual Location", "Transaction detected from a new location 200km away", 0.45, Reviewed),
    FraudAlert(Medium, "Unusual Amount", "Transaction amount 3x higher than your average spending", 0.68, Pending)
  ]

  const QuizQuestions: seq<QuizQuestion> := [
    QuizQuestion("What is the recommended emergency fund size?",
      ["1 month of expenses", "3-6 months of expenses", "1 year of expenses", "No emergency fund needed"],
      1, "Savings", Easy, 10),
    QuizQuestion("What does APR stand for?",
      ["Annual Payment Rate", "Annual Percentage Rate", "Average Payment Ratio", "Annual Principal Rate"],
      1, "Credit", Easy, 10),
    QuizQuestion("Which factor has the biggest impact on your credit score?",
      ["Credit utilization", "Payment history", "Length of credit history", "New credit inquiries"],
      1, "Credit", Moderate, 15),
    QuizQuestion("What is compound interest?",
      ["Interest calculated only on the principal", "Interest calculated on principal and accumulated interest",
       "A type of bank fee", "Interest paid monthly"],
      1, "Investment", Moderate, 15),
    QuizQuestion("What is the 50/30/20 budgeting rule?",
      ["50% savings, 30% needs, 20% wants", "50% needs, 30% wants, 20% savings",
       "50% wants, 30% savings, 20% needs", "50% needs, 30% savings, 20% wants"],
      1, "Budgeting", Moderate, 15),
    QuizQuestion("What is diversification in investing?",
      ["Investing all money in one stock", "Spreading investments across different assets",
       "Only investing in bonds", "Keeping all money in savings"],
      1, "Investment", Hard, 20)
  ]

  const Badges: seq<Badge> := [
    Badge("First Steps", "Completed your first financial literacy quiz", "award", "1 quiz completed"),
    Badge("Quiz Master", "Answered 10 quiz questions correctly", "trophy", "10 correct answers"),
    Badge("Savings Star", "Created your first savings goal", "star", "1 savings goal"),
    Badge("Budget Pro", "Tracked expenses for 30 days", "target", "30 days of tracking"),
    Badge("Credit Guardian", "Checked your credit score", "shield", "View credit score"),
    Badge("Fraud Detective", "Reviewed a fraud alert", "search", "1 alert reviewed")
  ]

  /** A question the quiz can show: its answer key names one of its options
      and answering it right earns something. */
  predicate WellFormedQuestion(q: QuizQuestion) {
    0 <= q.correctAnswer < |q.options| && q.points > 0
  }

  /** Every demo transaction moves a positive amount. */
  lemma TransactionAmountsArePositive()
    ensures |DemoTransactions| == 10
    ensures forall k :: 0 <= k < |DemoTransactions| ==> DemoTransactions[k].amount > 0
  {
  }

  /** Every savings goal has a positive target, so its progress is defined. */
  lemma GoalTargetsArePositive()
    ensures |DemoSavingsGoals| == 3
    ensures forall k :: 0 <= k < |DemoSavingsGoals| ==> DemoSavingsGoals[k].targetAmount > 0
  {
  }

  /** Every quiz question is well formed; there are six, each with four
      options and option 1 as its answer. */
  lemma QuizQuestionsAreWellFormed()
    ensures |QuizQuestions| == 6
    ensures forall k :: 0 <= k < |QuizQuestions| ==>
      WellFormedQuestion(QuizQuestions[k]) && |QuizQuestions[k].options| == 4
  {
  }

  /** Every fraud alert's model confidence is a probability. */
  lemma ConfidencesAreProbabilities()
    ensures forall k :: 0 <= k < |DemoFraudAlerts| ==> 0.0 <= DemoFraudAlerts[k].aiConfidence <= 1.0
  {
  }

  lemma ThereAreSixBadges()
    ensures |Badges| == 6
  {
  }
}
