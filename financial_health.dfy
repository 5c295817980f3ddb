/** The financial-health view (src/components/FinancialHealth.tsx): the
    80 / 60 / 40 label bands, the three colour bands, the per-metric colour
    helpers and the weighted breakdown of the index. */
module FinancialHealth {
  import opened Types
  import DemoData

  // ---------------------------------------------------------------------
  // Index bands
  // ---------------------------------------------------------------------

  /** `getHealthLabel` */
  function HealthLabel(score: int): (r: string)
    ensures r == "Excellent" <==> score >= 80
    ensures r == "Good" <==> 60 <= score < 80
    ensures r == "Fair" <==> 40 <= score < 60
    ensures r == "Needs Improvement" <==> score < 40
  {
    if score >= 80 then "Excellent"
    else if score >= 60 then "Good"
    else if score >= 40 then "Fair"
    else "Needs Improvement"
  }

  /** `getHealthColor` */
  function HealthColor(score: int): (c: string)
    ensures c == "text-green-600" <==> score >= 80
    ensures c == "text-yellow-600" <==> 60 <= score < 80
    ensures c == "text-red-600" <==> score < 60
  {
    if score >= 80 then "text-green-600"
    else if score >= 60 then "text-yellow-600"
    else "text-red-600"
  }

  /** `getHealthBgColor` */
  function HealthBgColor(score: int): (c: string)
    ensures c == "bg-green-600" <==> score >= 80
    ensures c == "bg-yellow-600" <==> 60 <= score < 80
    ensures c == "bg-red-600" <==> score < 60
  {
    if score >= 80 then "bg-green-600"
    else if score >= 60 then "bg-yellow-600"
    else "bg-red-600"
  }

  /** The text and the bar colour always agree, and every label band lies
      inside one colour band: scores with the same label get the same
      colours. */
  lemma LabelBandsRefineColourBands(a: int, b: int)
    ensures HealthColor(a) == HealthColor(b) <==> HealthBgColor(a) == HealthBgColor(b)
    ensures HealthLabel(a) == HealthLabel(b) ==> HealthColor(a) == HealthColor(b)
  {
  }

  /** There are only three colour bands for four labels: Fair and Needs
      Improvement are both drawn in red. */
  lemma FairAndNeedsImprovementShareRed(fair: int, poor: int)
    requires HealthLabel(fair) == "Fair" && HealthLabel(poor) == "Needs Improvement"
    ensures HealthColor(fair) == HealthColor(poor) == "text-red-600"
    ensures HealthBgColor(fair) == HealthBgColor(poor) == "bg-red-600"
  {
  }

  /** `HealthMetric`'s own `getScoreColor`. */
  function MetricScoreColor(s: int): (c: string)
    ensures c == "text-green-600" <==> s >= 80
    ensures c == "text-yellow-600" <==> 60 <= s < 80
    ensures c == "text-red-600" <==> s < 60
  {
    if s >= 80 then "text-green-600"
    else if s >= 60 then "text-yellow-600"
    else "text-red-600"
  }

  /** `HealthMetric`'s `getBarColor`. */
  function MetricBarColor(s: int): (c: string)
    ensures c == "bg-green-600" <==> s >= 80
    ensures c == "bg-yellow-600" <==> 60 <= s < 80
    ensures c == "bg-red-600" <==> s < 60
  {
    if s >= 80 then "bg-green-600"
    else if s >= 60 then "bg-yellow-600"
    else "bg-red-600"
  }

  /** The metric cards colour a score exactly as the index card does. */
  lemma MetricColoursAgreeWithIndex(s: int)
    ensures MetricScoreColor(s) == HealthColor(s)
    ensures MetricBarColor(s) == HealthBgColor(s)
  {
  }

  /** The demo index 72 is Good and drawn in yellow. */
  lemma DemoIndexIsGood()
    ensures HealthLabel(DemoData.DemoFinancialHealth.healthIndex) == "Good"
    ensures HealthColor(DemoData.DemoFinancialHealth.healthIndex) == "text-yellow-600"
  {
  }

  // ---------------------------------------------------------------------
  // Weighted breakdown
  // ---------------------------------------------------------------------

  /** `BreakdownItem`'s `contribution`: `(score * weight) / 100`. */
  function Contribution(score: int, weight: int): (c: real)
    ensures 0 <= score <= 100 && weight >= 0 ==> 0.0 <= c <= weight as real
  {
    ProductWithinWeight(score, weight);
    (score * weight) as real / 100.0
  }

  lemma ProductWithinWeight(score: int, weight: int)
    ensures 0 <= score <= 100 && weight >= 0 ==> 0 <= score * weight <= 100 * weight
  {
    if 0 <= score <= 100 && weight >= 0 {
      assert (100 - score) * weight >= 0;
    }
  }

  /** A score of 0 contributes nothing, a score of 100 contributes the full
      weight, and with a non-negative weight a higher score never
      contributes less. */
  lemma ContributionScale(score: int, higher: int, weight: int)
    ensures Contribution(0, weight) == 0.0
    ensures Contribution(100, weight) == weight as real
    ensures weight >= 0 && score <= higher ==> Contribution(score, weight) <= Contribution(higher, weight)
  {
    if weight >= 0 && score <= higher {
      assert score * weight <= higher * weight by {
        assert (higher - score) * weight >= 0;
      }
    }
  }

  /** One row of the breakdown card. */
  datatype BreakdownRow = BreakdownRow(title: string, score: int, weight: int)

  /** The four rows the card shows, with their weights 25, 25, 30 and 20. */
  function Breakdown(h: HealthReport): (rows: seq<BreakdownRow>)
    ensures |rows| == 4
    ensures rows[0].score == h.incomeStability && rows[0].weight == 25
    ensures rows[1].score == h.expenseRatio && rows[1].weight == 25
    ensures rows[2].score == h.savingsRate && rows[2].weight == 30
    ensures rows[3].score == h.debtRatio && rows[3].weight == 20
  {
    [ BreakdownRow("Income Stability", h.incomeStability, 25),
      BreakdownRow("Expense Management", h.expenseRatio, 25),
      BreakdownRow("Savings Discipline", h.savingsRate, 30),
      BreakdownRow("Debt Management", h.debtRatio, 20) ]
  }

  function WeightSum(rows: seq<BreakdownRow>): int {
    if rows == [] then 0 else WeightSum(rows[..|rows| - 1]) + rows[|rows| - 1].weight
  }

  /** The sum of the contributions of all rows. */
  function WeightedTotal(rows: seq<BreakdownRow>): (total: real)
    ensures (forall k :: 0 <= k < |rows| ==> rows[k].score == 100) ==> total == WeightSum(rows) as real
  {
    if rows == [] then 0.0
    else WeightedTotal(rows[..|rows| - 1]) + Contribution(rows[|rows| - 1].score, rows[|rows| - 1].weight)
  }

  /** With non-negative weights and scores in 0..100, the contributions add
      up to between 0 and the sum of the weights. */
  lemma {:induction false} WeightedTotalIsBounded(rows: seq<BreakdownRow>)
    requires forall k :: 0 <= k < |rows| ==> 0 <= rows[k].score <= 100 && rows[k].weight >= 0
    ensures 0.0 <= WeightedTotal(rows) <= WeightSum(rows) as real
  {
    if rows != [] {
      var last := rows[|rows| - 1];
      WeightedTotalIsBounded(rows[..|rows| - 1]);
      ContributionScale(0, last.score, last.weight);
      ContributionScale(last.score, 100, last.weight);
    }
  }

  /** The breakdown's weights add up to 100, so its contributions add up to
      at most 100 whenever every score is at most 100. */
  lemma BreakdownIsOutOfHundred(h: HealthReport)
    ensures WeightSum(Breakdown(h)) == 100
    ensures (forall k :: 0 <= k < 4 ==> 0 <= Breakdown(h)[k].score <= 100) ==>
      0.0 <= WeightedTotal(Breakdown(h)) <= 100.0
  {
    var rows := Breakdown(h);
    assert WeightSum(rows[..1]) == 25 by { assert rows[..1][..0] == []; }
    assert WeightSum(rows[..2]) == 50 by { assert rows[..2][..1] == rows[..1]; }
    assert WeightSum(rows[..3]) == 80 by { assert rows[..3][..2] == rows[..2]; }
    assert rows[..4][..3] == rows[..3] && rows[..4] == rows;
    if forall k :: 0 <= k < 4 ==> 0 <= rows[k].score <= 100 {
      WeightedTotalIsBounded(rows);
    }
  }

  /** For the demo report the weighted breakdown comes to 73.15, not the
      index 72 the card shows; the index is a stored value, not this sum. */
  lemma DemoBreakdownTotal()
    ensures WeightedTotal(Breakdown(DemoData.DemoFinancialHealth)) == 73.15
  {
    var rows := Breakdown(DemoData.DemoFinancialHealth);
    assert WeightedTotal(rows[..1]) == 21.25 by { assert rows[..1][..0] == []; }
    assert WeightedTotal(rows[..2]) == 38.25 by { assert rows[..2][..1] == rows[..1]; }
    assert WeightedTotal(rows[..3]) == 60.75 by { assert rows[..3][..2] == rows[..2]; }
    assert rows[..4][..3] == rows[..3] && rows[..4] == rows;
  }
}
