/** The credit-score view (src/components/CreditScore.tsx): the score bands
    740 / 670 / 580 behind the label and both colours, the marker on the
    300..850 scale, and the three-way impact split of the score factors. */
module CreditScore {
  import opened Types
  import DemoData

  // ---------------------------------------------------------------------
  // Score bands
  // ---------------------------------------------------------------------

  /** The band a score falls in, counted as the number of thresholds it
      reaches: 0 Poor, 1 Fair, 2 Good, 3 Excellent. */
  function Band(score: int): (b: nat)
    ensures b <= 3
  {
    (if score >= 580 then 1 else 0) + (if score >= 670 then 1 else 0) + (if score >= 740 then 1 else 0)
  }

  const Labels: seq<string> := ["Poor", "Fair", "Good", "Excellent"]
  const TextColours: seq<string> := ["text-red-600", "text-yellow-600", "text-blue-600", "text-green-600"]
  const Gradients: seq<string> :=
    ["from-red-500 to-red-700", "from-yellow-500 to-yellow-700", "from-blue-500 to-blue-700", "from-green-500 to-green-700"]

  /** `getScoreLabel` */
  function ScoreLabel(score: int): (r: string)
    ensures r == "Excellent" <==> score >= 740
    ensures r == "Good" <==> 670 <= score < 740
    ensures r == "Fair" <==> 580 <= score < 670
    ensures r == "Poor" <==> score < 580
  {
    if score >= 740 then "Excellent"
    else if score >= 670 then "Good"
    else if score >= 580 then "Fair"
    else "Poor"
  }

  /** `getScoreColor` */
  function ScoreColor(score: int): (c: string)
    ensures c == "text-green-600" <==> score >= 740
    ensures c == "text-blue-600" <==> 670 <= score < 740
    ensures c == "text-yellow-600" <==> 580 <= score < 670
    ensures c == "text-red-600" <==> score < 580
  {
    if score >= 740 then "text-green-600"
    else if score >= 670 then "text-blue-600"
    else if score >= 580 then "text-yellow-600"
    else "text-red-600"
  }

  /** `getScoreBgColor` */
  function ScoreBgColor(score: int): (c: string)
    ensures c == "from-green-500 to-green-700" <==> score >= 740
    ensures c == "from-blue-500 to-blue-700" <==> 670 <= score < 740
    ensures c == "from-yellow-500 to-yellow-700" <==> 580 <= score < 670
    ensures c == "from-red-500 to-red-700" <==> score < 580
  {
    if score >= 740 then "from-green-500 to-green-700"
    else if score >= 670 then "from-blue-500 to-blue-700"
    else if score >= 580 then "from-yellow-500 to-yellow-700"
    else "from-red-500 to-red-700"
  }

  /** All three helpers are the band table read at the score's band. */
  lemma HelpersReadTheBand(score: int)
    ensures ScoreLabel(score) == Labels[Band(score)]
    ensures ScoreColor(score) == TextColours[Band(score)]
    ensures ScoreBgColor(score) == Gradients[Band(score)]
  {
  }

  /** Two scores get the same colour, the same gradient and the same label
      exactly when they are in the same band. */
  lemma ColourBandIsLabelBand(a: int, b: int)
    ensures ScoreLabel(a) == ScoreLabel(b) <==> Band(a) == Band(b)
    ensures ScoreColor(a) == ScoreColor(b) <==> Band(a) == Band(b)
    ensures ScoreBgColor(a) == ScoreBgColor(b) <==> Band(a) == Band(b)
  {
    HelpersReadTheBand(a);
    HelpersReadTheBand(b);
  }

  /** The position of a label in the order Poor < Fair < Good < Excellent. */
  function LabelRank(name: string): (rank: nat)
    ensures name in Labels ==> rank < |Labels| && Labels[rank] == name
  {
    if name == "Excellent" then 3
    else if name == "Good" then 2
    else if name == "Fair" then 1
    else 0
  }

  /** A higher score never gets a lower label. */
  lemma LabelIsMonotone(a: int, b: int)
    requires a <= b
    ensures LabelRank(ScoreLabel(a)) <= LabelRank(ScoreLabel(b))
    ensures LabelRank(ScoreLabel(a)) == Band(a)
  {
  }

  /** The demo report's score, 720, is labelled Good and drawn in blue. */
  lemma DemoScoreIsGood()
    ensures ScoreLabel(DemoData.DemoCreditScore.score) == "Good"
    ensures ScoreColor(DemoData.DemoCreditScore.score) == "text-blue-600"
  {
  }

  // ---------------------------------------------------------------------
  // Score marker
  // ---------------------------------------------------------------------

  /** The marker's `left` offset, in percent: `((score - 300) / 550) * 100`. */
  function MarkerPosition(score: int): (p: real)
    ensures score >= 300 ==> p >= 0.0
    ensures score <= 850 ==> p <= 100.0
  {
    ((score - 300) as real / 550.0) * 100.0
  }

  /** The marker sits at the left end for 300, at the right end for 850,
      inside the bar for every score in between, and moves right as the
      score grows. */
  lemma MarkerSpansTheBar(score: int, other: int)
    ensures MarkerPosition(300) == 0.0 && MarkerPosition(850) == 100.0
    ensures 300 <= score <= 850 ==> 0.0 <= MarkerPosition(score) <= 100.0
    ensures score < other <==> MarkerPosition(score) < MarkerPosition(other)
  {
    MarkerIsAffine(score);
    MarkerIsAffine(other);
  }

  lemma MarkerIsAffine(score: int)
    ensures MarkerPosition(score) == (score - 300) as real * 100.0 / 550.0
  {
  }

  /** The four coloured segments of the bar. */
  datatype Segment = RedSegment | YellowSegment | BlueSegment | GreenSegment

  /** The segment each label's colour names. */
  function LabelSegment(name: string): Segment {
    if name == "Excellent" then GreenSegment
    else if name == "Good" then BlueSegment
    else if name == "Fair" then YellowSegment
    else RedSegment
  }

  /** The bar as drawn: four `w-1/4` segments, red, yellow, blue, green. */
  function QuarterSegmentAt(position: real): Segment {
    if position < 25.0 then RedSegment
    else if position < 50.0 then YellowSegment
    else if position < 75.0 then BlueSegment
    else GreenSegment
  }

  /** The equal quarters do not follow the bands: the demo score 720 is Good
      (blue) but its marker, at about 76.4 %, is over the green segment. */
  lemma QuarterSegmentsMisplaceTheDemoScore()
    ensures var s := DemoData.DemoCreditScore.score;
      QuarterSegmentAt(MarkerPosition(s)) == GreenSegment &&
      LabelSegment(ScoreLabel(s)) == BlueSegment
  {
    assert MarkerPosition(720) == 42000.0 / 550.0;
  }

  /** The quarters also put Poor scores on blue: from 575 to 579 the marker is
      at 50 % or more, past the yellow quarter. */
  lemma QuarterSegmentsPutPoorScoresOnBlue(score: int)
    requires 575 <= score < 580
    ensures QuarterSegmentAt(MarkerPosition(score)) == BlueSegment
    ensures LabelSegment(ScoreLabel(score)) == RedSegment
  {
    MarkerSpansTheBar(575, score);
    assert MarkerPosition(575) == 50.0;
    MarkerSpansTheBar(score, 580);
  }

  /** A bar whose segment boundaries are the markers of the thresholds
      580, 670 and 740. */
  function BandSegmentAt(position: real): Segment {
    if position < MarkerPosition(580) then RedSegment
    else if position < MarkerPosition(670) then YellowSegment
    else if position < MarkerPosition(740) then BlueSegment
    else GreenSegment
  }

  /** With band boundaries, the segment under the marker is always the one
      the label's colour names. */
  lemma BandSegmentsMatchTheLabel(score: int)
    ensures BandSegmentAt(MarkerPosition(score)) == LabelSegment(ScoreLabel(score))
  {
    MarkerSpansTheBar(score, 580);
    MarkerSpansTheBar(score, 670);
    MarkerSpansTheBar(score, 740);
  }

  // ---------------------------------------------------------------------
  // Score factors
  // ---------------------------------------------------------------------

  /** `getImpactIcon` */
  function ImpactIcon(impact: string): (icon: IconView)
    ensures icon.glyph == TrendingUp <==> impact == "positive"
    ensures icon.glyph == TrendingDown <==> impact == "negative"
    ensures icon.glyph == Minus <==> impact != "positive" && impact != "negative"
  {
    if impact == "positive" then IconView(TrendingUp, "text-green-600")
    else if impact == "negative" then IconView(TrendingDown, "text-red-600")
    else IconView(Minus, "text-gray-600")
  }

  /** `getImpactColor` */
  function ImpactColor(impact: string): (c: string)
    ensures c == "border-green-200 bg-green-50" <==> impact == "positive"
    ensures c == "border-red-200 bg-red-50" <==> impact == "negative"
    ensures c == "border-gray-200 bg-gray-50" <==> impact != "positive" && impact != "negative"
  {
    if impact == "positive" then "border-green-200 bg-green-50"
    else if impact == "negative" then "border-red-200 bg-red-50"
    else "border-gray-200 bg-gray-50"
  }

  /** The colour of a factor's weight bar. */
  function FactorBarColor(impact: string): (c: string)
    ensures c == "bg-green-600" <==> impact == "positive"
    ensures c == "bg-red-600" <==> impact == "negative"
    ensures c == "bg-gray-600" <==> impact != "positive" && impact != "negative"
  {
    if impact == "positive" then "bg-green-600"
    else if impact == "negative" then "bg-red-600"
    else "bg-gray-600"
  }

  /** The three impact helpers partition the impact strings the same way:
      two impacts share an icon iff they share a card colour iff they share
      a bar colour. */
  lemma ImpactHelpersSplitAlike(a: string, b: string)
    ensures ImpactIcon(a) == ImpactIcon(b) <==> ImpactColor(a) == ImpactColor(b)
    ensures ImpactColor(a) == ImpactColor(b) <==> FactorBarColor(a) == FactorBarColor(b)
  {
  }

  /** Over the impact enum, the neutral branch is taken exactly for
      `neutral`, and the three impacts get three different looks. */
  lemma ImpactEnumIsSplitByName(i: Impact, j: Impact)
    ensures ImpactIcon(i.Name()).glyph == Minus <==> i == Neutral
    ensures ImpactColor(i.Name()) == ImpactColor(j.Name()) <==> i == j
  {
  }

  /** The sum of the factor weights. */
  function WeightTotal(factors: seq<CreditFactor>): int {
    if factors == [] then 0 else WeightTotal(factors[..|factors| - 1]) + factors[|factors| - 1].weight
  }

  /** The demo report's six factor weights add up to 100 percent. */
  lemma DemoWeightsSumToHundred()
    ensures WeightTotal(DemoData.DemoCreditScore.factors) == 100
    ensures |DemoData.DemoCreditScore.factors| == 6
  {
    var fs := DemoData.DemoCreditScore.factors;
    assert WeightTotal(fs[..1]) == 35 by { assert fs[..1][..0] == []; }
    assert WeightTotal(fs[..2]) == 65 by { assert fs[..2][..1] == fs[..1]; }
    assert WeightTotal(fs[..3]) == 80 by { assert fs[..3][..2] == fs[..2]; }
    assert WeightTotal(fs[..4]) == 90 by { assert fs[..4][..3] == fs[..3]; }
    assert WeightTotal(fs[..5]) == 95 by { assert fs[..5][..4] == fs[..4]; }
    assert fs[..6][..5] == fs[..5] && fs[..6] == fs;
  }
}
