/** The fraud-detection view (src/components/FraudDetection.tsx): the
    three-way risk classification, the status icons, the status label, the
    review button and the summary statistics. */
module FraudDetection {
  import opened Types
  import DemoData

  // ---------------------------------------------------------------------
  // Risk level
  // ---------------------------------------------------------------------

  /** `getRiskColor` */
  function RiskColor(level: string): (c: string)
    ensures c == "text-red-600" <==> level == "high"
    ensures c == "text-yellow-600" <==> level == "medium"
    ensures c == "text-green-600" <==> level != "high" && level != "medium"
  {
    if level == "high" then "text-red-600"
    else if level == "medium" then "text-yellow-600"
    else "text-green-600"
  }

  /** `getRiskBgColor` */
  function RiskBgColor(level: string): (c: string)
    ensures c == "bg-red-100 border-red-300" <==> level == "high"
    ensures c == "bg-yellow-100 border-yellow-300" <==> level == "medium"
    ensures c == "bg-green-100 border-green-300" <==> level != "high" && level != "medium"
  {
    if level == "high" then "bg-red-100 border-red-300"
    else if level == "medium" then "bg-yellow-100 border-yellow-300"
    else "bg-green-100 border-green-300"
  }

  /** `getRiskIcon`: a warning triangle for high and medium risk, a shield
      otherwise, each in the colour `getRiskColor` gives. */
  function RiskIcon(level: string): (icon: IconView)
    ensures icon.glyph == ShieldGlyph <==> level != "high" && level != "medium"
    ensures icon.colour == RiskColor(level)
  {
    if level == "high" then IconView(AlertTriangle, "text-red-600")
    else if level == "medium" then IconView(AlertTriangle, "text-yellow-600")
    else IconView(ShieldGlyph, "text-green-600")
  }

  /** The card background and the icon split the risk levels exactly as the
      text colour does. */
  lemma RiskHelpersSplitAlike(a: string, b: string)
    ensures RiskColor(a) == RiskColor(b) <==> RiskBgColor(a) == RiskBgColor(b)
    ensures RiskColor(a) == RiskColor(b) <==> RiskIcon(a) == RiskIcon(b)
  {
  }

  /** Over the risk enum, `low` is the only level drawn green with a shield. */
  lemma LowIsTheOnlySafeLevel(r: RiskLevel)
    ensures RiskIcon(r.Name()).glyph == ShieldGlyph <==> r == Low
    ensures RiskColor(r.Name()) == "text-red-600" <==> r == High
  {
  }

  // ---------------------------------------------------------------------
  // Alert status
  // ---------------------------------------------------------------------

  /** `getStatusIcon` */
  function StatusIcon(status: string): (icon: IconView)
    ensures icon == IconView(CheckCircle, "text-green-600") <==> status == "resolved"
    ensures icon == IconView(XCircle, "text-gray-600") <==> status == "false_positive"
    ensures icon == IconView(CheckCircle, "text-blue-600") <==> status == "reviewed"
    ensures icon == IconView(Clock, "text-yellow-600") <==>
      status != "resolved" && status != "false_positive" && status != "reviewed"
  {
    if status == "resolved" then IconView(CheckCircle, "text-green-600")
    else if status == "false_positive" then IconView(XCircle, "text-gray-600")
    else if status == "reviewed" then IconView(CheckCircle, "text-blue-600")
    else IconView(Clock, "text-yellow-600")
  }

  /** The four statuses get four different icons; pending gets the clock. */
  lemma StatusIconsTellStatusesApart(s: AlertStatus, t: AlertStatus)
    ensures StatusIcon(s.Name()) == StatusIcon(t.Name()) <==> s == t
    ensures StatusIcon(s.Name()).glyph == Clock <==> s == Pending
  {
  }

  /** The index of the first occurrence of `c` in `s`. */
  function IndexOf(s: string, c: char): (i: nat)
    requires c in s
    ensures i < |s| && s[i] == c && c !in s[..i]
  {
    if s[0] == c then 0 else 1 + IndexOf(s[1..], c)
  }

  /** `String.prototype.replace` with a one-character string pattern: only
      the first occurrence of `from` is replaced. */
  function ReplaceFirst(s: string, from: char, to: char): (r: string)
    ensures |r| == |s|
    ensures from !in s ==> r == s
  {
    if s == [] then []
    else if s[0] == from then [to] + s[1..]
    else [s[0]] + ReplaceFirst(s[1..], from, to)
  }

  /** When `from` occurs, exactly the character at its first occurrence
      becomes `to`. */
  lemma {:induction false} ReplaceFirstAtIndex(s: string, from: char, to: char)
    requires from in s
    ensures ReplaceFirst(s, from, to) == s[..IndexOf(s, from)] + [to] + s[IndexOf(s, from) + 1..]
  {
    if s[0] != from {
      assert from in s[1..];
      ReplaceFirstAtIndex(s[1..], from, to);
      assert s[1..][..IndexOf(s[1..], from)] == s[1..IndexOf(s, from)];
    }
  }

  /** The status text shown beside the icon: `status.replace('_', ' ')`. */
  function StatusLabel(status: string): (text: string)
    ensures |text| == |status|
    ensures '_' !in status ==> text == status
    ensures '_' in status ==> text[IndexOf(status, '_')] == ' '
  {
    if '_' in status then
      ReplaceFirstAtIndex(status, '_', ' ');
      ReplaceFirst(status, '_', ' ')
    else ReplaceFirst(status, '_', ' ')
  }

  /** Replacing the first underscore by a space leaves one fewer underscore
      and changes nothing else. */
  lemma ReplaceFirstRemovesOne(s: string)
    ensures '_' in s ==> multiset(StatusLabel(s)) == multiset(s) - multiset{'_'} + multiset{' '}
    ensures '_' !in s ==> StatusLabel(s) == s
  {
    if '_' in s {
      var i := IndexOf(s, '_');
      ReplaceFirstAtIndex(s, '_', ' ');
      assert s == s[..i] + [s[i]] + s[i + 1..];
    }
  }

  /** Whatever follows the first occurrence is left alone, further
      occurrences included. */
  lemma {:induction false} ReplaceAfterPrefix(prefix: string, rest: string, from: char, to: char)
    requires from !in prefix
    ensures ReplaceFirst(prefix + [from] + rest, from, to) == prefix + [to] + rest
  {
    if prefix != [] {
      assert (prefix + [from] + rest)[1..] == prefix[1..] + [from] + rest;
      ReplaceAfterPrefix(prefix[1..], rest, from, to);
    }
  }

  /** The status enum's labels: only `false_positive` changes. */
  lemma StatusLabels(s: AlertStatus)
    ensures StatusLabel(s.Name()) == (if s == FalsePositive then "false positive" else s.Name())
  {
    if s == FalsePositive {
      FalsePositiveLabel(s.Name());
    } else {
      assert '_' !in s.Name();
    }
  }

  lemma FalsePositiveLabel(status: string)
    requires status == "false_positive"
    ensures StatusLabel(status) == "false positive"
  {
    var before, after := "false", "positive";
    assert before + [' '] + after == "false positive";
    assert status == before + ['_'] + after;
    ReplaceAfterPrefix(before, after, '_', ' ');
  }

  /** A second underscore survives: `a_b_c` becomes `a b_c`. */
  lemma OnlyTheFirstUnderscoreIsReplaced(status: string)
    requires status == "a_b_c"
    ensures StatusLabel(status) == "a b_c"
  {
    assert status == "a" + ['_'] + "b_c";
    ReplaceAfterPrefix("a", "b_c", '_', ' ');
  }

  /** Whether the card shows the Review Alert button. */
  function ShowsReviewButton(status: string): (shown: bool)
    ensures shown ==> StatusIcon(status).glyph == Clock
  {
    status == "pending"
  }

  /** The button is shown exactly for pending alerts, which are exactly the
      alerts with the clock icon among the four statuses. */
  lemma ReviewButtonOnlyWhenPending(s: AlertStatus)
    ensures ShowsReviewButton(s.Name()) <==> s == Pending
    ensures ShowsReviewButton(s.Name()) <==> StatusIcon(s.Name()).glyph == Clock
  {
  }

  /** Of the demo alerts only the second, the pending one, has the button. */
  lemma DemoReviewButtons()
    ensures |DemoData.DemoFraudAlerts| == 2
    ensures !ShowsReviewButton(DemoData.DemoFraudAlerts[0].status.Name())
    ensures ShowsReviewButton(DemoData.DemoFraudAlerts[1].status.Name())
  {
  }

  // ---------------------------------------------------------------------
  // Summary statistics
  // ---------------------------------------------------------------------

  datatype AlertStats = AlertStats(
    totalAlerts: int, highRisk: int, mediumRisk: int, lowRisk: int, resolved: int, pending: int)

  /** The hardcoded `stats` record. */
  const Stats := AlertStats(15, 2, 5, 8, 10, 5)

  /** The alerts counted by risk and the alerts counted by state both make
      up the total. */
  predicate Consistent(st: AlertStats) {
    st.highRisk + st.mediumRisk + st.lowRisk == st.totalAlerts == st.resolved + st.pending
  }

  lemma StatsAreConsistent()
    ensures Consistent(Stats) && Stats.totalAlerts == 15
  {
  }
}
