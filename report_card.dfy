/**
 * The numbers the report card derives from a report (components/ReportCard.tsx):
 * the winning class, its count and percentage, the mean score of a class, and
 * the choice between the no-data view and the summary view. Chart rendering
 * and number formatting are not modelled.
 */
module ReportCard {
  import opened Types
  import Aggregator
  import Reals

  /** The class with more preferences; a tie goes to the open class. */
  function WinnerType(data: ReportData): (w: ModelClass)
    ensures w == Closed <==> data.closedPreferred > data.openPreferred
    ensures data.closedPreferred == data.openPreferred ==> w == Open
  {
    if data.closedPreferred > data.openPreferred then Closed else Open
  }

  /** `Math.max` of the two preference counts: the count of the winning class. */
  function WinnerCount(data: ReportData): (n: nat)
    ensures n == PreferenceOf(data, WinnerType(data))
    ensures n >= data.closedPreferred && n >= data.openPreferred
  {
    if data.closedPreferred >= data.openPreferred then data.closedPreferred else data.openPreferred
  }

  /** When the two counts add up to the total, the winner won at least half of the comparisons and at most all of them. */
  lemma WinnerShareBounds(data: ReportData)
    requires data.totalComparisons > 0
    ensures data.closedPreferred + data.openPreferred == data.totalComparisons ==>
              0.5 <= WinnerCount(data) as real / data.totalComparisons as real <= 1.0
  {
    if data.closedPreferred + data.openPreferred == data.totalComparisons {
      var w := WinnerCount(data) as real;
      var t := data.totalComparisons as real;
      assert 0.5 * t <= w <= 1.0 * t;
      Reals.QuotientBounds(w, t, 0.5, 1.0);
    }
  }

  /**
   * The share of comparisons the winner won, in percent (before formatting to
   * one decimal); in [50, 100] whenever the two counts add up to the total.
   */
  function WinnerPercentage(data: ReportData): (p: real)
    requires data.totalComparisons > 0
    ensures data.closedPreferred + data.openPreferred == data.totalComparisons ==> 50.0 <= p <= 100.0
  {
    WinnerShareBounds(data);
    (WinnerCount(data) as real / data.totalComparisons as real) * 100.0
  }

  function Min3(a: real, b: real, c: real): real {
    if a <= b && a <= c then a else if b <= c then b else c
  }

  function Max3(a: real, b: real, c: real): real {
    if a >= b && a >= c then a else if b >= c then b else c
  }

  /** The mean of a class's clarity, accuracy and conciseness averages. */
  function AverageScore(a: Averages): (s: real)
    ensures Min3(a.clarity, a.accuracy, a.conciseness) <= s <= Max3(a.clarity, a.accuracy, a.conciseness)
    ensures a.clarity == a.accuracy == a.conciseness ==> s == a.clarity
  {
    (a.clarity + a.accuracy + a.conciseness) / 3.0
  }

  /** What the card shows: nothing but a placeholder, or the winner statistics and both mean scores. */
  datatype View =
    | NoData
    | Summary(winner: ModelClass, winnerPercentage: real, closedScore: real, openScore: real)

  function Render(data: ReportData): (v: View)
    ensures v.NoData? <==> data.totalComparisons == 0
    ensures v.Summary? ==> v.winner == WinnerType(data) && v.winnerPercentage == WinnerPercentage(data)
    ensures v.Summary? ==>
              v.closedScore == AverageScore(data.closedAverages) && v.openScore == AverageScore(data.openAverages)
  {
    if data.totalComparisons == 0 then NoData
    else Summary(WinnerType(data), WinnerPercentage(data),
                 AverageScore(data.closedAverages), AverageScore(data.openAverages))
  }

  /**
   * The card over an aggregated history: the no-data view exactly when no
   * rating was submitted; otherwise a winner percentage in [50, 100] and, for
   * ratings from the 1..5 sliders, both mean scores in [1, 5].
   */
  lemma HistoryView(rs: seq<SummaryRating>)
    ensures Render(Aggregator.CalculateReportData(rs)).NoData? <==> rs == []
    ensures rs != [] ==> 50.0 <= Render(Aggregator.CalculateReportData(rs)).winnerPercentage <= 100.0
    ensures rs != [] && Aggregator.AllValid(rs) ==>
              1.0 <= Render(Aggregator.CalculateReportData(rs)).closedScore <= 5.0 &&
              1.0 <= Render(Aggregator.CalculateReportData(rs)).openScore <= 5.0
  {
    var data := Aggregator.CalculateReportData(rs);
    if rs != [] {
      if Aggregator.AllValid(rs) {
        forall side: ModelClass, c: Aggregator.Criterion
          ensures 1.0 <= Aggregator.AverageOf(AveragesOf(data, side), c) <= 5.0
        {
          Aggregator.AveragesInRange(rs, side, c);
        }
        assert 1.0 <= Aggregator.AverageOf(AveragesOf(data, Closed), Aggregator.Clarity);
        assert 1.0 <= Aggregator.AverageOf(AveragesOf(data, Closed), Aggregator.Accuracy);
        assert 1.0 <= Aggregator.AverageOf(AveragesOf(data, Closed), Aggregator.Conciseness);
        assert 1.0 <= Aggregator.AverageOf(AveragesOf(data, Open), Aggregator.Clarity);
        assert 1.0 <= Aggregator.AverageOf(AveragesOf(data, Open), Aggregator.Accuracy);
        assert 1.0 <= Aggregator.AverageOf(AveragesOf(data, Open), Aggregator.Conciseness);
      }
    }
  }
}
