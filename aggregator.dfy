/**
 * The rating aggregator of the home page (pages/index.tsx, calculateReportData):
 * a left fold of the submitted ratings into eight running totals, followed by
 * six divisions. The fold is related to an independent, head-first reference
 * sum `Total`, from which the report's arithmetic invariants and its
 * independence of order are proved.
 */
module Aggregator {
  import opened Types
  import Reals

  /** The accumulator record of the `reduce` call. */
  datatype Totals = Totals(
    closedClarity: int, closedAccuracy: int, closedConciseness: int,
    openClarity: int, openAccuracy: int, openConciseness: int,
    closedPreferred: nat, openPreferred: nat)

  const InitialTotals := Totals(0, 0, 0, 0, 0, 0, 0, 0)

  /** The callback of the `reduce`: adds one rating to the accumulator, slot by slot. */
  function Step(acc: Totals, sr: SummaryRating): (next: Totals)
    ensures forall k :: Field(next, k) == Field(acc, k) + Measure(sr, k)
  {
    Totals(
      acc.closedClarity + sr.closedRating.clarity,
      acc.closedAccuracy + sr.closedRating.accuracy,
      acc.closedConciseness + sr.closedRating.conciseness,
      acc.openClarity + sr.openRating.clarity,
      acc.openAccuracy + sr.openRating.accuracy,
      acc.openConciseness + sr.openRating.conciseness,
      acc.closedPreferred + (if sr.preferredModel == Closed then 1 else 0),
      acc.openPreferred + (if sr.preferredModel == Open then 1 else 0))
  }

  /**
   * `ratings.reduce(Step, InitialTotals)`: folds from the first rating to the last.
   * Each rating adds 1 to exactly one of the two preference slots.
   */
  function Fold(rs: seq<SummaryRating>): (totals: Totals)
    ensures totals.closedPreferred + totals.openPreferred == |rs|
    decreases |rs|
  {
    if rs == [] then InitialTotals else Step(Fold(rs[..|rs| - 1]), rs[|rs| - 1])
  }

  const ZeroAverages := Averages(0.0, 0.0, 0.0)

  /** The report of an empty history. */
  const EmptyReport := ReportData(ZeroAverages, ZeroAverages, 0, 0, 0)

  /**
   * calculateReportData: the special case for no ratings, else the fold and the
   * averages. The total is the number of ratings and the two counts add up to it;
   * the averages are stated by ReportAverages.
   */
  function CalculateReportData(rs: seq<SummaryRating>): (report: ReportData)
    ensures rs == [] ==> report == EmptyReport
    ensures report.totalComparisons == |rs|
    ensures report.closedPreferred + report.openPreferred == report.totalComparisons
  {
    if |rs| == 0 then EmptyReport
    else
      var totals := Fold(rs);
      var count := |rs| as real;
      ReportData(
        Averages(totals.closedClarity as real / count,
                 totals.closedAccuracy as real / count,
                 totals.closedConciseness as real / count),
        Averages(totals.openClarity as real / count,
                 totals.openAccuracy as real / count,
                 totals.openConciseness as real / count),
        totals.closedPreferred,
        totals.openPreferred,
        |rs|)
  }

  // ---------------------------------------------------------------------------
  // Reference specification: what each quantity of the report is meant to be.
  // ---------------------------------------------------------------------------

  datatype Criterion = Clarity | Accuracy | Conciseness

  /** One of the eight quantities the fold accumulates. */
  datatype Key = Score(side: ModelClass, criterion: Criterion) | Preferred(side: ModelClass)

  function RatingOf(sr: SummaryRating, side: ModelClass): Rating {
    match side
    case Closed => sr.closedRating
    case Open => sr.openRating
  }

  function ScoreOf(r: Rating, c: Criterion): int {
    match c
    case Clarity => r.clarity
    case Accuracy => r.accuracy
    case Conciseness => r.conciseness
  }

  function AverageOf(a: Averages, c: Criterion): real {
    match c
    case Clarity => a.clarity
    case Accuracy => a.accuracy
    case Conciseness => a.conciseness
  }

  /** What one rating contributes to a quantity: a score, or 1 when it prefers that class. */
  function Measure(sr: SummaryRating, k: Key): int {
    match k
    case Score(side, c) => ScoreOf(RatingOf(sr, side), c)
    case Preferred(side) => if sr.preferredModel == side then 1 else 0
  }

  /** The sum of a quantity over a history, taken from the front. */
  function Total(rs: seq<SummaryRating>, k: Key): int
    decreases |rs|
  {
    if rs == [] then 0 else Measure(rs[0], k) + Total(rs[1..], k)
  }

  /** The slot of the accumulator that holds a quantity. */
  function Field(t: Totals, k: Key): int {
    match k
    case Score(Closed, Clarity) => t.closedClarity
    case Score(Closed, Accuracy) => t.closedAccuracy
    case Score(Closed, Conciseness) => t.closedConciseness
    case Score(Open, Clarity) => t.openClarity
    case Score(Open, Accuracy) => t.openAccuracy
    case Score(Open, Conciseness) => t.openConciseness
    case Preferred(Closed) => t.closedPreferred
    case Preferred(Open) => t.openPreferred
  }

  predicate AllValid(rs: seq<SummaryRating>) {
    forall i :: 0 <= i < |rs| ==> ValidSummaryRating(rs[i])
  }

  // ---------------------------------------------------------------------------
  // The fold computes the reference sums.
  // ---------------------------------------------------------------------------

  /** Adding a rating at the end adds its measure to the reference sum. */
  lemma {:induction false} TotalAppend(rs: seq<SummaryRating>, x: SummaryRating, k: Key)
    ensures Total(rs + [x], k) == Total(rs, k) + Measure(x, k)
  {
    if rs == [] {
      assert [x][1..] == [];
    } else {
      assert (rs + [x])[1..] == rs[1..] + [x];
      TotalAppend(rs[1..], x, k);
    }
  }

  /** Every slot of the folded accumulator holds the reference sum of its quantity. */
  lemma {:induction false} FoldIsTotal(rs: seq<SummaryRating>, k: Key)
    ensures Field(Fold(rs), k) == Total(rs, k)
    decreases |rs|
  {
    if rs != [] {
      var init, last := rs[..|rs| - 1], rs[|rs| - 1];
      assert rs == init + [last];
      FoldIsTotal(init, k);
      TotalAppend(init, last, k);
    }
  }

  lemma {:induction false} TotalConcat(u: seq<SummaryRating>, v: seq<SummaryRating>, k: Key)
    ensures Total(u + v, k) == Total(u, k) + Total(v, k)
  {
    if u == [] {
      assert u + v == v;
    } else {
      assert (u + v)[1..] == u[1..] + v;
      TotalConcat(u[1..], v, k);
    }
  }

  /** Taking one rating out of the middle takes its measure out of the reference sum. */
  lemma TotalRemove(b: seq<SummaryRating>, i: nat, k: Key)
    requires i < |b|
    ensures Total(b, k) == Measure(b[i], k) + Total(b[..i] + b[i + 1..], k)
  {
    assert b == b[..i] + [b[i]] + b[i + 1..];
    TotalConcat(b[..i] + [b[i]], b[i + 1..], k);
    TotalConcat(b[..i], [b[i]], k);
    TotalConcat(b[..i], b[i + 1..], k);
    assert Total([b[i]], k) == Measure(b[i], k) by { assert [b[i]][1..] == []; }
  }

  lemma MultisetRemove(b: seq<SummaryRating>, i: nat)
    requires i < |b|
    ensures multiset(b[..i] + b[i + 1..]) == multiset(b) - multiset{b[i]}
  {
    assert b == b[..i] + [b[i]] + b[i + 1..];
  }

  lemma IndexOf(b: seq<SummaryRating>, x: SummaryRating) returns (i: nat)
    requires x in multiset(b)
    ensures i < |b| && b[i] == x
  {
    assert x in b;
    i :| i < |b| && b[i] == x;
  }

  /** The reference sum depends only on the multiset of ratings. */
  lemma {:induction false} TotalPermutation(a: seq<SummaryRating>, b: seq<SummaryRating>, k: Key)
    requires multiset(a) == multiset(b)
    ensures Total(a, k) == Total(b, k)
    decreases |a|
  {
    if a == [] {
      assert |b| == |multiset(b)| == 0;
    } else {
      var i := IndexOf(b, a[0]);
      var rest := b[..i] + b[i + 1..];
      MultisetRemove(a, 0);
      MultisetRemove(b, i);
      assert a[..0] + a[1..] == a[1..];
      TotalPermutation(a[1..], rest, k);
      TotalRemove(b, i, k);
    }
  }

  // ---------------------------------------------------------------------------
  // Properties of the report.
  // ---------------------------------------------------------------------------

  /** No ratings: every average, both preference counts and the total are zero. */
  lemma EmptyHistoryReport()
    ensures forall side, c :: AverageOf(AveragesOf(CalculateReportData([]), side), c) == 0.0
    ensures PreferenceOf(CalculateReportData([]), Closed) == 0
    ensures PreferenceOf(CalculateReportData([]), Open) == 0
    ensures CalculateReportData([]).totalComparisons == 0
  {
  }

  /** Each average is the sum of that criterion for that class divided by the number of ratings. */
  lemma ReportAverages(rs: seq<SummaryRating>, side: ModelClass, c: Criterion)
    requires |rs| > 0
    ensures AverageOf(AveragesOf(CalculateReportData(rs), side), c)
            == Total(rs, Score(side, c)) as real / |rs| as real
  {
    FoldIsTotal(rs, Score(side, c));
  }

  /** Each preference count is the number of ratings that prefer that class. */
  lemma ReportPreferences(rs: seq<SummaryRating>, side: ModelClass)
    ensures PreferenceOf(CalculateReportData(rs), side) == Total(rs, Preferred(side))
  {
    FoldIsTotal(rs, Preferred(side));
  }

  /** Reordering the history leaves the report unchanged. */
  lemma ReportPermutationInvariant(a: seq<SummaryRating>, b: seq<SummaryRating>)
    requires multiset(a) == multiset(b)
    ensures CalculateReportData(a) == CalculateReportData(b)
  {
    assert |a| == |multiset(a)| == |multiset(b)| == |b|;
    forall k: Key
      ensures Field(Fold(a), k) == Field(Fold(b), k)
    {
      FoldIsTotal(a, k);
      FoldIsTotal(b, k);
      TotalPermutation(a, b, k);
    }
    assert Fold(a).closedClarity == Field(Fold(a), Score(Closed, Clarity));
    assert Fold(a).closedAccuracy == Field(Fold(a), Score(Closed, Accuracy));
    assert Fold(a).closedConciseness == Field(Fold(a), Score(Closed, Conciseness));
    assert Fold(a).openClarity == Field(Fold(a), Score(Open, Clarity));
    assert Fold(a).openAccuracy == Field(Fold(a), Score(Open, Accuracy));
    assert Fold(a).openConciseness == Field(Fold(a), Score(Open, Conciseness));
    assert Fold(a).closedPreferred == Field(Fold(a), Preferred(Closed));
    assert Fold(a).openPreferred == Field(Fold(a), Preferred(Open));
    assert Fold(a) == Fold(b);
  }

  lemma {:induction false} ScoreTotalBounds(rs: seq<SummaryRating>, side: ModelClass, c: Criterion)
    requires AllValid(rs)
    ensures |rs| <= Total(rs, Score(side, c)) <= 5 * |rs|
  {
    if rs != [] {
      assert ValidSummaryRating(rs[0]);
      assert AllValid(rs[1..]) by {
        forall i | 0 <= i < |rs[1..]| ensures ValidSummaryRating(rs[1..][i]) {
          assert rs[1..][i] == rs[i + 1];
        }
      }
      ScoreTotalBounds(rs[1..], side, c);
    }
  }

  /** With every score from the 1..5 sliders, every average of a non-empty history lies in [1, 5]. */
  lemma AveragesInRange(rs: seq<SummaryRating>, side: ModelClass, c: Criterion)
    requires |rs| > 0 && AllValid(rs)
    ensures 1.0 <= AverageOf(AveragesOf(CalculateReportData(rs), side), c) <= 5.0
  {
    ReportAverages(rs, side, c);
    ScoreTotalBounds(rs, side, c);
    Reals.QuotientBounds(Total(rs, Score(side, c)) as real, |rs| as real, 1.0, 5.0);
  }

  /**
   * Appending a rating raises the total by one and the chosen class's
   * preference count by one, and leaves the other class's count unchanged.
   */
  lemma ReportAfterAppend(rs: seq<SummaryRating>, x: SummaryRating)
    ensures CalculateReportData(rs + [x]).totalComparisons == CalculateReportData(rs).totalComparisons + 1
    ensures PreferenceOf(CalculateReportData(rs + [x]), x.preferredModel)
            == PreferenceOf(CalculateReportData(rs), x.preferredModel) + 1
    ensures forall side :: side != x.preferredModel ==>
              PreferenceOf(CalculateReportData(rs + [x]), side) == PreferenceOf(CalculateReportData(rs), side)
  {
    forall side
      ensures PreferenceOf(CalculateReportData(rs + [x]), side)
              == PreferenceOf(CalculateReportData(rs), side) + Measure(x, Preferred(side))
    {
      ReportPreferences(rs + [x], side);
      ReportPreferences(rs, side);
      TotalAppend(rs, x, Preferred(side));
    }
  }

  /** The worked example: two ratings with closed clarities 3 and 5 and open clarities 2 and 4, one preference each. */
  lemma TwoRatingExample()
    ensures var report := CalculateReportData([
              SummaryRating(Rating(3, 4, 5), Rating(2, 2, 2), Closed),
              SummaryRating(Rating(5, 5, 5), Rating(4, 4, 4), Open)]);
            report.closedAverages.clarity == 4.0 && report.openAverages.clarity == 3.0 &&
            report.closedPreferred == 1 && report.openPreferred == 1 && report.totalComparisons == 2
  {
    var first := SummaryRating(Rating(3, 4, 5), Rating(2, 2, 2), Closed);
    var second := SummaryRating(Rating(5, 5, 5), Rating(4, 4, 4), Open);
    var rs := [first, second];
    assert rs[..1] == [first];
    assert [first][..0] == [];
    assert Fold([first]) == Step(InitialTotals, first);
    assert Fold(rs) == Totals(8, 9, 10, 6, 6, 6, 1, 1);
  }
}
