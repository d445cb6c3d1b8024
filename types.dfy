/** Shared record types of the summarizer comparison app (types/index.ts). */
module Types {

  /** The two model classes a rating can prefer: `'closed' | 'open'`. */
  datatype ModelClass = Closed | Open

  /** A score triple for one summary. The user interface only produces integers 1..5. */
  datatype Rating = Rating(clarity: int, accuracy: int, conciseness: int)

  /** One submitted comparison: a rating per model class and the preferred class. */
  datatype SummaryRating = SummaryRating(closedRating: Rating, openRating: Rating, preferredModel: ModelClass)

  /** A rating-shaped triple of averages (exact reals instead of JavaScript numbers). */
  datatype Averages = Averages(clarity: real, accuracy: real, conciseness: real)

  /** The aggregated report shown by the report card. */
  datatype ReportData = ReportData(
    closedAverages: Averages,
    openAverages: Averages,
    closedPreferred: nat,
    openPreferred: nat,
    totalComparisons: nat)

  /** The body of a summarization request; a field that JSON left out is `None`. */
  datatype SummarizationRequest = SummarizationRequest(
    text: Option<string>,
    closedModel: Option<string>,
    openModel: Option<string>)

  /** The successful reply of the summarization endpoint. */
  datatype SummarizationResponse = SummarizationResponse(
    closedSummary: string,
    openSummary: string,
    closedModel: string,
    openModel: string)

  datatype Option<+T> = None | Some(value: T)

  /** How an asynchronous call settled: with a value, or by throwing an error with a message. */
  datatype Settled<+T> = Fulfilled(value: T) | Rejected(reason: string)

  /** One remote call whose transport is not modelled: it returned a value or it threw. */
  datatype Call<+T> = Returned(value: T) | Threw

  /** The slider bounds of the rating panel: every criterion is an integer from 1 to 5. */
  predicate ScoreInRange(x: int) {
    1 <= x <= 5
  }

  predicate ValidRating(r: Rating) {
    ScoreInRange(r.clarity) && ScoreInRange(r.accuracy) && ScoreInRange(r.conciseness)
  }

  predicate ValidSummaryRating(sr: SummaryRating) {
    ValidRating(sr.closedRating) && ValidRating(sr.openRating)
  }

  /** The preference count of one model class. */
  function PreferenceOf(data: ReportData, side: ModelClass): nat {
    match side
    case Closed => data.closedPreferred
    case Open => data.openPreferred
  }

  /** The three averages of one model class. */
  function AveragesOf(data: ReportData, side: ModelClass): Averages {
    match side
    case Closed => data.closedAverages
    case Open => data.openAverages
  }

  /** JavaScript truthiness of an optional string: present and not empty. */
  predicate Truthy(s: Option<string>) {
    s.Some? && s.value != ""
  }
}
