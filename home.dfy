/**
 * The session state of the home page (pages/index.tsx): the list of submitted
 * ratings, grown by one on each submission, the report recomputed from it,
 * and the guard that enables the rating panel.
 */
module Home {
  import opened Types
  import Aggregator
  import Gateway
  import OpenAI
  import HuggingFace

  /** The `ratings` state of the page; it only ever grows at the end. */
  class RatingHistory {
    var ratings: seq<SummaryRating>

    /** A new session starts with no ratings. */
    constructor ()
      ensures ratings == []
      ensures Report() == Aggregator.EmptyReport
    {
      ratings := [];
    }

    /** calculateReportData over the current history. */
    function Report(): (r: ReportData)
      reads this
      ensures r.totalComparisons == |ratings|
      ensures r.closedPreferred + r.openPreferred == |ratings|
    {
      Aggregator.CalculateReportData(ratings)
    }

    /** Whether every submitted score came from the 1..5 sliders. */
    predicate InRange()
      reads this
    {
      Aggregator.AllValid(ratings)
    }

    /**
     * handleRatingSubmit: appends the rating and keeps everything before it.
     * The total grows by one, the chosen class's count by one, the other class's count not at all.
     */
    method Submit(rating: SummaryRating)
      modifies this
      ensures ratings == old(ratings) + [rating]
      ensures InRange() <==> old(InRange()) && ValidSummaryRating(rating)
      ensures Report().totalComparisons == old(Report().totalComparisons) + 1
      ensures PreferenceOf(Report(), rating.preferredModel) == old(PreferenceOf(Report(), rating.preferredModel)) + 1
      ensures forall side :: side != rating.preferredModel ==>
                PreferenceOf(Report(), side) == old(PreferenceOf(Report(), side))
    {
      Aggregator.ReportAfterAppend(ratings, rating);
      ratings := ratings + [rating];
      assert forall i :: 0 <= i < |old(ratings)| ==> ratings[i] == old(ratings)[i];
    }
  }

  /** canRate: a response has arrived and both summaries are non-empty strings. */
  function CanRate(summaries: Option<SummarizationResponse>): (ok: bool)
    ensures ok ==> summaries.Some?
    ensures summaries.Some? ==>
              (ok <==> summaries.value.closedSummary != "" && summaries.value.openSummary != "")
  {
    summaries.Some? && summaries.value.closedSummary != "" && summaries.value.openSummary != ""
  }

  /**
   * Every successful reply of the endpoint enables rating, whatever the two
   * adapters' remote calls did: each side holds either an adapter's summary,
   * which is never empty, or a non-empty placeholder.
   */
  lemma SuccessfulReplyEnablesRating(
    httpMethod: string, req: SummarizationRequest,
    completion: Call<Option<string>>,
    text: string, model: string,
    primary: Call<HuggingFace.SummarizationOutput>, fallback: Call<Option<string>>)
    ensures var reply := Gateway.Handle(httpMethod, req,
                           OpenAI.SummarizeWithOpenAI(completion),
                           HuggingFace.SummarizeWithHuggingFace(text, model, primary, fallback).result);
            reply.Success? ==> CanRate(Some(reply.response))
  {
    var closed := OpenAI.SummarizeWithOpenAI(completion);
    var open := HuggingFace.SummarizeWithHuggingFace(text, model, primary, fallback).result;
    if Gateway.Validate(httpMethod, req).Proceed? {
      Gateway.SidesIndependent(httpMethod, req, closed, open);
    }
  }
}
