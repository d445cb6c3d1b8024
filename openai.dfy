/**
 * The closed-model adapter (lib/openai.ts, summarizeWithOpenAI), reduced to
 * what it decides once the chat-completion call has settled; the call itself
 * is an abstract outcome.
 */
module OpenAI {
  import opened Types

  const NoSummaryText := "Failed to generate summary"
  const CallFailedMessage := "Failed to generate summary with OpenAI"

  /**
   * `choices[0]?.message?.content || 'Failed to generate summary'` when the call
   * returned (`None` for any missing link of that chain), a typed failure when it threw.
   */
  function SummarizeWithOpenAI(completion: Call<Option<string>>): (r: Settled<string>)
    ensures r.Rejected? <==> completion.Threw?
    ensures r.Rejected? ==> r.reason == CallFailedMessage
    ensures r.Fulfilled? ==> r.value != ""
    ensures completion.Returned? && Truthy(completion.value) ==> r == Fulfilled(completion.value.value)
    ensures completion.Returned? && !Truthy(completion.value) ==> r == Fulfilled(NoSummaryText)
  {
    match completion
    case Returned(content) => Fulfilled(if Truthy(content) then content.value else NoSummaryText)
    case Threw => Rejected(CallFailedMessage)
  }
}
