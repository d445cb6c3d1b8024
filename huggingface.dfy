/**
 * The open-model adapter (lib/huggingface.ts, summarizeWithHuggingFace).
 * The two inference calls are not modelled; each is an abstract outcome
 * handed in as a parameter. The adapter returns how it settled together with
 * the list of calls it made, in order, with their arguments, so that what the
 * adapter sends and when it falls back can be stated.
 */
module HuggingFace {
  import opened Types

  /** Token ceiling of the summarization models, in characters of input. */
  const MaxInputLength: nat := 1024
  /** Length of the excerpt the text-generation fallback sees. */
  const FallbackExcerptLength: nat := 512
  const FallbackInstruction := "Summarize the following text in 2-3 sentences:\n\n"
  const NoSummaryText := "Failed to generate summary"
  const BothFailedMessage := "Failed to generate summary with HuggingFace"

  /**
   * What the summarization endpoint resolved to: an array of items, or a single
   * object. `None` stands for a missing element or a missing or null `summary_text`.
   */
  datatype SummarizationOutput =
    | ArrayOutput(items: seq<Option<string>>)
    | ObjectOutput(summaryText: Option<string>)

  /** The endpoints the adapter calls, with the model and the `inputs` string sent. */
  datatype Endpoint =
    | Summarization(model: string, inputs: string)
    | TextGeneration(model: string, inputs: string)

  /** How the adapter settled, and the calls it made in order. */
  datatype Run = Run(result: Settled<string>, calls: seq<Endpoint>)

  function Min(a: nat, b: nat): nat {
    if a <= b then a else b
  }

  /** JavaScript `s.substring(0, n)`, which clamps `n` to the length of `s`. */
  function Prefix(s: string, n: nat): (r: string)
    ensures |r| == Min(|s|, n)
    ensures r == s[..|r|]
  {
    if |s| <= n then s else s[..n]
  }

  /** The input of the summarization call: the text, cut to its first 1024 characters when longer. */
  function TruncatedInput(text: string): (t: string)
    ensures |t| == Min(|text|, MaxInputLength)
    ensures t == text[..|t|]
    ensures |text| <= MaxInputLength ==> t == text
  {
    if |text| > MaxInputLength then Prefix(text, MaxInputLength) else text
  }

  /** The prompt of the fallback call: the fixed instruction, then at most 512 characters of the original text. */
  function FallbackPrompt(text: string): (p: string)
    ensures |p| == |FallbackInstruction| + Min(|text|, FallbackExcerptLength)
    ensures p[..|FallbackInstruction|] == FallbackInstruction
    ensures p[|FallbackInstruction|..] == text[..Min(|text|, FallbackExcerptLength)]
  {
    FallbackInstruction + Prefix(text, FallbackExcerptLength)
  }

  /** `value || 'Failed to generate summary'`: a missing or empty string becomes the placeholder. */
  function OrNoSummary(value: Option<string>): (s: string)
    ensures s != ""
    ensures Truthy(value) ==> s == value.value
    ensures !Truthy(value) ==> s == NoSummaryText
  {
    if Truthy(value) then value.value else NoSummaryText
  }

  /** The summary read from a successful summarization call: the first item's, or the object's, `summary_text`. */
  function PrimarySummary(output: SummarizationOutput): (s: string)
    ensures s != ""
    ensures output.ArrayOutput? ==>
              s == if |output.items| > 0 then OrNoSummary(output.items[0]) else NoSummaryText
    ensures output.ObjectOutput? ==> s == OrNoSummary(output.summaryText)
  {
    match output
    case ArrayOutput(items) => if |items| > 0 then OrNoSummary(items[0]) else NoSummaryText
    case ObjectOutput(summaryText) => OrNoSummary(summaryText)
  }

  /**
   * summarizeWithHuggingFace: the summarization call on the truncated text; if
   * (and only if) it throws, one text-generation call on the fallback prompt;
   * if that throws too, a typed failure.
   */
  function SummarizeWithHuggingFace(
    text: string, model: string,
    primary: Call<SummarizationOutput>, fallback: Call<Option<string>>): (run: Run)
    // the summarization call always comes first, with the truncated text
    ensures |run.calls| >= 1 && run.calls[0] == Summarization(model, TruncatedInput(text))
    // the fallback is made exactly once, and only when the summarization call threw
    ensures |run.calls| == (if primary.Threw? then 2 else 1)
    ensures primary.Threw? ==> run.calls[1] == TextGeneration(model, FallbackPrompt(text))
    // what each path returns
    ensures primary.Returned? ==> run.result == Fulfilled(PrimarySummary(primary.value))
    ensures primary.Threw? && fallback.Returned? ==> run.result == Fulfilled(OrNoSummary(fallback.value))
    // failure only when both calls threw, and never an empty summary
    ensures run.result.Rejected? <==> primary.Threw? && fallback.Threw?
    ensures run.result.Rejected? ==> run.result.reason == BothFailedMessage
    ensures run.result.Fulfilled? ==> run.result.value != ""
  {
    var first := Summarization(model, TruncatedInput(text));
    match primary
    case Returned(output) => Run(Fulfilled(PrimarySummary(output)), [first])
    case Threw =>
      var second := TextGeneration(model, FallbackPrompt(text));
      match fallback
      case Returned(generated) => Run(Fulfilled(OrNoSummary(generated)), [first, second])
      case Threw => Run(Rejected(BothFailedMessage), [first, second])
  }
}
