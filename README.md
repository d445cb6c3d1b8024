# Summarizer Showdown: a Dafny model of its decision logic

Summarizer Showdown sends one text to two summarizers and shows both summaries side by side. One is a closed-source model behind the OpenAI API. The other is an open-source model hosted on HuggingFace. The user rates both summaries and picks one, and a report card aggregates all ratings of the session. This project models the four places where that application decides something, and proves what each one promises:

- `Aggregator` (aggregator.dfy): `calculateReportData` on the home page. It folds the submitted ratings into six per-criterion averages, two preference counts and a total. The fold is proved equal to an independent head-first sum. From that follow the report's invariants: the counts add up to the total, every average stays within the slider range, and the report does not depend on the order of the ratings.
- `Home` (home.dfy): the session's rating history. It is a class with a `seq` field that `Submit` grows at the end (`handleRatingSubmit`). The module also holds the `canRate` guard, and a lemma that every successful reply of the endpoint enables rating.
- `Gateway` (gateway.dfy): the `/api/summarize` handler. It runs an ordered chain of request checks, each with its status code and message. It then combines the two settled adapter outcomes into one response, with a fixed placeholder for each side.
- `ReportCard` (report_card.dfy): the winner rule, the winner count and percentage, the mean score, and the choice between the no-data view and the summary view.
- `HuggingFace` (huggingface.dfy): the open-model adapter. It truncates the input, makes the summarization call, makes a single text-generation fallback when that call throws, substitutes placeholders for missing text, and fails with a typed error when both calls throw.
- `OpenAI` (openai.dfy): the closed-model adapter. It keeps only the decision made once the remote call has settled.
- `Types` (types.dfy) holds the records of types/index.ts. `Reals` (reals.dfy) holds one division fact used for the averages and the percentage.

Remote calls are not modelled. Each one is an abstract outcome given as a parameter: `Call.Returned(v)` or `Call.Threw` for an adapter's own call, and `Settled.Fulfilled(s)` or `Settled.Rejected(reason)` for an adapter as the endpoint sees it. The open-model adapter returns the list of calls it made, with their arguments, next to its result. That list is how the model states "the fallback is made exactly once, and only after the summarization call threw".

Averages and percentages are exact `real`s. Scores are `int`s, and the 1..5 slider range (components/RatingPanel.tsx:44-46) is a precondition of the lemmas that need it. `Submit` itself accepts any rating, as the page does.

## Model

| member | source | states |
|---|---|---|
| `Aggregator.CalculateReportData` | pages/index.tsx:63-119 | an empty history gives the all-zero report; the total is the number of ratings, and the two preference counts add up to it; its averages are stated by `Aggregator.ReportAverages` and their bounds by `Aggregator.AveragesInRange` |
| `Aggregator.Step` | pages/index.tsx:76-85 | the `reduce` callback adds to each of the eight slots exactly that rating's score for it, or 1 to the slot of the preferred class |
| `Aggregator.Fold` | pages/index.tsx:75-96 | the `reduce` from the all-zero accumulator; its two preference slots add up to the number of ratings folded; `Aggregator.FoldIsTotal` relates every slot to the independent sum |
| `Aggregator.FoldIsTotal` | pages/index.tsx:75-96 | each of the eight slots of the `reduce` accumulator equals the sum of that quantity over the history, defined independently from the front |
| `Aggregator.TotalAppend` | pages/index.tsx:75-96 | a rating added at the end adds exactly its own score or preference to each sum |
| `Aggregator.TotalPermutation` | pages/index.tsx:75-96 | each accumulated sum depends only on the multiset of ratings |
| `Aggregator.EmptyHistoryReport` | pages/index.tsx:63-73 | an empty history gives all six averages 0, both preference counts 0 and a total of 0 |
| `Aggregator.ReportAverages` | pages/index.tsx:98-111 | for a non-empty history, each average is that class's sum for that criterion divided by the number of ratings |
| `Aggregator.ReportPreferences` | pages/index.tsx:83-116 | each preference count is the number of ratings that prefer that class |
| `Aggregator.ReportPermutationInvariant` | pages/index.tsx:75-96 | any reordering of the history gives the same report |
| `Aggregator.AveragesInRange` | pages/index.tsx:100-111 | when every score is in 1..5, every average of a non-empty history is in [1, 5] |
| `Aggregator.ReportAfterAppend` | pages/index.tsx:59-61 | appending a rating raises the total by 1 and the chosen class's count by 1, and leaves the other count unchanged |
| `Aggregator.TwoRatingExample` | pages/index.tsx:63-119 | two ratings with closed clarities 3 and 5 and open clarities 2 and 4, one preference each, give averages 4.0 and 3.0, counts 1 and 1, and a total of 2 |
| `Home.RatingHistory.constructor` | pages/index.tsx:20 | a session starts with no ratings and the empty report |
| `Home.RatingHistory.Report` | pages/index.tsx:63-119 | the report of the current history counts every rating once, and its two counts add up to the total |
| `Home.RatingHistory.Submit` | pages/index.tsx:59-61 | the new history is the old one with the rating appended; the total and the chosen class's count rise by 1, and the other count stays; the history stays within the slider range exactly when it was before and the new rating is |
| `Home.CanRate` | pages/index.tsx:121 | rating is enabled exactly when a response exists and both of its summaries are non-empty |
| `Home.SuccessfulReplyEnablesRating` | pages/api/summarize.ts:56-78 | every successful reply enables rating, whatever the remote calls did, because neither adapter returns an empty summary and both placeholders are non-empty |
| `Gateway.RequestError` | pages/api/summarize.ts:23-48 | a request passes the chain exactly when the method is POST, all three fields are non-empty, the text has 50 to 10000 characters, and both ids resolve; 405 is returned exactly for a wrong method; every error is one of the five fixed status and message pairs |
| `Gateway.Validate` | pages/api/summarize.ts:42-48 | a request that passes is dispatched with its own text and with the provider ids its two short ids map to; both short ids are registered |
| `Gateway.Resolves` | pages/api/summarize.ts:43-48 | with own-property lookup, an id resolves exactly when it is registered with a non-empty value; a registered id resolves under either rule; an unregistered id resolves only through the prototype chain, and only when it is an inherited name |
| `Gateway.SummaryOr` | pages/api/summarize.ts:59-71 | a fulfilled side yields its value, a rejected side yields exactly its placeholder; the result is non-empty when the placeholder and any fulfilled value are |
| `Gateway.Handle` | pages/api/summarize.ts:56-78 | the reply is a success exactly when validation passes; a refusal carries the validation error; a success echoes the request's short model ids |
| `Gateway.NonPostRefusedFirst` | pages/api/summarize.ts:23-25 | any method other than POST gets 405 "Method not allowed", whatever the body holds |
| `Gateway.MissingFieldRefused` | pages/api/summarize.ts:30-32 | a missing or empty text, closed id or open id gets 400 "Missing required fields" |
| `Gateway.LengthBounds` | pages/api/summarize.ts:34-40 | a text under 50 characters and a text over 10000 characters get their own 400 messages; lengths 50 and 10000 pass both length checks |
| `Gateway.UnknownModelRefused` | pages/api/summarize.ts:43-48 | an unregistered id gets 400 "Invalid model selection" only when the text length is in bounds; otherwise the length error comes first |
| `Gateway.OnlyRegisteredModelsPass` | pages/api/summarize.ts:43-48 | with own-property lookup, an accepted request names a registered model on both sides |
| `Gateway.SelectorIdsResolve` | pages/api/summarize.ts:7-17 | the closed registry holds exactly the closed ids the model selector offers; the open registry is exactly the selector's id-to-hosted-model pairs; `gpt-4-turbo` maps to `gpt-4-turbo-preview`; every open id maps to a `facebook/` or `google/` model |
| `Gateway.RefusalIgnoresAdapters` | pages/api/summarize.ts:23-54 | a refused request gets the same 400 or 405 reply however the adapters would have settled, so they are not reached |
| `Gateway.SidesIndependent` | pages/api/summarize.ts:59-71 | a rejected side gets exactly its own placeholder, and a fulfilled side passes its value through unchanged, whatever the other side did; the two placeholders differ |
| `Gateway.ResponseEchoesShortIds` | pages/api/summarize.ts:73-78 | the adapter is given `gpt-4-turbo-preview`, but the response carries the requested `gpt-4-turbo` |
| `Gateway.InheritedNamePassesAsWritten` | pages/api/summarize.ts:43-48 | with the lookup as written, the unregistered id "constructor" passes every check, while own-property lookup refuses it |
| `ReportCard.WinnerType` | components/ReportCard.tsx:50 | the closed class wins exactly when it has strictly more preferences; a tie goes to the open class |
| `ReportCard.WinnerCount` | components/ReportCard.tsx:51 | the winner count is at least each class's count, and it is the count of the class `WinnerType` picks |
| `ReportCard.WinnerPercentage` | components/ReportCard.tsx:52 | the winner count over the total, times 100, for a positive total; when the two counts add up to the total it is in [50, 100] |
| `ReportCard.AverageScore` | components/ReportCard.tsx:54-56 | the mean score lies between the smallest and the largest of the three criterion averages, and equals them when they agree |
| `ReportCard.Render` | components/ReportCard.tsx:50-122 | the no-data view is shown exactly when the total is 0; otherwise the view shows the winner, its percentage, and the mean score of the closed averages and of the open averages, each on its own side |
| `ReportCard.HistoryView` | components/ReportCard.tsx:58-122 | over an aggregated history, the no-data view appears exactly when no rating was submitted; otherwise the winner percentage is in [50, 100], and with in-range scores both mean scores are in [1, 5] |
| `HuggingFace.Prefix` | lib/huggingface.ts:9 | `substring(0, n)` yields the first min(length, n) characters |
| `HuggingFace.TruncatedInput` | lib/huggingface.ts:8-9 | the summarization input is a prefix of the text of length min(length, 1024), and is the text itself when it has at most 1024 characters |
| `HuggingFace.FallbackPrompt` | lib/huggingface.ts:33 | the fallback prompt is the fixed instruction followed by the first min(length, 512) characters of the untruncated text |
| `HuggingFace.OrNoSummary` | lib/huggingface.ts:41 | a present, non-empty text passes through; otherwise the result is "Failed to generate summary"; the result is never empty |
| `HuggingFace.PrimarySummary` | lib/huggingface.ts:21-25 | the summary is the `summary_text` of the array's first element or of the object itself, or the placeholder when that is missing or empty |
| `HuggingFace.SummarizeWithHuggingFace` | lib/huggingface.ts:5-46 | the summarization call on the truncated text comes first; the fallback on the fallback prompt is made exactly once, and only when that call threw; the adapter fails with "Failed to generate summary with HuggingFace" exactly when both calls threw; a returned summary is never empty |
| `OpenAI.SummarizeWithOpenAI` | lib/openai.ts:27-31 | the adapter fails exactly when its call threw, with its fixed message; a returned summary is the completion's content when that is present and non-empty, and exactly "Failed to generate summary" otherwise, so it is never empty |

## Left out

- The remote calls: the OpenAI chat completion, the two HuggingFace inference calls and their parameters (output lengths, temperature, sampling). Each call is an abstract outcome.
- The closed-model prompt and system message (lib/openai.ts:9-25). Nothing in the model depends on them.
- The concurrency of `Promise.allSettled` (pages/api/summarize.ts:51-54). The two settled outcomes are parameters of `Gateway.Handle`. The model does not tie those outcomes to the `Dispatch` arguments that `Gateway.Validate` computes.
- Transport and logging: `res.status().json()`, `console.error`, and the generic 500 reply of the catch block (pages/api/summarize.ts:80-84).
- The page's `handleSummarize` (pages/index.tsx:22-57): fetch, alert, the loading flag, and the client-side trim and field check. `Home.CanRate` takes the `summaries` state as a parameter.
- Floating point: averages and percentages are exact reals. Neither IEEE rounding nor `toFixed(1)` formatting is modelled.
- ReportCard.WinnerPercentage: defined only for a positive total. At total 0 the source computes NaN before the no-data guard, and never shows it.
- Text lengths are counted in Dafny characters (Unicode scalar values). JavaScript counts UTF-16 code units, so the 50, 1024, 512 and 10000 limits differ for text outside the Basic Multilingual Plane.
- Request fields are strings or absent. A JSON body with a number or an array in these fields is not modelled.
- Gateway.InheritedNames: lists eight members of Object.prototype, not every inherited name a JavaScript engine provides.
- Loading the credentials from environment variables (lib/huggingface.ts:3, lib/openai.ts:3-5).
- User-interface components: slider and radio state in components/RatingPanel.tsx (only its 1..5 bounds are used), components/InputBox.tsx, the static lists of components/ModelSelector.tsx (only their ids are used), and the charts of components/ReportCard.tsx.

## Findings

| source | as written | input that shows it | evidently intended | confidence | as-written member | corrected member |
|---|---|---|---|---|---|---|
| pages/api/summarize.ts:43-48 | the registries are plain object literals indexed with the request's id, so a name inherited from Object.prototype yields a truthy function and passes the "Invalid model selection" check | POST with a 50-character text, closedModel "constructor", openModel "bart-large-cnn" | only the registered ids pass; any other id gets 400 "Invalid model selection" | high, not executed | `Gateway.InheritedNamePassesAsWritten` | `Gateway.Validate` |

The rest of the model uses the corrected own-property lookup (`Gateway.Validate` and `Gateway.Handle`). `Gateway.RequestError` takes the lookup rule as a parameter, so the chain is written once for both readings.
