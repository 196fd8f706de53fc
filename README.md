# E-com-AI server core, modelled in Dafny

This project models the server core of E-com-AI, a game shop with a chat assistant:

- **Agent (`server/agent.ts`).** The assistant is a LangGraph agent.
  - A model node and a tool node share a `messages` history. Its reducer concatenates.
  - A conditional edge, `shouldContinue`, sends the run to the tool node while the last message asks for tool calls.
  - The model call is wrapped in `retryWithBackOff`. This retries on HTTP 429 with an exponential, capped wait.
  - The single tool, `item_lookup`, is described below.
  - `callAgent` turns a caught error into one of three errors: rate limited, authentication failed, or a generic "Agent failed:".
- **Item lookup.** The `item_lookup` tool works in stages:
  - It counts the inventory and answers "empty" when the count is zero.
  - Otherwise it embeds the query and runs a vector search.
  - When that search finds nothing, it falls back to a text search on the trimmed query.
  - An error object thrown by any of these calls is returned as an error payload.
- **Seeding (`server/seed-database.ts`).** This script seeds the inventory:
  - It scrapes games and asks a language model to complete them into full records.
  - It sanitises the answer.
  - It hands the sanitised answer to the schema parser. The source follows this with a fallback: `JSON.parse` plus a per-element normaliser. The parser's promise is returned from the `try` without `await`, so a rejection escapes the `catch` and fails the whole run; the fallback never runs (see "## Findings").
  - It saves the records one by one. A failed save is caught, and the run moves on to the next record.
  - It returns early when nothing was scraped or generated.
- **The variant seeder (`server/tst.ts`).** It embeds every record by a text summary (`createItemSummary`). Its save loop has no catch of its own, so the first failed save abandons the remaining records.

Services are oracles passed as parameters:

- MongoDB, the Gemini model, the embeddings, the scraper and `uuidv4()`.
- Each one is a function from the call (or its index) to a `Completion`, which either returns a value or throws a `JsError`. Two are not: `uuidv4()` is a function from the record's index directly to the identifier, and `JSON.parse` gives an `Option` of a JSON document.

The operations return what they would have done instead of doing it:

- the calls they made;
- the waits they would have slept;
- the indices of the saves they attempted;
- the records stored;
- the number of `client.close()` calls.

Modules:

- `Js`: the JavaScript semantics the core relies on:
  - thrown values;
  - `\s` and `String.prototype.trim`;
  - `Array.prototype.join`;
  - decimal rendering of integers;
  - JSON values and truthiness.
- `Retry`: `retryWithBackOff`.
- `ItemLookup`: the lookup tool.
- `AgentGraph`: the reducer, `shouldContinue` and the error mapping.
- `Sanitize`: `sanitizeLLMOutput`.
- `SyntheticData`: `generateSynteticData` after the model call, including the fallback normaliser.
- `Seeding`: `seedDatabase` of `server/seed-database.ts`.
- `ItemSummary`: `createItemSummary` and the save loop of `server/tst.ts`.

Three behaviours of the code are easy to misread:

- **The lookup limit `n`.** The lookup uses `n` as given. The default 10 replaces it only when it is omitted, so zero and negative values pass through. The limit is never clamped (see `ItemLookup.EffectiveLimit`).
- **Exhausted retries.** When the retries are used up on a 429, `retryWithBackOff` rethrows the last 429 error unchanged. It does not raise a distinct error; it is `callAgent` that maps the 429 to its rate-limit error (see `Retry.AlwaysRateLimited` and `AgentGraph.RateLimitExhaustionReported`).
- **"Max retries exceeded".** This error is thrown only when `maxRetries < 1` (see `Retry.MaxRetriesExceededOnlyWithoutAttempts`). The only caller, `callModel`, passes no `maxRetries`, so the default 3 applies and the error cannot reach `callAgent` (see `Retry.DefaultRetries`). `AgentGraph.NoAttemptReported` states what `callAgent` would report if a caller passed a smaller value.

## Model

| member | source | states |
|---|---|---|
| Js.IsSpace | server/seed-database.ts:36 | space, tab, `\n` and `\r` are white space; digits, letters and the JSON punctuation `, [ ] { } " :` are not |
| Js.LeadingSpace | server/seed-database.ts:36 | the greedy `\s*` run at the start of a text: all white space, and not followed by white space |
| Js.LeadingSpaceAppend | server/seed-database.ts:36 | the leading white space of `t + u` is that of `t`, or all of `t` followed by that of `u` when `t` is all white space |
| Js.TrailingSpace | server/agent.ts:109 | the run of white space at the end of a text: all white space, and not preceded by white space |
| Js.Trim | server/agent.ts:109 | the result is the slice of the input after its leading white space; it neither starts nor ends with white space |
| Js.TrimDropsOnlySpace | server/agent.ts:109 | everything `trim` drops, before and after the kept text, is white space |
| Js.TrimIdempotent | server/agent.ts:109 | trimming a trimmed query changes nothing |
| Js.Join | server/tst.ts:114-120 | joining no parts gives ""; the joined text starts with the first part and ends with the last |
| Js.JoinConcat | server/tst.ts:114 | joining `a + b` is joining `a`, one separator, and joining `b`: order kept, nothing else inserted |
| Js.JoinLength | server/tst.ts:114-120 | the joined text is as long as all parts plus one separator between each neighbouring pair |
| Js.NatToDecimal | server/seed-database.ts:88 | an index renders as a non-empty string of digits with no leading zero |
| Js.NatToDecimalRoundTrip | server/seed-database.ts:88 | reading the decimal rendering back gives the number |
| Js.Truthy | server/seed-database.ts:89-91 | a property is falsy exactly when it is absent, null, false, 0 or "" |
| Js.OrDefault | server/seed-database.ts:89-91 | the or-expression with a default is `v` when `v` is truthy and the default otherwise |
| Js.IntToString | server/tst.ts:118-122 | `${n}` of an integer starts with "-" exactly when it is negative, and its digits read back as the number's magnitude |
| Js.ConcatPlaces | server/tst.ts:125-127 | writing parts one after the other, as a template literal does, puts every part at the offset where the parts before it end |
| Js.PlacesDetermines | server/tst.ts:125-127 | a text made of given parts in order, as `Places` states, is their concatenation: nothing else fits |
| Js.Indices | server/seed-database.ts:140 | a `for ... of` over n elements visits 0 .. n-1 in order |
| Retry.BackoffDelay | server/agent.ts:35 | every wait is between 1 s and the 30 s cap |
| Retry.IsRateLimited | server/agent.ts:28-33 | an error without a `status` is never retried; a retried error has status 429 |
| Retry.Pow2Monotone | server/agent.ts:35 | the power of two in the wait grows with the attempt number |
| Retry.BackoffSchedule | server/agent.ts:35 | the waits after attempts 1-4 are 2, 4, 8 and 16 s; from attempt 5 on they are capped at 30 s; no wait exceeds 30 s |
| Retry.RetryWithBackOff | server/agent.ts:20-45 | the loop's outcome, number of calls and waits are exactly those of the reference run `RetryRun` from attempt 1 |
| Retry.RetryRun | server/agent.ts:24-44 | no call is made exactly when the start attempt is past maxRetries; a run makes one wait fewer than it makes calls |
| Retry.RetryRunCharacterized | server/agent.ts:24-44 | every call but the last threw a 429 and was followed by its backoff wait; the last call decides the outcome; a 429 is rethrown only on the last permitted attempt; no call is made exactly when "Max retries exceeded" is the outcome, and that happens exactly when the start is past maxRetries |
| Retry.CallsBounded | server/agent.ts:24 | `fn` is called between 1 and maxRetries times, or never when maxRetries < 1 |
| Retry.MaxRetriesExceededOnlyWithoutAttempts | server/agent.ts:44 | "Max retries exceeded" iff maxRetries < 1, and then with no call and no wait |
| Retry.FirstSuccessReturned | server/agent.ts:24-38 | after k-1 rate-limited attempts, a successful attempt k is returned after exactly k calls, with waits BackoffDelay(1..k-1) |
| Retry.NonRateLimitErrorRethrownAtOnce | server/agent.ts:28-40 | an error other than 429 is rethrown unchanged after one call and no wait |
| Retry.AlwaysRateLimited | server/agent.ts:28-40 | when every attempt hits 429, `fn` is called maxRetries times and the last 429 is rethrown unchanged after maxRetries-1 waits |
| Retry.DefaultRetries | server/agent.ts:20-24 | with the default maxRetries of 3 that `callModel` (line 191) uses, the model is called one to three times, "Max retries exceeded" cannot happen, and the waits are at most 2 s and then 4 s |
| ItemLookup.EffectiveLimit | server/agent.ts:64 | the limit is 10 when `n` is omitted and `n` itself otherwise |
| ItemLookup.ScoredHits | server/agent.ts:132-137 | the vector results are kept as (document, score) pairs, in order |
| ItemLookup.PlainHits | server/agent.ts:125-130 | the text results are kept as bare documents, in order |
| ItemLookup.ItemLookUp | server/agent.ts:64-152 | the inventory is counted first; the empty-inventory payload is returned iff the count is 0; found and error payloads echo the untrimmed query; `count` is the number of results; text search happens at most once, as the last call, on the trimmed query with the effective limit |
| ItemLookup.EmptyInventorySearchesNothing | server/agent.ts:68-77 | an empty inventory gives the empty payload with count 0 after the count call alone |
| ItemLookup.VectorResultsUsed | server/agent.ts:97-137 | a non-empty vector result is returned tagged "vector", after exactly count, sample, embed and vector search |
| ItemLookup.EmptyVectorResultFallsBackToText | server/agent.ts:106-131 | an empty vector result leads to one text search on the trimmed query with the same limit, whose documents are returned tagged "text" |
| ItemLookup.ThrownErrorBecomesPayload | server/agent.ts:138-151 | whichever of the five calls throws first, the payload is "Failed to search inventory" with that error's message and the query |
| AgentGraph.Reduce | server/agent.ts:58-60 | the merged history is the old history followed by the update, both unchanged |
| AgentGraph.HistoryAppendOnly | server/agent.ts:57-60 | after any number of node updates the history is the original followed by all updates in order |
| AgentGraph.ShouldContinue | server/agent.ts:179-188 | the route is "tools" iff the last message has a non-empty `tool_calls` |
| AgentGraph.RouteFollowsLatestUpdate | server/agent.ts:179-188 | after a non-empty update is merged, the route depends on that update alone |
| AgentGraph.ClassifyAgentError | server/agent.ts:245-258 | rate-limit error iff status 429; authentication error iff status 401; otherwise "Agent failed:" plus the message ("undefined" when absent) |
| AgentGraph.RetriedExactlyWhenRateLimited | server/agent.ts:28-33 | the errors the retry loop retries are exactly those `callAgent` (line 249) reports as the rate-limit error |
| AgentGraph.RetryError | server/agent.ts:40-44 | a rethrown error is the error itself; otherwise the error has no status and the message "Max retries exceeded" |
| AgentGraph.RateLimitExhaustionReported | server/agent.ts:191-214 | a model call that hits 429 on every one of its maxRetries attempts reaches the caller as the rate-limit error |
| AgentGraph.NoAttemptReported | server/agent.ts:191-214 | with maxRetries < 1 the model would never be called and the caller would see "Agent failed:Max retries exceeded"; `callModel` never passes such a value |
| Sanitize.ReplaceNewlines | server/seed-database.ts:35 | no newline remains; the text does not grow; only spaces are introduced |
| Sanitize.NewlinesWithoutCarriageReturn | server/seed-database.ts:35 | without `\r`, each `\n` becomes one space and every other character stays in place |
| Sanitize.CrLfIsOneSpace | server/seed-database.ts:35 | `\r\n` becomes one space; a lone `\r` stays |
| Sanitize.ReplaceNewlinesConcat | server/seed-database.ts:35 | the rewrite of `a + b` is the rewrite of `a` followed by that of `b`, unless `a` ends with `\r` and `b` starts with `\n` |
| Sanitize.CrLfIsOneSpaceAnywhere | server/seed-database.ts:35 | anywhere in a text, `\r\n` becomes one space and the text on either side is rewritten on its own |
| Sanitize.LfIsOneSpaceAnywhere | server/seed-database.ts:35 | a `\n` with no `\r` before it becomes one space, the text on either side rewritten on its own |
| Sanitize.LoneCarriageReturnStays | server/seed-database.ts:35 | a `\r` with no `\n` after it stays, the text on either side rewritten on its own |
| Sanitize.ReplaceTabs | server/seed-database.ts:35 | each tab becomes a space, everything else stays in place |
| Sanitize.DropTrailingCommas | server/seed-database.ts:36 | the text does not grow and no character is introduced |
| Sanitize.NoTrailingCommaUnchanged | server/seed-database.ts:36 | a text in which no comma is followed by white space and `]` is left exactly as it is |
| Sanitize.DropTrailingCommasConcat | server/seed-database.ts:36 | the rewrite of `p + r` is the rewrite of `p` followed by that of `r` when `r` starts with neither white space nor `]` |
| Sanitize.DropStep | server/seed-database.ts:36 | one step of the rewrite of `p + r` consumes the same characters of `p` as one step of the rewrite of `p` alone |
| Sanitize.DropAtMatch | server/seed-database.ts:36 | a comma, any white space and `]` at the start of a text become `]`, and the rest is rewritten on its own |
| Sanitize.DropSplitAtMatch | server/seed-database.ts:36 | anywhere in a text, a comma followed by white space and `]` becomes `]`, and the text on either side is rewritten on its own |
| Sanitize.EssentialOfClosing | server/seed-database.ts:36 | white space up to a `]` is dropped, and the `]` kept, when commas and white space are ignored |
| Sanitize.DropTrailingCommasDeletesOnlyCommasAndSpaces | server/seed-database.ts:36 | ignoring commas and white space, the rewrite changes nothing: every other character survives in order |
| Sanitize.SinglePass | server/seed-database.ts:36 | the rewrite is one non-overlapping pass: `,,]` becomes `,]` |
| Sanitize.TrailingCommaBeforeSpaces | server/seed-database.ts:36 | a comma followed by a newline, a space and `]` goes with that white space; a comma not followed by `]` stays |
| Sanitize.Cleaned | server/seed-database.ts:35-36 | after the newline, tab and trailing-comma rewrites the text is no longer, holds no newline and no tab, and holds only characters of the input or spaces |
| Sanitize.FirstIndexOf | server/seed-database.ts:37 | the index of the first occurrence, or none when there is no occurrence |
| Sanitize.LastIndexOf | server/seed-database.ts:37 | the index of the last occurrence, or none when there is no occurrence |
| Sanitize.BracketSpan | server/seed-database.ts:37-38 | a match exists iff some `[` has a `]` after it; the match runs from the first `[` to the last `]` |
| Sanitize.SanitizeLlmOutput | server/seed-database.ts:34-41 | the result starts with `[` and holds no newline and no tab |
| Sanitize.SpanKept | server/seed-database.ts:37-38 | when a bracket span exists, the result is exactly that span |
| Sanitize.WrappedWithoutSpan | server/seed-database.ts:39 | without a span, text not starting with `[` is wrapped in brackets; "" becomes "[]" |
| SyntheticData.Property | server/seed-database.ts:89-91 | `item.key` is present exactly on an object holding the key, and is then that field |
| SyntheticData.IndexKeyedAt | server/seed-database.ts:88 | spreading a list puts every element under its decimal index |
| SyntheticData.IndexKeyedKey | server/seed-database.ts:88 | spreading a list creates no key other than the decimal indices, each holding its element |
| SyntheticData.Characters | server/seed-database.ts:88 | a string spreads as its characters, each a one-character string, in order |
| SyntheticData.Spread | server/seed-database.ts:88 | `{...item}` copies an object's fields, puts an array's or a string's elements under their decimal indices and no other key, and gives nothing for null, booleans and numbers |
| SyntheticData.Normalize | server/seed-database.ts:87-92 | null throws (none); otherwise the keys are the spread keys plus price, item_description and item_id; other fields are copied; each of the three is kept when truthy and replaced by 0, "No description available" or the fresh id otherwise |
| SyntheticData.NormalizeIdempotent | server/seed-database.ts:87-92 | normalising a normalised record again changes nothing |
| SyntheticData.NormalizeAll | server/seed-database.ts:87-92 | the mapping throws iff some element is null; otherwise it keeps length and order, element i being normalised with fresh id i |
| SyntheticData.GenerateSyntheticData | server/seed-database.ts:79-83 | as written: the result settles exactly as the schema parser's promise on the sanitised text settles, a rejection included |
| SyntheticData.GenerateSyntheticDataAwaited | server/seed-database.ts:79-98 | in the version with the `await`: a resolved schema parse is returned as it is; after a rejection a non-empty result only comes from a null-free JSON array, one record per element |
| SyntheticData.MissingAwaitSkipsFallback | server/seed-database.ts:82-85 | as written, a schema rejection is the result whatever `JSON.parse` makes of the text; with the `await`, a null-free non-empty array would have given as many records |
| SyntheticData.SchemaParseWins | server/seed-database.ts:80-83 | what the schema parser resolves to from the sanitised text is returned as it is, with or without the `await` |
| SyntheticData.FallbackNormalizesEveryElement | server/seed-database.ts:84-93 | in the version with the `await`: when the schema parser rejects and the text is a null-free JSON array, each element is normalised, in order |
| SyntheticData.BothParsersFailGivesEmpty | server/seed-database.ts:84-97 | in the version with the `await`: when both parsers fail, the result is the empty list |
| Seeding.KeptIsEverySuccessfulSave | server/seed-database.ts:140-157 | every record whose save succeeds is stored, whatever failed before it, and only such records are |
| Seeding.OneFailureLosesOneRecord | server/seed-database.ts:140-157 | a single failing save loses exactly that record; the ones before and after it are stored in order |
| Seeding.AllSavedKeepsAll | server/seed-database.ts:140-157 | when every save succeeds, every record is stored in order |
| Seeding.SeedDatabase | server/seed-database.ts:101-166 | for each path (setup failure, scrape failure, nothing scraped, model failure, schema rejection, nothing generated, completion): how the run ends, the saves attempted, the records stored, and the number of client closes (two on an early return); a schema rejection fails the run with nothing saved and one close |
| ItemSummary.RenderReview | server/tst.ts:118 | a review text opens with "Rated {rating} on ", has the review date right after that, ends with ": {comment}", and is exactly as long as these parts |
| ItemSummary.ReviewPlacesParts | server/tst.ts:118 | a review text is "Rated ", the rating, " on ", the date, ": " and the comment, each at its offset, and nothing else |
| ItemSummary.ReviewsText | server/tst.ts:115-120 | no reviews give ""; otherwise the text opens with the first review's text and ends with the last one's |
| ItemSummary.BasicInfo | server/tst.ts:121 | the basic info opens with the name and a space and ends with " from brand {brand}" |
| ItemSummary.BasicInfoPlacesParts | server/tst.ts:121 | the basic info is the name, " ", the description, " from brand " and the brand, each at its offset, and nothing else |
| ItemSummary.PriceText | server/tst.ts:122 | the price text opens with "At full price {full} SEK, On sale " and ends with " SEK" |
| ItemSummary.PricePlacesParts | server/tst.ts:122 | the price text is the full price and the sale price, each at its offset between the fixed words, and nothing else |
| ItemSummary.RenderReviews | server/tst.ts:115-119 | one review text per review, in order |
| ItemSummary.CreateItemSummary | server/tst.ts:111-131 | the summary opens with "{name} {description} from brand {brand}." and ends with the notes |
| ItemSummary.TemplateEnds | server/tst.ts:125-127 | whatever the parts, the summary template opens with the basic info and a full stop and ends with the notes |
| ItemSummary.SummaryPlacesParts | server/tst.ts:113-127 | the summary is the basic info, "Made in {country}", the categories joined by ", ", the review texts, the price text and the notes, in that order, each at its offset between the template's fixed words, and nothing else |
| ItemSummary.SummaryIgnoresAddressDetails | server/tst.ts:113 | only the manufacturer's country enters the summary |
| ItemSummary.NoReviewsNoText | server/tst.ts:115-120 | no reviews give an empty review text |
| ItemSummary.RenderReviewsConcat | server/tst.ts:115-119 | rendering `a + b` renders `a`, then `b` |
| ItemSummary.ReviewsKeepOrder | server/tst.ts:115-120 | reviews appear in their order, one space apart |
| ItemSummary.CategoriesKeepOrder | server/tst.ts:114-126 | the summary lists the categories in their order, ", " apart: categories `a + b` give the summary of the single category "{a joined}, {b joined}" |
| ItemSummary.ToDocument | server/tst.ts:150-153 | the document's metadata is the record; its content opens with the record's basic info and ends with its notes |
| ItemSummary.Documents | server/tst.ts:149-154 | one document per record, in order, each being the record's summary as content and the record as metadata |
| ItemSummary.FirstFailure | server/tst.ts:156-172 | the first index whose save throws, with every earlier save succeeding; none when all succeed |
| ItemSummary.SaveUntilFailure | server/tst.ts:156-172 | saves run in order until the first that throws; that error ends the loop with the earlier documents stored and records 0..k attempted; otherwise all are stored |
| ItemSummary.SeedWithSummaries | server/tst.ts:133-180 | setup or generation failure stores nothing; otherwise the documents are saved until the first failure, whose error ends the run; the client is closed once |

## Left out

- Logging (`console.log`/`console.error`) and the actual sleeping of `retryWithBackOff`: the waits are returned as a list instead.
- The network and foreign services are oracles passed as parameters: MongoDB, Gemini chat and embeddings, the scraper, and `uuidv4()`. Their behaviour, like the Atlas vector index or the meaning of the `$regex` and `$options: "i"` text query, is not modelled.
- The LangGraph runtime is not modelled: node scheduling, the `recursionLimit` of 15, checkpointing to MongoDB, and prompt formatting. The reducer and the routing function are modelled; the prompt text is not part of the model.
- `callAgent` outside its catch block is not modelled: database and graph construction, and reading the last message's content.
- `JSON.stringify` of the tool's payload is not modelled: the payload is returned as a datatype.
- `JSON.parse` and the zod schema parser are oracles. Schema validation itself is not modelled. The schema parser's `parse` is asynchronous: its oracle gives how its promise settles, a resolution or a rejection.
- Numbers are not modelled as IEEE doubles. JSON numbers are reals. Prices, ratings, `n` and `maxRetries` are integers, so non-integer values (`Math.pow` with a fractional attempt, a price of 19.99 in a summary) are not covered. Rendering of integers of 1e21 and above (exponent form) is not covered either.
- AgentGraph.ClassifyAgentError: thrown `null` or `undefined` is not covered; line 243 already throws a TypeError on them. A `status` that is present but not a number is treated as absent.
- ItemLookup.ItemLookUp: thrown `null` or `undefined` is not covered; the catch block reads `error.message` (agent.ts:141), so the tool itself throws a TypeError instead of returning a payload.
- AgentGraph.ShouldContinue: requires a non-empty history; in the source the graph always starts it with the user's message.
- Retry.RetryWithBackOff: `fn` is an oracle indexed by the attempt number. Side effects of `fn` between attempts are not modelled.
- Seeding.SeedDatabase and ItemSummary.SeedWithSummaries: the setup steps (connect, ping, collection creation, the vector-index check, `deleteMany`) are one oracle completion. The asynchronous `Promise.all` over `createItemSummary` never fails, and is a plain map.
- `setupDatabaseAndCollection`, `createVectorSearchIndex`, the prompt-building part of `generateSynteticData`, `server/scraper.ts`, `server/index.ts` and the client UI are outside the core.
- String escapes, surrogate pairs and Unicode normalisation are not modelled: strings are sequences of characters.

## Findings

| source | as written | input that shows it | evidently intended | confidence | as-written member | corrected member |
|---|---|---|---|---|---|---|
| server/seed-database.ts:82-83 | `return parser.parse(text)` inside `try`, without `await`: the asynchronous parser's rejection settles after the `try` block has completed, so the `catch` (lines 84-98) never sees it and `generateSynteticData` rejects | a model answer such as `[{"item_name":"x"}]`, which the schema rejects (fields missing) and `JSON.parse` accepts: the run ends in the outer catch of `seedDatabase` with nothing saved instead of saving one record completed by the normaliser | `return await parser.parse(text)`, so that a schema rejection falls back to `JSON.parse` and the normaliser, or to the empty list | high; not executed | SyntheticData.GenerateSyntheticData, SyntheticData.MissingAwaitSkipsFallback | SyntheticData.GenerateSyntheticDataAwaited, with SyntheticData.FallbackNormalizesEveryElement and SyntheticData.BothParsersFailGivesEmpty |

`Seeding.SeedDatabase` models the code as written, so it uses `SyntheticData.GenerateSyntheticData`.
