# promptomatic core in Dafny

This project models the three core packages of promptomatic, a small Go tool for
LLM prompts. It covers:

- **Embedding matcher** (`internal/embedding`). An `EmbeddingMatcher` owns an
  in-memory cache from text to embedding vector. It ranks candidate prompts against
  a query by the similarity of their embeddings. `getEmbedding` is a read-through
  lookup: a hit returns the stored vector, and a miss asks the embedding endpoint
  and stores the answer. `FindBestMatches` embeds the query and every candidate,
  sorts the scored candidates by descending similarity and returns the first
  `min(n, len)` texts. `SelectBestPrompt` is the top-1 case, with an explicit
  empty-result error.
- **Prompt selector** (`internal/promptselector`). A `PromptSelector` owns one
  matcher for its whole life, so the matcher's cache carries over from one
  selection to the next. Its `SelectBestPrompt` takes the first match without
  checking for an empty result.
- **Prompt pipeline** (`internal/promptpipeline`). A `Pipeline` is a list of named
  templates. `Execute` runs them in order. Each stage renders its template against
  the caller's variables map, sends the text as the system message of one chat
  request, and writes the answer under `"Input"` in that same map. The next stage
  reads it from there. The first failing stage ends the run with its error.

The remote gateway is modelled as two oracle classes in `gateway.dfy`. Each client
has a log of the requests it received and a total function that answers the k-th
request. The rest of the model uses only these two classes.

How each part is modelled:

- The cache is a `map` field that the matcher's methods reassign.
- The `similarities` slice is an `array` that is sorted in place.
- The variables map is a field of a `Variables` object shared with the caller.

The pipeline's `Execute` is a loop proved equal to the recursive specification
`Run`. `Run`'s own contract states what a run does. `RunAppend` states that running
two lists of stages one after the other is the same as running them joined.

On the matcher side, the specification of a top-`n` answer is `IsTopRanking`. An
answer meets it when all of these hold:

- it has `min(n, |candidates|)` entries;
- its entries come from the pool, counted with multiplicity;
- its entries are in non-increasing score order;
- no candidate left out scores higher than an entry taken.

The matcher's lookups are specified by the function `Lookups`. It runs `getEmbedding`
on each text in turn and stops at the first failure. It returns whether every lookup
succeeded, the cache left behind, and the embedding client's request log.
`FindBestMatches` and both `SelectBestPrompt`s state their new cache and request log
as the `Lookups` outcome over the query and the candidates, and that they succeed
exactly when that run succeeds (the matcher's `SelectBestPrompt` also needs a
non-empty pool). The scoring loop states the same for the candidates alone, starting
after the query lookup. `SelectTwice` states it once the first selection has
succeeded. The `Lookups...` lemmas prove what every such outcome satisfies:

- requests are only appended, and the cache only grows without replacing an entry;
- a request goes out only for a text that was not cached, and at most once;
- every new cache entry was requested, and holds the client's answer to that request;
- the run succeeds exactly when every request it sent was answered, and then every
  text is cached;
- a failure is the last request, and what was fetched before it stays cached;
- a failed run is the run over the texts up to the failing one, so nothing after it
  was looked up;
- with everything cached, nothing is sent and nothing changes.

## Model

| member | source | states |
|---|---|---|
| Gateway.EmbeddingClient.CreateEmbedding | internal/openai/client.go:83-131 | one request is appended to the log whether or not it succeeds; the result is the remote answer to that request, or a gateway error when there is none |
| Gateway.CompletionClient.CreateChatCompletion | internal/openai/client.go:22-81 | one (system, user) request is appended to the log; the result is the remote text answer to that request, or a gateway error |
| Ranking.Min | internal/embedding/embedding_selector.go:86-91 | the result is one of the two arguments and no larger than either |
| Ranking.Swap | internal/embedding/embedding_selector.go:45-47 | exchanges two entries of the slice, leaves the others alone and keeps the multiset of entries |
| Ranking.SortBySimilarity | internal/embedding/embedding_selector.go:45-47 | after the in-place sort, the slice is in non-increasing similarity order and is a permutation of what it held before |
| Ranking.TopCandidates | internal/embedding/embedding_selector.go:45-53 | sorts the slice in place (sorted, permutation) and returns the candidate texts of its first `min(n, len)` entries, in order |
| Ranking.TextsPermutation | internal/embedding/embedding_selector.go:45-47 | reordering scored entries reorders their candidate texts in the same way: equal entry multisets give equal text multisets |
| Ranking.RankingOfSorted | internal/embedding/embedding_selector.go:45-53 | the first `min(n, len)` texts of a sorted, consistently scored permutation of the pool are a top-`n` answer over the pool |
| Ranking.TopOneIsMaximal | internal/embedding/embedding_selector.go:93-101 | for a non-empty pool, a top-1 answer has exactly one entry; that entry is in the pool and no candidate scores higher |
| Embedding.Lookups | internal/embedding/embedding_selector.go:58-70 | no contract of its own: the exact specification of `getEmbedding` run over a list of texts in order, stopping at the first unanswered request; its properties are the `Lookups…` lemmas below and the methods that equate their cache and log with it |
| Embedding.LookupsGrow | internal/embedding/embedding_selector.go:58-70 | across any run of lookups, requests are only appended to the log, and the cache only grows without any entry being replaced |
| Embedding.LookupsOnlyMisses | internal/embedding/embedding_selector.go:58-63 | every request a run sends is for one of its texts that was not cached before, and no text is requested twice |
| Embedding.LookupsCacheOnlyRequested | internal/embedding/embedding_selector.go:63-68 | every entry a run adds to the cache was requested by that run |
| Embedding.LookupsCacheAnswers | internal/embedding/embedding_selector.go:63-68 | every request whose text ends up cached stores exactly the client's answer to that request |
| Embedding.LookupsOutcome | internal/embedding/embedding_selector.go:24-43 | a run succeeds exactly when every request it sent was answered, and then every text is cached; on failure the last request is the unanswered one and every earlier request stays cached (no rollback) |
| Embedding.LookupsAnsweredSucceed | internal/embedding/embedding_selector.go:24-43 | against a client that answers every request, a run of lookups never fails and caches every text |
| Embedding.LookupsAllCached | internal/embedding/embedding_selector.go:59-61 | with every text already cached, a run sends nothing, changes nothing and succeeds |
| Embedding.LookupsStopAtFailure | internal/embedding/embedding_selector.go:34-38 | a failed run ends at the failing text: it equals the run over the texts up to and including that one, so nothing after it was looked up |
| Embedding.RankedResult | internal/embedding/embedding_selector.go:29-53 | sorting the scored candidates and keeping the first `min(n, len)` texts gives a top-`n` answer under the cached scores |
| Embedding.EmbeddingMatcher.constructor | internal/embedding/embedding_selector.go:16-21 | a new matcher has the given client and an empty cache |
| Embedding.EmbeddingMatcher.GetEmbedding | internal/embedding/embedding_selector.go:58-70 | a hit returns the cached vector with no request and no cache change; a miss sends exactly one request for the text; a successful miss stores the answer under exactly that text and keeps every other entry; a failed miss leaves the cache alone and wraps the error with "error creating embedding" |
| Embedding.EmbeddingMatcher.ScoreCandidates | internal/embedding/embedding_selector.go:29-43 | the cache and request log end as the `Lookups` run over the candidates; the loop fails exactly when that run fails, with the wrapped gateway error; on success entry i is candidate i with its similarity to the query's vector |
| Embedding.EmbeddingMatcher.FindBestMatches | internal/embedding/embedding_selector.go:23-56 | the cache and request log end as the `Lookups` run over the query and the candidates, and the call succeeds exactly when that run does; an error is the wrapped gateway error; on success the answer is a top-`n` ranking of the candidates under the similarities of their cached vectors; with everything already cached it succeeds without any request |
| Embedding.EmbeddingMatcher.SelectBestPrompt | internal/embedding/embedding_selector.go:93-102 | the cache and log end as the `Lookups` run over the message and the pool; it succeeds exactly when the pool is non-empty and that run succeeds; it fails with "no matching prompt found" exactly when the pool is empty and the run succeeds; other errors are the matcher's error wrapped with "error finding best match"; on success the prompt is in the pool and no prompt scores higher |
| PromptSelector.PromptSelector.constructor | internal/promptselector/selector.go:13-18 | the selector holds a fresh matcher over the same client, with an empty cache |
| PromptSelector.PromptSelector.SelectBestPrompt | internal/promptselector/selector.go:20-26 | for a non-empty pool: the cache and log end as the `Lookups` run over the message and the pool, and it succeeds exactly when that run does; on success the prompt is in the pool and no prompt scores higher; a matcher error is returned without any context of its own; with everything cached it succeeds and sends nothing |
| PromptSelector.SelectTwice | internal/promptselector/selector.go:8-26 | because the selector keeps its matcher, after a successful first selection the second one succeeds too; the request log and the cache end as the first selection alone left them, so the second sends nothing; both picks have the same best score |
| PromptPipeline.Run | internal/promptpipeline/pipeline.go:23-50 | zero stages return the initial input and change nothing; each stage sends at most one request, always with the fixed user message; success means exactly one request per stage; the result is the last request's answer and is left under "Input"; no key other than "Input" is ever written; the first request carries the first template rendered against the caller's map; failures are parse, execute or gateway errors |
| PromptPipeline.RunAppend | internal/promptpipeline/pipeline.go:25-48 | running `first + second` is running `first`, then, unless it failed, `second` from the answer, map and request log that `first` left |
| PromptPipeline.TwoStages | internal/promptpipeline/pipeline.go:23-50 | two stages answered "A" then "B": the result is "B", the second stage renders with "Input" = "A", and the map is left with "Input" = "B" |
| PromptPipeline.InitialInputUnused | internal/promptpipeline/pipeline.go:24-47 | with at least one stage, the initial input does not affect the outcome: it is overwritten before anything reads it |
| PromptPipeline.Variables.constructor | internal/promptpipeline/pipeline.go:23 | the caller's variables map, shared by reference with `Execute` |
| PromptPipeline.Pipeline.constructor | internal/promptpipeline/pipeline.go:19-21 | the pipeline holds exactly the given templates |
| PromptPipeline.Pipeline.Execute | internal/promptpipeline/pipeline.go:23-50 | the returned result, the map left in the caller's variables object and the requests sent are exactly those of `Run` from the caller's state |

## Left out

- `cosineSimilarity` and `sqrt` (internal/embedding/embedding_selector.go:72-84) are float32 arithmetic. The model replaces them with an opaque total score function into the reals. Division by a zero magnitude, NaN, and the ordering problems NaN causes for `sort.Slice` are not modelled. It also hides what the loop does with vectors of different lengths: the loop reads `b[i]` for every index of the query's vector, so a candidate vector shorter than the query's panics with an index out of range, and a longer one has its extra components ignored. The model's score is total, so `FindBestMatches` succeeds on such inputs.
- Embedding components are reals, not float32, so rounding is not modelled.
- The gateway's HTTP request, JSON encoding and decoding, bearer header, status check and "no choices / no embedding data" checks (internal/openai/client.go) are not modelled. Every way a call can fail becomes one `GatewayError`, and the gateway's own error texts are dropped. `NewClient` and the API key are not modelled.
- Go error values are modelled as the `Error` datatype. Only the context strings the core adds ("error creating embedding", "error finding best match", "no matching prompt found") are kept.
- text/template is an oracle (`TemplateEngine`): whether a template parses, and what executing it against a map yields. Template syntax and rendering are not modelled.
- The pipeline's variables map is `map[string]interface{}` in the source. The model restricts its values to strings.
- A nil variables map, which makes the source panic on the first write of "Input", is not modelled.
- `sort.Slice` makes no promise about the order of equal scores. The model sorts with one particular in-place insertion sort. Its contracts, and `IsTopRanking`, say nothing about the order of ties.
- Embedding.EmbeddingMatcher.FindBestMatches: requires `n >= 0`, because the source's `make([]string, n)` panics on a negative length.
- PromptSelector.PromptSelector.SelectBestPrompt: requires a non-empty pool. The source indexes the first match without checking and panics on an empty pool once the query embedding succeeds. When the query embedding fails on an empty pool, the source returns the error; the model does not cover that case.
- `PromptSelectorInterface` (internal/promptselector/selector.go:28-31) declares a method set and has no behaviour. It is not modelled.
- The `client` field of `PromptSelector` is stored but never used by the source beyond construction. It is modelled as a constant.
- internal/agent/agent.go, main.go and cmd/agent/main.go (the CLI wiring and agent loop) are not part of this model.
- Concurrency: the cache map is not safe for concurrent use in the source. The model is single-threaded.
