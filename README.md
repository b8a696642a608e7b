# India AGI API: the collaborative debate and its service rules, in Dafny

This project models the core of the India AGI API backend, a NestJS service.
Its centre is the `POST /test/collaborative-llm` endpoint. The endpoint runs a
debate between language models:

- For `rounds` rounds, OpenAI and then Google each answer the user's question.
- Each answer is primed with the debate transcript as it stood when the turn
  began.
- During its turn a model may search the web through a `browse-internet`
  tool. Each search is recorded in the transcript.
- After the last round, one OpenAI "arbiter" call, with no tools, reads the
  whole transcript and writes the consensus. Its answer is appended last.
- Any failure aborts the request with `BadRequestException('Something bad
  happened')`, and no partial transcript is returned.

Around the endpoint the model also covers:

- the rules of the LLM service: the provider → model tables, the temperature
  rule, the empty-answer check and error rewrapping, the token limit, and the
  relevance filter and summary merge of the blog lookup;
- the Google search service: the request parameters, and how each result
  item is built, with per-item scrape-failure recovery;
- the WebSocket online counter.

Every SDK, HTTP, vector-store and LLM call is an oracle, passed in as a
function. The language model is a scripted oracle. For each request it gives
the searches the model makes during the call, each with the outcome of the
search service, and then the text it finally yields or the error it throws.

Modules:

| file | module | what it holds |
|---|---|---|
| `wrappers.dfy` | `Wrappers` | `Option`, `Result` |
| `interfaces.dfy` | `Interfaces` | providers, exceptions, search items |
| `debate_history.dfy` | `DebateHistory` | transcript entries; well-shapedness; lemmas about appending |
| `prompts.dfy` | `Prompts` | chat messages; prompt texts as abstract constructors |
| `llm_service.dfy` | `LlmService` | `getLLMResponse`, `generateSummary`, `isValidTokenLimit`, `generateEmbeddings`, `getRelevantBlogs` |
| `google_service.dfy` | `GoogleService` | `search` |
| `test_controller.dfy` | `TestController` | `getCollaborativeLLMResponse`: a functional specification (`Debate`) and the imperative loops proved equal to it |
| `online_counter.dfy` | `OnlineCounter` | the gateway as a class with a `count` field and an emission log, and a pure `Step`/`Replay` specification |

The endpoint is written as imperative Dafny, like the source:

- `GetCollaborativeLLMResponse` calls `RunRounds`. `RunRounds` holds the
  nested round and provider loops.
- Each turn is `ParticipantTurn`, and the tool handler's pushes are the loop
  in `ExecuteToolCalls`.
- These three methods are parts of the one source method, split apart so
  that each loop is proved on its own. Each is proved equal to a pure
  function: `Turn`, `RunTurns` and `ToolSteps`.
- The properties of the debate are proved about those functions.

Three facts about the endpoint's code shape the model:

- the arbiter is called once, after all rounds
  (src/test/test.controller.ts:255-290);
- any failure, of any turn, search or the arbiter call, aborts the whole
  request (src/test/test.controller.ts:293-299);
- the transcript is returned once, at the end
  (src/test/test.controller.ts:292).

## Model

| member | source | states |
|---|---|---|
| `DebateHistory.TextModelsSearches` | src/test/test.controller.ts:233-240 | search entries pushed by the tool handler add no answer author to the transcript |
| `DebateHistory.UpToTextExtend` | src/test/test.controller.ts:199-202 | the transcript as it stood after the first k answers is unchanged by anything appended later |
| `DebateHistory.TextModelsMonotone` | src/test/test.controller.ts:233-251 | appending entries never removes an answer author; the authors only grow at the end |
| `DebateHistory.UpToTextWhole` | src/test/test.controller.ts:199-202 | a transcript that ends with an answer is its own snapshot after all its answers |
| `DebateHistory.AppendTurn` | src/test/test.controller.ts:228-251 | one turn, made of searches by provider p and then p's answer, keeps the transcript well-shaped and adds exactly p to its answer authors |
| `DebateHistory.SearchBelongsToNextAnswer` | src/test/test.controller.ts:228-251 | in a well-shaped transcript every search is followed only by searches of the same provider until that provider's own answer |
| `LlmService.ResponseModel` | src/llm/llm.service.ts:90-109 | each of the six providers is answered by a model of its own SDK, with the fixed model id |
| `LlmService.ResponseModelInjective` | src/llm/llm.service.ts:90-109 | no two providers share a model id |
| `LlmService.Temperature` | src/llm/llm.service.ts:115 | the temperature is 1 exactly for OpenAI and 0 for every other provider |
| `LlmService.TextRequest` | src/llm/llm.service.ts:112-118 | the `generateText` request carries the provider's model, its temperature, the messages and tools unchanged, and at most 3 steps |
| `LlmService.AcceptGeneratedText` | src/llm/llm.service.ts:130-141 | non-empty text comes back unchanged; empty text fails with an error naming the provider; every failure is a BadRequest carrying the original message |
| `LlmService.GetLLMResponse` | src/llm/llm.service.ts:84-143 | the response succeeds iff generation succeeds with non-empty text, returns that text, and fails only with a BadRequest |
| `LlmService.IsValidTokenLimit` | src/llm/llm.service.ts:145-149 | valid iff the tokenizer gives at most 100000 tokens, so exactly 100000 is valid |
| `LlmService.SummaryModel` | src/llm/llm.service.ts:152-170 | summary models come from the provider's own SDK, except DeepSeek, which falls back to OpenAI's `gpt-4.1-nano` |
| `LlmService.SummaryModelVersusResponseModel` | src/llm/llm.service.ts:90-170 | summary and answer models agree exactly for Anthropic and xAI, and DeepSeek summarises with OpenAI's summary model |
| `LlmService.GenerateSummary` | src/llm/llm.service.ts:151-219 | success iff the content is within the token limit and `generateObject` succeeds, returning its object; every failure is the one "Failed to generate content summary" error |
| `LlmService.OverLimitNeverReachesModel` | src/llm/llm.service.ts:174-176 | for over-limit content the outcome is that fixed failure, whatever the model would answer |
| `LlmService.GenerateEmbeddings` | src/llm/llm.service.ts:221-236 | the service's vector on success, `[]` on any failure |
| `LlmService.FilterRelevant` | src/llm/llm.service.ts:253 | a match is kept iff its score is defined and at least 0.7; the result is no longer than the input |
| `LlmService.FilterRelevantAppend` | src/llm/llm.service.ts:253 | filtering keeps the original order: filtering a concatenation is concatenating the filtered parts |
| `LlmService.FilterRelevantCounts` | src/llm/llm.service.ts:253 | the kept list is exactly the relevant matches, with their multiplicities |
| `LlmService.ScrapeAll` | src/llm/llm.service.ts:256-276 | all pages in link order if every scrape succeeds; otherwise the error of a failing scrape |
| `LlmService.SummaryOf` | src/llm/llm.service.ts:278-292 | a summary is attempted only for non-empty markdown, and a failed one counts as none; a present summary is exactly the object `generateSummary` returned |
| `LlmService.MergeSummary` | src/llm/llm.service.ts:296-301 | the link is kept and the snippet is empty; the title is the summary's or `''`; the content is the summary text or absent |
| `LlmService.GetRelevantBlogs` | src/llm/llm.service.ts:238-308 | `[]` on a failed query or a failed scrape; otherwise one merged item per relevant match, in order, each with its own page's summary |
| `GoogleService.SearchParams` | src/google/google.service.ts:21-26 | the query is the search text followed by ` filetype:html`; the start index is `pageNumber * 3 + 1` |
| `GoogleService.PageStarts` | src/google/google.service.ts:25 | page 0 starts at index 1, each next page 3 further on, and distinct pages never share a start index |
| `GoogleService.FirstMetaTag` | src/google/google.service.ts:44 | the first meta tag is present iff the page map, its tag list and a first tag all are, and then it is `metatags[0]` |
| `GoogleService.ShapeItem` | src/google/google.service.ts:38-61 | the link is copied; the title is `og:title` unless absent, else the item's own title; the snippet follows the same rule with `twitter:description`; the content is the markdown, or `''` when the scrape failed |
| `GoogleService.OgTitleWins` | src/google/google.service.ts:44 | a present `og:title`, even an empty one, is the title |
| `GoogleService.ScrapeFailureOnlyEmptiesContent` | src/google/google.service.ts:51-60 | a failed scrape changes nothing in the item but its content, which becomes `''` |
| `GoogleService.Search` | src/google/google.service.ts:19-72 | a failed request propagates its error; otherwise one result per upstream item, same order and length, each shaped with its own scrape outcome |
| `TestController.TurnsShape` | src/test/test.controller.ts:141-148 | the turns of `rounds` rounds are 2·rounds (none when rounds ≤ 0), OpenAI at even and Google at odd positions |
| `TestController.TurnsPrefix` | src/test/test.controller.ts:146 | the turns of fewer rounds are a prefix of the turns of more rounds |
| `TestController.BrowseInternet` | src/test/test.controller.ts:228-242 | a successful search pushes one InternetSearch entry for the running provider, with the query and exactly the results handed back; a failing search pushes nothing and its error is what the tool throws |
| `TestController.ToolStepsSpec` | src/test/test.controller.ts:209-245 | a turn's tool calls succeed iff every search does; then the transcript keeps its entries and gains one search entry per call, in call order; otherwise the error is that of a failing search |
| `TestController.ToolStepsFailureSticks` | src/test/test.controller.ts:228-232 | after a failing search, later tool calls change nothing |
| `TestController.ExecuteToolCalls` | src/test/test.controller.ts:228-242 | the tool handler, run on each call in turn, ends with the transcript or the error that `ToolSteps` specifies |
| `TestController.ParticipantTurn` | src/test/test.controller.ts:149-251 | one participant turn, as code, gives exactly the outcome `Turn` specifies |
| `TestController.TurnAccepted` | src/test/test.controller.ts:209-251 | a turn succeeds iff every search in it succeeds and the model's final text is non-empty |
| `TestController.TurnExtends` | src/test/test.controller.ts:149-251 | a successful turn logs one request primed with the transcript as the turn began, only appends to the transcript, keeps it well-shaped, adds the provider as the next answer author, and ends with that provider's answer |
| `TestController.RunTurnsFailureSticks` | src/test/test.controller.ts:293-299 | once a turn fails, no later turn runs and the failure is the outcome |
| `TestController.NextTurn` | src/test/test.controller.ts:146-148 | each pass of the inner loop runs the next participant's turn on the transcript so far |
| `TestController.TurnFailureAborts` | src/test/test.controller.ts:293-299 | a turn that fails in any round fails the whole run of rounds with its error |
| `TestController.RunRounds` | src/test/test.controller.ts:146-253 | the nested round and provider loops give exactly the run `RunTurns` specifies over all turns |
| `TestController.RunTurnsExtend` | src/test/test.controller.ts:146-253 | successful turns keep the transcript well-shaped, only ever append to the transcript and the request log (one request per turn), and record the answers in speaking order |
| `TestController.RunTurnsRequests` | src/test/test.controller.ts:149-209 | the k-th turn's request was primed with the transcript as it stood after the first k answers, and its reply was accepted |
| `TestController.RunTurnsFailureKind` | src/test/test.controller.ts:209-251 | a failed run of participant turns fails with the `BadRequestException` of `getLLMResponse` |
| `TestController.Debate` | src/test/test.controller.ts:293-299 | every failure is the endpoint's `Abort` of some `BadRequestException`: a BadRequest "Something bad happened" whose description is that exception's message |
| `TestController.DebateFailureCause` | src/test/test.controller.ts:209-299 | a failed request carries, as its description, the message of the first failing participant turn, or, when every turn succeeded, of the failing arbiter call |
| `TestController.Arbitrate` | src/test/test.controller.ts:255-290 | the arbiter call, made through `GetLLMResponse` for OpenAI without tools, succeeds iff OpenAI's text is non-empty; it then appends that text as the last entry and logs the tool-free arbiter request over the transcript; it fails only with a BadRequest |
| `TestController.DebateSplit` | src/test/test.controller.ts:255-292 | a successful request is the participant run followed by one accepted, tool-free OpenAI call over the whole participant transcript |
| `TestController.GetCollaborativeLLMResponse` | src/test/test.controller.ts:136-300 | the endpoint returns exactly the transcript of `Debate` on success and, besides it, the requests sent, in order; on failure it returns `Debate`'s exception, with no transcript and no requests |
| `TestController.ArbiterAnswerCloses` | src/test/test.controller.ts:286-292 | appending the arbiter's answer to the participant transcript gives 2·rounds + 1 answers in order, keeps it well-shaped, and leaves no search after the last participant answer |
| `TestController.DebateTranscript` | src/test/test.controller.ts:141-292 | on success the transcript holds 2·rounds + 1 answers, OpenAI then Google in every round, then the arbiter's answer last; it is well-shaped, only search and text entries without a round number occur, no search follows the last participant answer, and with no rounds it is the arbiter's answer alone |
| `TestController.ArbiterRequestCloses` | src/test/test.controller.ts:255-284 | appending the arbiter's answer keeps each participant request tied to its snapshot, and the arbiter saw everything but its own answer |
| `TestController.DebateRequests` | src/test/test.controller.ts:149-284 | on success one request per participant turn, with the search tool, primed with the transcript as the turn began and the unchanged question, then one OpenAI arbiter request without tools over the whole participant transcript; every reply was accepted |
| `TestController.PromptShapes` | src/test/test.controller.ts:149-284 | a participant prompt is the instructions, the transcript snapshot and the question as a user message, bound to the search tool and the provider's model; the arbiter prompt is two messages to OpenAI at temperature 1 with no tool |
| `TestController.RunTurnsSucceed` | src/test/test.controller.ts:146-253 | when every reply would be accepted, every run of turns succeeds with a well-shaped transcript |
| `TestController.DebateSucceedsWhenRepliesAccepted` | src/test/test.controller.ts:140-292 | the converse of `DebateRequests`: when every reply would be accepted, the request succeeds |
| `TestController.FirstSearchFailureAborts` | src/test/test.controller.ts:228-299 | a failing search in the first turn aborts the request with the rewrapped search error, with no tolerance |
| `OnlineCounter.OnlineCounterGateway.constructor` | src/online-counter/online-counter.gateway.ts:13-15 | the gateway starts with the configured count and nothing emitted |
| `OnlineCounter.OnlineCounterGateway.HandleConnection` | src/online-counter/online-counter.gateway.ts:18-28 | the new state is `Step(old state, Connect)`: stores count + 1 and broadcasts `onlineCount` with exactly that value |
| `OnlineCounter.OnlineCounterGateway.HandleDisconnect` | src/online-counter/online-counter.gateway.ts:30-45 | the new state is `Step(old state, Disconnect)`: stores max(0, count − 1), so 0 stays 0, and broadcasts `onlineCount` with exactly that value |
| `OnlineCounter.OnlineCounterGateway.HandleMessage` | src/online-counter/online-counter.gateway.ts:51-57 | the new state is `Step(old state, Message)`: stores count + 1 and emits `reply` with that value, but no `onlineCount` |
| `OnlineCounter.OnlineCounterGateway.BroadcastCount` | src/online-counter/online-counter.gateway.ts:47-49 | emits `onlineCount` with the given value and changes nothing else |
| `OnlineCounter.ReplayKeepsNonNegative` | src/online-counter/online-counter.gateway.ts:18-57 | from a non-negative count, any sequence of events keeps the count and every emitted value non-negative |
| `OnlineCounter.ReplayCountLowerBound` | src/online-counter/online-counter.gateway.ts:18-57 | the count is at least the start plus connects and messages minus disconnects; the clamp only raises it |
| `OnlineCounter.ReplayBroadcasts` | src/online-counter/online-counter.gateway.ts:18-57 | every event emits exactly once, and the `onlineCount` broadcasts are exactly the connects plus the disconnects |
| `OnlineCounter.ConnectThenDisconnect` | src/online-counter/online-counter.gateway.ts:18-45 | from any n ≥ 0, a connect followed by a disconnect restores n |

## Left out

- Every call into code outside the model is an oracle passed in as a function:
  - the LLM SDKs (`generateText`, `generateObject`);
  - the Google Custom Search HTTP request;
  - page scraping, both the cleaning and markdown pipeline and the external scraper;
  - the embeddings endpoint;
  - the Pinecone query;
  - the tokenizer.
- The AI SDK's internal step loop is not modelled. This covers `maxSteps: 3`, which bounds the tool-calling steps inside one `generateText` call, and how the SDK wraps an exception thrown inside a tool. The script gives any number of searches per call, and a failed search's message passes through unchanged.
- Prompt wording and the `JSON.stringify` serialisation of the transcript are abstract constructors (`Prompts.PromptText`). They are deterministic functions of the transcript, the question and the date.
- The clock is a parameter: the date string that `new Date()` gives.
- Configuration lookups (`getOrThrow`) are parameters:
  - the Google API key and engine id;
  - the counter's initial `ONLINE_COUNT`.
- A missing configuration entry is not modelled. In `getRelevantBlogs` it would end in `[]`, like a failed query.
- `providerOptions` and the SDK model handles are not modelled. A model is a vendor plus a model id.
- `Provider` values appear only as enum constants. The source of their string values (src/llm/interfaces) is not part of this model, so the empty-response message is `EmptyResponseFrom(provider)`.
- Logging is not modelled. This includes the Google service's result-log array, which never reaches the caller.
- `Promise.all` runs the scrapes and summaries concurrently. The model takes them in order, which gives the same results in the same order.
- Arithmetic follows integers, not JavaScript numbers:
  - `rounds` is an `int`, and a fractional `rounds` is not modelled;
  - the page number is an `int`;
  - scores are `real`.
- An upstream search response without an `items` field is not modelled. The declared response type makes `items` required. In the source, `response.data.items.map` would then throw; inside the debate's search tool that error aborts the whole request.
- The other endpoints of the controller are not part of this model: `getHtmlContent`, `getLLMResponse` and `googleSearch`. Nor are the GitHub, Perplexity and visitor-counter services, or module and bootstrap wiring.
- The `RoundUpdate` and `ProviderUpdate` entry kinds exist in the datatype, but the endpoint never produces them. `DebateTranscript` proves that they never occur.
- WebSocket transport details are not modelled: client ids, per-client delivery, the text of the `reply` payload. An emission is its event name and count.
- Concurrent handlers interleaving between the read and the write of `ONLINE_COUNT` are not modelled. In the source each handler is synchronous, so this cannot happen.
