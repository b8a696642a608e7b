/** The rules of the LLM service: which model answers for which provider,
    the sampling temperature, the empty-answer check and error rewrapping,
    the token limit, and the relevance filter and summary merge of the blog
    lookup. The SDK calls themselves are oracles passed in as functions. */
module LlmService {
  import opened Wrappers
  import opened Interfaces
  import opened Prompts

  /** A model handle: the SDK it comes from and the model id asked for. */
  datatype LanguageModel = LanguageModel(vendor: Provider, modelId: string)

  /** The only tool the controller ever binds. */
  datatype ToolSet = BrowseInternetTool

  /** The arguments of one `generateText` call. */
  datatype GenerateTextRequest = GenerateTextRequest(
    model: LanguageModel,
    messages: seq<CoreMessage>,
    temperature: int,
    tools: Option<ToolSet>,
    maxSteps: nat)

  const MaxSteps: nat := 3

  /** The model `getLLMResponse` asks for. */
  function ResponseModel(provider: Provider): (m: LanguageModel)
    ensures m.vendor == provider
  {
    match provider
    case OpenAI => LanguageModel(OpenAI, "gpt-5-mini")
    case Anthropic => LanguageModel(Anthropic, "claude-3-haiku-20240307")
    case XAI => LanguageModel(XAI, "grok-3-mini-beta")
    case Google => LanguageModel(Google, "gemini-2.5-flash-lite")
    case Groq => LanguageModel(Groq, "llama-3.1-8b-instant")
    case DeepSeek => LanguageModel(DeepSeek, "deepseek-chat")
  }

  /** Every provider gets its own model id: no two providers share one. */
  lemma ResponseModelInjective(p: Provider, q: Provider)
    ensures ResponseModel(p).modelId == ResponseModel(q).modelId ==> p == q
  {
  }

  function Temperature(provider: Provider): (t: int)
    ensures 0 <= t <= 1
    ensures t == 1 <==> provider == OpenAI
  {
    if provider == OpenAI then 1 else 0
  }

  /** The request `getLLMResponse` hands to `generateText`. */
  function TextRequest(provider: Provider, messages: seq<CoreMessage>, tools: Option<ToolSet>): (r: GenerateTextRequest)
    ensures r.model == ResponseModel(provider) && r.model.vendor == provider
    ensures r.temperature == Temperature(provider)
    ensures r.messages == messages && r.tools == tools && r.maxSteps == MaxSteps
  {
    GenerateTextRequest(ResponseModel(provider), messages, Temperature(provider), tools, MaxSteps)
  }

  /** The outcome of `getLLMResponse` given what `generateText` produced:
      a non-empty text comes back unchanged; an empty one is rejected with an
      error naming the provider; every failure leaves as a
      `BadRequestException` carrying the original message. */
  function AcceptGeneratedText(provider: Provider, generated: Result<string, Exception>): (r: Result<string, Exception>)
    ensures r.Success? <==> generated.Success? && |generated.value| > 0
    ensures r.Success? ==> r.value == generated.value
    ensures r.Failure? ==> r.error.kind == BadRequest && r.error.description == None
    ensures r.Failure? && generated.Failure? ==> r.error.message == generated.error.message
    ensures r.Failure? && generated.Success? ==> r.error.message == EmptyResponseFrom(provider)
  {
    var outcome :=
      match generated
      case Failure(e) => Failure(e)
      case Success(text) =>
        if |text| > 0 then Success(text)
        else Failure(Exception(BadRequest, EmptyResponseFrom(provider), None));
    match outcome
    case Success(text) => Success(text)
    case Failure(ex) => Failure(Exception(BadRequest, ex.message, None))
  }

  /** `getLLMResponse`: select the model, call `generateText`, check and
      rewrap its outcome. */
  function GetLLMResponse(
    provider: Provider,
    messages: seq<CoreMessage>,
    tools: Option<ToolSet>,
    generateText: GenerateTextRequest -> Result<string, Exception>): (r: Result<string, Exception>)
    ensures var generated := generateText(TextRequest(provider, messages, tools));
      && (r.Success? <==> generated.Success? && generated.value != [])
      && (r.Success? ==> r.value == generated.value)
      && (r.Failure? ==> r.error.kind == BadRequest)
  {
    AcceptGeneratedText(provider, generateText(TextRequest(provider, messages, tools)))
  }

  const TokenLimit: nat := 100000

  /** `isValidTokenLimit`, with the tokenizer as a parameter. */
  function IsValidTokenLimit(text: string, encode: string -> seq<int>): (valid: bool)
    ensures valid <==> |encode(text)| <= TokenLimit
  {
    !(|encode(text)| > TokenLimit)
  }

  /** The model `generateSummary` asks for; providers its switch does not
      name fall back to OpenAI's `gpt-4.1-nano`. */
  function SummaryModel(provider: Provider): (m: LanguageModel)
    ensures m.vendor == (if provider == DeepSeek then OpenAI else provider)
  {
    match provider
    case OpenAI => LanguageModel(OpenAI, "gpt-4.1-nano")
    case Anthropic => LanguageModel(Anthropic, "claude-3-haiku-20240307")
    case XAI => LanguageModel(XAI, "grok-3-mini-beta")
    case Google => LanguageModel(Google, "gemini-2.0-flash-lite-preview-02-05")
    case Groq => LanguageModel(Groq, "llama3-8b-8192")
    case DeepSeek => LanguageModel(OpenAI, "gpt-4.1-nano")
  }

  /** Summaries use the same model as answers exactly for Anthropic and xAI. */
  lemma SummaryModelVersusResponseModel(p: Provider)
    ensures SummaryModel(p) == ResponseModel(p) <==> p == Anthropic || p == XAI
    ensures p == DeepSeek ==> SummaryModel(p) == SummaryModel(OpenAI)
  {
  }

  datatype Summary = Summary(title: string, summary: string)

  /** The arguments of one `generateObject` call (prompt wording left out). */
  datatype ObjectRequest = ObjectRequest(model: LanguageModel, content: string)

  const SummaryFailed := Exception(PlainError, Said("Failed to generate content summary"), None)

  /** `generateSummary`: content over the token limit is refused before any
      model is called, and every failure leaves as one fixed error. */
  function GenerateSummary(
    provider: Provider,
    content: string,
    encode: string -> seq<int>,
    generateObject: ObjectRequest -> Result<Summary, Exception>): (r: Result<Summary, Exception>)
    ensures r.Failure? ==> r.error == SummaryFailed
    ensures !IsValidTokenLimit(content, encode) ==> r.Failure?
    ensures r.Success? <==> IsValidTokenLimit(content, encode) && generateObject(ObjectRequest(SummaryModel(provider), content)).Success?
    ensures r.Success? ==> r.value == generateObject(ObjectRequest(SummaryModel(provider), content)).value
  {
    if !IsValidTokenLimit(content, encode) then Failure(SummaryFailed)
    else
      match generateObject(ObjectRequest(SummaryModel(provider), content))
      case Success(summary) => Success(summary)
      case Failure(_) => Failure(SummaryFailed)
  }

  /** Over-limit content never reaches the model: the outcome is the same
      whatever the model would have answered. */
  lemma OverLimitNeverReachesModel(
    provider: Provider,
    content: string,
    encode: string -> seq<int>,
    g1: ObjectRequest -> Result<Summary, Exception>,
    g2: ObjectRequest -> Result<Summary, Exception>)
    requires |encode(content)| > TokenLimit
    ensures GenerateSummary(provider, content, encode, g1) == GenerateSummary(provider, content, encode, g2) == Failure(SummaryFailed)
  {
  }

  datatype EmbeddingsRequest = EmbeddingsRequest(textContent: string)

  /** `generateEmbeddings`: the embedding service's vector, or `[]` when the
      call fails. */
  function GenerateEmbeddings(text: string, post: EmbeddingsRequest -> Result<seq<real>, Exception>): (r: seq<real>)
    ensures post(EmbeddingsRequest(text)).Failure? ==> r == []
    ensures post(EmbeddingsRequest(text)).Success? ==> r == post(EmbeddingsRequest(text)).value
  {
    match post(EmbeddingsRequest(text))
    case Success(embeddings) => embeddings
    case Failure(_) => []
  }

  /** A vector-store match: its optional score and its blog link. */
  datatype Match = Match(score: Option<real>, link: string)

  datatype QueryRequest = QueryRequest(topK: nat, vector: seq<real>, includeValues: bool, includeMetadata: bool)

  const RelevanceThreshold: real := 0.7

  /** A match survives `r.score && r.score >= 0.7`: its score is defined and
      at least the threshold (a zero score fails both tests). */
  predicate Relevant(m: Match) {
    m.score.Some? && m.score.value >= RelevanceThreshold
  }

  function FilterRelevant(ms: seq<Match>): (kept: seq<Match>)
    ensures |kept| <= |ms|
    ensures forall m :: m in kept <==> m in ms && Relevant(m)
  {
    if ms == [] then []
    else FilterRelevant(ms[..|ms| - 1]) + (if Relevant(ms[|ms| - 1]) then [ms[|ms| - 1]] else [])
  }

  /** The filter keeps the original order: filtering a concatenation is the
      concatenation of the filtered parts. */
  lemma {:induction false} FilterRelevantAppend(a: seq<Match>, b: seq<Match>)
    ensures FilterRelevant(a + b) == FilterRelevant(a) + FilterRelevant(b)
    decreases |b|
  {
    if b == [] {
      assert a + b == a;
    } else {
      var init := b[..|b| - 1];
      assert (a + b)[..|a + b| - 1] == a + init;
      assert (a + b)[|a + b| - 1] == b[|b| - 1];
      FilterRelevantAppend(a, init);
    }
  }

  /** The whole filtered list is relevant, and nothing relevant is dropped:
      its multiset is that of the relevant matches. */
  lemma {:induction false} FilterRelevantCounts(ms: seq<Match>, m: Match)
    ensures multiset(FilterRelevant(ms))[m] == if Relevant(m) then multiset(ms)[m] else 0
    decreases |ms|
  {
    if ms != [] {
      var init := ms[..|ms| - 1];
      assert ms == init + [ms[|ms| - 1]];
      FilterRelevantCounts(init, m);
    }
  }

  /** The markdown of every link, or the first scrape failure (`Promise.all`
      over the links, taken in order). */
  function ScrapeAll(links: seq<string>, scrape: string -> Result<string, Exception>): (r: Result<seq<string>, Exception>)
    ensures r.Success? <==> forall i :: 0 <= i < |links| ==> scrape(links[i]).Success?
    ensures r.Success? ==> |r.value| == |links| && forall i :: 0 <= i < |links| ==> r.value[i] == scrape(links[i]).value
    ensures r.Failure? ==> exists i :: 0 <= i < |links| && scrape(links[i]) == Failure(r.error)
    decreases |links|
  {
    if links == [] then Success([])
    else
      match ScrapeAll(links[..|links| - 1], scrape)
      case Failure(e) => Failure(e)
      case Success(done) =>
        match scrape(links[|links| - 1])
        case Failure(e) => Failure(e)
        case Success(markdown) => Success(done + [markdown])
  }

  /** The summary of one blog, if any: attempted only for non-empty markdown,
      and a failed attempt counts as none. */
  function SummaryOf(
    markdown: string,
    encode: string -> seq<int>,
    generateObject: ObjectRequest -> Result<Summary, Exception>): (s: Option<Summary>)
    ensures markdown == [] ==> s.None?
    ensures s.Some? <==> markdown != [] && GenerateSummary(OpenAI, markdown, encode, generateObject).Success?
    ensures s.Some? ==> s.value == GenerateSummary(OpenAI, markdown, encode, generateObject).value
  {
    if |markdown| > 0 then
      match GenerateSummary(OpenAI, markdown, encode, generateObject)
      case Success(summary) => Some(summary)
      case Failure(_) => None
    else None
  }

  /** The output item for one kept match. */
  function MergeSummary(m: Match, summary: Option<Summary>): (item: Item)
    ensures item.link == m.link && item.snippet == ""
    ensures summary.Some? ==> item.title == summary.value.title && item.content == Some(summary.value.summary)
    ensures summary.None? ==> item.title == "" && item.content == None
  {
    Item(
      if summary.Some? then summary.value.title else "",
      m.link,
      "",
      if summary.Some? then Some(summary.value.summary) else None)
  }

  function Links(ms: seq<Match>): (links: seq<string>)
    ensures |links| == |ms| && forall i :: 0 <= i < |ms| ==> links[i] == ms[i].link
  {
    seq(|ms|, i requires 0 <= i < |ms| => ms[i].link)
  }

  /** `getRelevantBlogs`: query the vector store, keep the relevant matches,
      scrape each, summarise each non-empty page and merge. Every outer
      failure gives `[]`. */
  method GetRelevantBlogs(
    embeddings: seq<real>,
    query: QueryRequest -> Result<seq<Match>, Exception>,
    scrape: string -> Result<string, Exception>,
    encode: string -> seq<int>,
    generateObject: ObjectRequest -> Result<Summary, Exception>)
    returns (items: seq<Item>)
    ensures var matches := query(QueryRequest(5, embeddings, false, true));
      && (matches.Failure? ==> items == [])
      && (matches.Success? ==>
            var kept := FilterRelevant(matches.value);
            && ((exists i :: 0 <= i < |kept| && scrape(kept[i].link).Failure?) ==> items == [])
            && ((forall i :: 0 <= i < |kept| ==> scrape(kept[i].link).Success?) ==>
                  && |items| == |kept|
                  && forall i :: 0 <= i < |kept| ==>
                       items[i] == MergeSummary(kept[i], SummaryOf(scrape(kept[i].link).value, encode, generateObject))))
  {
    var queried := query(QueryRequest(5, embeddings, false, true));
    if queried.Failure? {
      return [];
    }
    var responses := queried.value;
    responses := FilterRelevant(responses);
    var markdowns := ScrapeAll(Links(responses), scrape);
    if markdowns.Failure? {
      return [];
    }
    var summaries := seq(|responses|, i requires 0 <= i < |responses| =>
      SummaryOf(markdowns.value[i], encode, generateObject));
    items := seq(|responses|, i requires 0 <= i < |responses| => MergeSummary(responses[i], summaries[i]));
  }
}
