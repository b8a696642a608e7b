/** Shared value types of the service: the provider enumeration, exceptions,
    and the search-result items exchanged between the Google service, the
    LLM service and the debate controller. */
module Interfaces {
  import opened Wrappers

  /** The six LLM back-ends, used both as a routing key and as a label. */
  datatype Provider = OpenAI | Anthropic | XAI | Google | Groq | DeepSeek

  /** The message an exception carries. The string values of the provider
      enumeration are not part of this model, so the message of the
      empty-response error names its provider symbolically. */
  datatype ErrorMessage =
    | Said(text: string)
    | EmptyResponseFrom(provider: Provider)

  datatype ExceptionKind = BadRequest | PlainError

  /** A thrown exception: its class, its message and, for a
      `BadRequestException` built with options, its description. */
  datatype Exception = Exception(kind: ExceptionKind, message: ErrorMessage, description: Option<ErrorMessage>)

  /** A search result as returned to callers (`Item` with `content`). */
  datatype Item = Item(title: string, link: string, snippet: string, content: Option<string>)

  /** The meta tags of a page as the search engine reports them; a field that
      is `null` or `undefined` upstream is `None`. */
  datatype MetaTag = MetaTag(ogTitle: Option<string>, twitterDescription: Option<string>)

  datatype PageMap = PageMap(metatags: Option<seq<MetaTag>>)

  /** One raw item of the search engine's response. */
  datatype SearchItem = SearchItem(link: string, title: string, snippet: string, pagemap: Option<PageMap>)
}
