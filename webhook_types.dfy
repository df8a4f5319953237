/** The records of `src/types/webhook.ts`, and the abstract outcome of one `fetch`
    call, which the components receive instead of performing network I/O. */
module WebhookTypes {

  datatype Option<T> = None | Some(value: T)

  /** One request header row: a name and a value, both free text. */
  datatype Header = Header(key: string, value: string)

  /** Which half of a header row an edit writes. */
  datatype HeaderField = Key | Value

  /** `body?: string`: `None` stands for the absent (undefined) body. */
  datatype WebhookRequest = WebhookRequest(url: string, httpMethod: string, headers: seq<Header>, body: Option<string>)

  datatype WebhookResponse = WebhookResponse(
    status: int,
    statusText: string,
    headers: map<string, string>,
    body: string,
    duration: int,
    timestamp: string)

  datatype HistoryItem = HistoryItem(id: string, request: WebhookRequest, response: WebhookResponse, timestamp: string)

  /** The `type` of a chat message: 'user' | 'webhook' | 'error'. */
  datatype MessageKind = User | Webhook | Error

  datatype ChatMessage = ChatMessage(
    id: string,
    kind: MessageKind,
    content: string,
    timestamp: string,
    status: Option<int>,
    duration: Option<int>)

  datatype WebhookProfile = WebhookProfile(
    id: string,
    name: string,
    url: string,
    httpMethod: string,
    headers: seq<Header>,
    description: Option<string>,
    color: string,
    createdAt: string)

  /** `o` is truthy: present and a non-empty string. */
  predicate Truthy(o: Option<string>) {
    o.Some? && o.value != ""
  }

  /** A parsed JSON body as far as the components look into it. `JsonNull` is the literal `null`.
      Any other value carries its pretty-printed text (`JSON.stringify(json, null, 2)`) and its
      `message`, `response`, `text` and `content` members, each `None` when absent or not a string
      (a number, an array or a string has none). */
  datatype JsonValue =
    | JsonNull
    | JsonRecord(
        pretty: string,
        message: Option<string>,
        response: Option<string>,
        text: Option<string>,
        content: Option<string>)

  /** `JSON.stringify(json, null, 2)`. */
  function Pretty(v: JsonValue): (r: string)
    ensures v.JsonNull? ==> r == "null"
    ensures v.JsonRecord? ==> r == v.pretty
  {
    match v
    case JsonNull => "null"
    case JsonRecord(pretty, _, _, _, _) => pretty
  }

  /** What one `fetch` produces, with the facts about its body that reading it depends on.
      `Responded`: the response line, its headers and `content-type` header if any;
      `parsed` is the body parsed as JSON, `None` when it does not parse; `text` is the body as
      text; `nullBody` says the response has no body at all (a 204, say): its text is '' and
      reading it leaves nothing consumed; `readError` is the message of the `TypeError` raised by
      reading a body that an earlier read has already consumed.
      `Threw`: the call rejected; `message` is the `Error`'s message, `None` when the thrown
      value is not an `Error`. */
  datatype FetchOutcome =
    | Responded(
        ok: bool,
        status: int,
        statusText: string,
        headers: map<string, string>,
        contentType: Option<string>,
        parsed: Option<JsonValue>,
        text: string,
        nullBody: bool,
        readError: string)
    | Threw(message: Option<string>)

  /** The outcomes `fetch` can produce: `ok` says the status is 200..299, and a response without
      a body parses as nothing and reads as ''. The datatype admits other combinations; the
      properties below do not depend on excluding them, and those that need this say so. */
  ghost predicate Coherent(o: FetchOutcome) {
    o.Responded? ==>
      && (o.ok <==> 200 <= o.status <= 299)
      && (o.nullBody ==> o.parsed.None? && o.text == "")
  }

  /** The result of the code that reads a response body: the content, or the message of the
      error it throws. */
  datatype Read = Content(value: string) | ReadThrew(message: string)
}
