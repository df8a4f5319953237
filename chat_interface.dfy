/** `src/components/ChatInterface.tsx`: a conversation with a webhook. Each accepted send appends
    the user's message and then one reply (or error) message. */
module ChatInterface {
  import opened WebhookTypes
  import opened Text
  import opened HeaderMaps

  /** The chat's header dictionary before any profile is applied, and the base every profile's rows are written over. */
  const InitialChatHeaders: map<string, string> := map[ContentTypeName := JsonMediaType]

  /** The chat's dictionary for a profile's rows: `Content-Type: application/json` first, then the
      usable rows, each overriding what came before, `Content-Type` included. */
  lemma ChatHeadersFor(hs: seq<Header>)
    ensures WithHeaders(InitialChatHeaders, hs) == InitialChatHeaders + WithHeaders(map[], hs)
    ensures ContentTypeName in WithHeaders(InitialChatHeaders, hs)
    ensures !Names(hs, ContentTypeName) ==> WithHeaders(InitialChatHeaders, hs)[ContentTypeName] == JsonMediaType
  {
    WithHeadersOverrides(InitialChatHeaders, hs);
    WithHeadersKeys(map[], hs, ContentTypeName);
  }

  /** Candidate `i` is the first truthy one. */
  ghost predicate FirstTruthyAt(cands: seq<Option<string>>, i: int) {
    0 <= i < |cands| && Truthy(cands[i]) && forall j :: 0 <= j < i ==> !Truthy(cands[j])
  }

  /** `a || b || ... || fallback` over optional strings. */
  function FirstTruthy(cands: seq<Option<string>>, fallback: string): (r: string)
    ensures forall i :: FirstTruthyAt(cands, i) ==> r == cands[i].value
    ensures (forall i :: 0 <= i < |cands| ==> !Truthy(cands[i])) ==> r == fallback
  {
    if cands == [] then fallback
    else if Truthy(cands[0]) then cands[0].value
    else
      var r := FirstTruthy(cands[1..], fallback);
      assert forall i :: FirstTruthyAt(cands, i) ==> FirstTruthyAt(cands[1..], i - 1);
      r
  }

  /** `json.message || json.response || json.text || json.content || JSON.stringify(json, null, 2)`
      for a parsed value other than `null`: the first of the four members that is a non-empty
      string, in that order, otherwise the pretty-printed value. */
  function ReplyText(j: JsonValue): (r: string)
    requires j.JsonRecord?
    ensures Truthy(j.message) ==> r == j.message.value
    ensures !Truthy(j.message) && Truthy(j.response) ==> r == j.response.value
    ensures !Truthy(j.message) && !Truthy(j.response) && Truthy(j.text) ==> r == j.text.value
    ensures !Truthy(j.message) && !Truthy(j.response) && !Truthy(j.text) && Truthy(j.content) ==> r == j.content.value
    ensures !Truthy(j.message) && !Truthy(j.response) && !Truthy(j.text) && !Truthy(j.content) ==> r == j.pretty
  {
    if Truthy(j.message) then j.message.value
    else if Truthy(j.response) then j.response.value
    else if Truthy(j.text) then j.text.value
    else if Truthy(j.content) then j.content.value
    else j.pretty
  }

  /** The `||` chain is the first-truthy rule over the four members with the pretty-printed JSON
      as fallback. */
  lemma ReplyTextIsFirstTruthy(j: JsonValue)
    requires j.JsonRecord?
    ensures ReplyText(j) == FirstTruthy([j.message, j.response, j.text, j.content], j.pretty)
  {
    var cands := [j.message, j.response, j.text, j.content];
    if Truthy(j.message) {
      assert FirstTruthyAt(cands, 0);
    } else if Truthy(j.response) {
      assert FirstTruthyAt(cands, 1);
    } else if Truthy(j.text) {
      assert FirstTruthyAt(cands, 2);
    } else if Truthy(j.content) {
      assert FirstTruthyAt(cands, 3);
    }
  }

  /** How `sendMessage` reads the reply. A content type naming JSON goes to `response.json()` and
      the member lookup; when either throws (the body does not parse, or it is `null`, whose
      `message` cannot be read) it falls back to `response.text()`. By then `json()` has consumed
      a body that is there, so that `text()` rejects as well: only a response without a body
      falls back to its empty text. Any other content type goes to `text()`. */
  function ReadReply(o: FetchOutcome): (r: Read)
    requires o.Responded?
    ensures r.ReadThrew? <==>
      DeclaresJson(o.contentType) && (o.parsed == Some(JsonNull) || (o.parsed.None? && !o.nullBody))
    ensures r.ReadThrew? ==> r.message == o.readError
    ensures DeclaresJson(o.contentType) && o.parsed.Some? && o.parsed.value.JsonRecord? ==>
      r == Content(ReplyText(o.parsed.value))
    ensures !DeclaresJson(o.contentType) || (o.parsed.None? && o.nullBody) ==> r == Content(o.text)
  {
    if DeclaresJson(o.contentType) then
      match o.parsed
      case Some(JsonNull) => ReadThrew(o.readError)
      case Some(v) => Content(ReplyText(v))
      case None => if o.nullBody then Content(o.text) else ReadThrew(o.readError)
    else Content(o.text)
  }

  /** The reply text as the code evidently means to read it: the text read once, a JSON `null`
      shown as `null`, and the member lookup only on other parsed values. */
  function IntendedReplyContent(o: FetchOutcome): (r: string)
    requires o.Responded?
    ensures DeclaresJson(o.contentType) && o.parsed == Some(JsonNull) ==> r == "null"
    ensures DeclaresJson(o.contentType) && o.parsed.Some? && o.parsed.value.JsonRecord? ==>
      r == ReplyText(o.parsed.value)
    ensures !(DeclaresJson(o.contentType) && o.parsed.Some?) ==> r == o.text
  {
    if DeclaresJson(o.contentType) && o.parsed.Some? then
      match o.parsed.value
      case JsonNull => Pretty(JsonNull)
      case JsonRecord(_, _, _, _, _) => ReplyText(o.parsed.value)
    else o.text
  }

  /** `HTTP ${status}: ${statusText}`: never empty, and the status text ends it. */
  function StatusLine(status: int, statusText: string): (r: string)
    ensures r == "HTTP " + IntToDecimal(status) + ": " + statusText
    ensures |r| > 5 && r[..5] == "HTTP "
    ensures |r| >= |statusText| && r[|r| - |statusText|..] == statusText
  {
    "HTTP " + IntToDecimal(status) + ": " + statusText
  }

  /** The message built from a response whose body read as `content`: 'webhook' exactly for an
      ok response, and the status line when the content is empty. */
  function Answer(o: FetchOutcome, content: string, id: string, timestamp: string, duration: int): (m: ChatMessage)
    requires o.Responded?
    ensures m.kind == Webhook <==> o.ok
    ensures m.kind != User && m.content != ""
    ensures m.content == if content != "" then content else StatusLine(o.status, o.statusText)
    ensures m == ChatMessage(id, m.kind, m.content, timestamp, Some(o.status), Some(duration))
  {
    ChatMessage(id, if o.ok then Webhook else Error,
      if content != "" then content else StatusLine(o.status, o.statusText),
      timestamp, Some(o.status), Some(duration))
  }

  /** The message built in the `catch`: an error with the thrown message, and no status. */
  function Failure(message: Option<string>, id: string, timestamp: string, duration: int): (m: ChatMessage)
    ensures m.kind == Error && m.status.None?
    ensures m.content == if message.Some? then message.value else "Failed to send message"
    ensures m.id == id && m.timestamp == timestamp && m.duration == Some(duration)
  {
    ChatMessage(id, Error, if message.Some? then message.value else "Failed to send message",
      timestamp, None, Some(duration))
  }

  /** The message that answers a send, as the source builds it: a response whose body reads is a
      'webhook' message exactly when it is ok, with its status; a failed call, or a body read that
      throws, becomes an error message without a status. */
  function ReplyMessage(o: FetchOutcome, id: string, timestamp: string, duration: int): (m: ChatMessage)
    ensures m.kind == Webhook <==> o.Responded? && o.ok && ReadReply(o).Content?
    ensures m.kind != User
    ensures m.id == id && m.timestamp == timestamp && m.duration == Some(duration)
    ensures m.status.Some? <==> o.Responded? && ReadReply(o).Content?
    ensures m.status.Some? ==> m.status == Some(o.status) && m.content != ""
    ensures o.Responded? && ReadReply(o).Content? && ReadReply(o).value != "" ==> m.content == ReadReply(o).value
    ensures o.Responded? && ReadReply(o) == Content("") ==> m.content == StatusLine(o.status, o.statusText)
    ensures o.Responded? && ReadReply(o).ReadThrew? ==> m.content == o.readError
    ensures o.Threw? ==> m.content == if o.message.Some? then o.message.value else "Failed to send message"
  {
    match o
    case Threw(message) => Failure(message, id, timestamp, duration)
    case Responded(_, _, _, _, _, _, _, _, _) =>
      match ReadReply(o)
      case Content(content) => Answer(o, content, id, timestamp, duration)
      case ReadThrew(message) => Failure(Some(message), id, timestamp, duration)
  }

  /** The message with the reply read as intended: every response is answered with its own status
      and is a 'webhook' message exactly when it is ok. */
  function IntendedReplyMessage(o: FetchOutcome, id: string, timestamp: string, duration: int): (m: ChatMessage)
    ensures m.kind == Webhook <==> o.Responded? && o.ok
    ensures m.status.Some? <==> o.Responded?
    ensures o.Responded? ==> m.status == Some(o.status) && m.content != ""
    ensures o.Responded? && IntendedReplyContent(o) != "" ==> m.content == IntendedReplyContent(o)
  {
    match o
    case Threw(message) => Failure(message, id, timestamp, duration)
    case Responded(_, _, _, _, _, _, _, _, _) => Answer(o, IntendedReplyContent(o), id, timestamp, duration)
  }

  /** The two readings part exactly on a JSON response whose body is `null` or, being there, does
      not parse: the source answers with an error and no status, the intended reading with the
      response. Everywhere else they build the same message. */
  lemma ReplyAgreesWhenReadable(o: FetchOutcome, id: string, timestamp: string, duration: int)
    ensures ReplyMessage(o, id, timestamp, duration) == IntendedReplyMessage(o, id, timestamp, duration) <==>
      !(o.Responded? && ReadReply(o).ReadThrew?)
  {
    if o.Responded? && ReadReply(o).ReadThrew? {
      assert ReplyMessage(o, id, timestamp, duration).status.None?;
    }
  }

  /** An ok response labelled JSON whose body is `null` is answered with an error carrying no status. */
  lemma NullJsonReplyIsError()
    ensures var o := Responded(true, 200, "OK", map[], Some("application/json"), Some(JsonNull), "null", false, "Body has already been consumed.");
      && ReplyMessage(o, "2", "t", 5) == ChatMessage("2", Error, "Body has already been consumed.", "t", None, Some(5))
      && IntendedReplyMessage(o, "2", "t", 5) == ChatMessage("2", Webhook, "null", "t", Some(200), Some(5))
  {
    assert DeclaresJson(Some("application/json")) by {
      assert OccursAt("application/json", JsonMediaType, 0);
    }
  }

  /** The send guard: `!inputMessage.trim() || !webhookUrl.trim() || loading` blocks the send. */
  function CanSend(input: string, url: string, loading: bool): (b: bool)
    ensures b <==> HasText(input) && HasText(url) && !loading
  {
    !IsBlank(input) && !IsBlank(url) && !loading
  }

  /** What the chat hands to `fetch`: always a POST with the chat's headers and a JSON body made of
      the trimmed message and a timestamp. */
  datatype ChatRequest = ChatRequest(url: string, httpMethod: string, headers: map<string, string>, message: string, timestamp: string)

  /** Messages come in pairs: a user message with text, then a reply that is not a user message. */
  ghost predicate Paired(ms: seq<ChatMessage>) {
    && |ms| % 2 == 0
    && (forall i :: 0 <= i < |ms| ==> (ms[i].kind == User <==> i % 2 == 0))
    && (forall i :: 0 <= i < |ms| && ms[i].kind == User ==> ms[i].content != "")
  }

  /** Appending a user message with text and then a reply keeps the messages paired. */
  lemma PairedAppend(ms: seq<ChatMessage>, user: ChatMessage, reply: ChatMessage)
    requires Paired(ms)
    requires user.kind == User && user.content != "" && reply.kind != User
    ensures Paired(ms + [user, reply])
  {
    var ns := ms + [user, reply];
    forall i | 0 <= i < |ns| ensures (ns[i].kind == User <==> i % 2 == 0) {
      if i >= |ms| {
        assert i == |ms| || i == |ms| + 1;
      }
    }
  }

  class Chat {
    var messages: seq<ChatMessage>
    var inputMessage: string
    var webhookUrl: string
    var loading: bool
    var headers: map<string, string>

    ghost predicate Valid()
      reads this
    {
      !loading && Paired(messages)
    }

    constructor()
      ensures Valid()
      ensures messages == [] && inputMessage == "" && webhookUrl == "" && headers == InitialChatHeaders
    {
      messages := [];
      inputMessage := "";
      webhookUrl := "";
      loading := false;
      headers := InitialChatHeaders;
    }

    /** The effect that runs when the active profile changes: with a profile, takes its url and
        builds the dictionary from its rows over `Content-Type: application/json`; without one, nothing changes. */
    method ApplyProfile(profile: Option<WebhookProfile>)
      requires Valid()
      modifies this
      ensures Valid()
      ensures profile.Some? ==> webhookUrl == profile.value.url && headers == WithHeaders(InitialChatHeaders, profile.value.headers)
      ensures profile.None? ==> webhookUrl == old(webhookUrl) && headers == old(headers)
      ensures messages == old(messages) && inputMessage == old(inputMessage)
    {
      if profile.Some? {
        webhookUrl := profile.value.url;
        headers := BuildHeaderMap(InitialChatHeaders, profile.value.headers);
      }
    }

    /** `sendMessage`, with `fetch` and the clock as parameters. A blocked send changes nothing and
        sends nothing; an accepted one sends a POST to the url as typed, clears the input and appends
        exactly two messages: the trimmed user text, then the reply. The handler's intermediate
        states (the user message shown and `loading` set while the call is in flight) are not
        observable here, so the fields are written in their final form. */
    method SendMessage(outcome: FetchOutcome, userClock: nat, userTime: string, sentTime: string,
                       replyClock: nat, replyTime: string, duration: int)
      returns (sent: Option<ChatRequest>)
      requires Valid()
      modifies this
      ensures Valid()
      ensures !CanSend(old(inputMessage), old(webhookUrl), old(loading)) ==>
        sent.None? && messages == old(messages) && inputMessage == old(inputMessage)
      ensures CanSend(old(inputMessage), old(webhookUrl), old(loading)) ==>
        && sent == Some(ChatRequest(old(webhookUrl), "POST", old(headers), Trim(old(inputMessage)), sentTime))
        && inputMessage == ""
        && messages == old(messages) + [
             ChatMessage(NatToDecimal(userClock), User, Trim(old(inputMessage)), userTime, None, None),
             ReplyMessage(outcome, NatToDecimal(replyClock + 1), replyTime, duration)]
      ensures webhookUrl == old(webhookUrl) && headers == old(headers)
    {
      var input := inputMessage;
      if !CanSend(input, webhookUrl, loading) {
        return None;
      }
      var text := Trim(input);
      TrimKeepsText(input);
      var userMessage := ChatMessage(NatToDecimal(userClock), User, text, userTime, None, None);
      var reply := ReplyMessage(outcome, NatToDecimal(replyClock + 1), replyTime, duration);
      PairedAppend(messages, userMessage, reply);
      sent := Some(ChatRequest(webhookUrl, "POST", headers, text, sentTime));
      messages := messages + [userMessage, reply];
      inputMessage := "";
    }

    /** `clearChat`. */
    method ClearChat()
      requires Valid()
      modifies this
      ensures Valid()
      ensures messages == []
      ensures inputMessage == old(inputMessage) && webhookUrl == old(webhookUrl) && headers == old(headers)
    {
      messages := [];
    }
  }
}
