/** `src/components/WebhookTester.tsx`: the stored profile table with its active profile
    id, the bounded request history, and the shaping of an outgoing request. */
module WebhookTester {
  import opened WebhookTypes
  import opened Text
  import opened HeaderMaps

  // ---------------------------------------------------------------------------
  // Profiles

  /** `Omit<WebhookProfile, 'id' | 'createdAt'>`: what the profile form hands over on create. */
  datatype ProfileData = ProfileData(
    name: string,
    url: string,
    httpMethod: string,
    headers: seq<Header>,
    description: Option<string>,
    color: string)

  /** `Partial<WebhookProfile>`: every field may be absent (`None`). For `description`, a present
      field may itself hold `undefined`, hence the nested option. */
  datatype ProfilePatch = ProfilePatch(
    id: Option<string>,
    name: Option<string>,
    url: Option<string>,
    httpMethod: Option<string>,
    headers: Option<seq<Header>>,
    description: Option<Option<string>>,
    color: Option<string>,
    createdAt: Option<string>)

  const EmptyPatch := ProfilePatch(None, None, None, None, None, None, None, None)

  /** `{ ...profileData, id, createdAt }`. */
  function NewProfile(data: ProfileData, id: string, createdAt: string): (p: WebhookProfile)
    ensures p.id == id && p.createdAt == createdAt
    ensures p.name == data.name && p.url == data.url && p.httpMethod == data.httpMethod
    ensures p.headers == data.headers && p.description == data.description && p.color == data.color
  {
    WebhookProfile(id, data.name, data.url, data.httpMethod, data.headers, data.description, data.color, createdAt)
  }

  function Pick<T>(patched: Option<T>, current: T): T {
    match patched
    case Some(v) => v
    case None => current
  }

  /** `{ ...profile, ...updates }`: each field present in the patch replaces the profile's. */
  function Overlay(p: WebhookProfile, u: ProfilePatch): (r: WebhookProfile)
    ensures r.id == if u.id.Some? then u.id.value else p.id
    ensures r.name == if u.name.Some? then u.name.value else p.name
    ensures r.url == if u.url.Some? then u.url.value else p.url
    ensures r.httpMethod == if u.httpMethod.Some? then u.httpMethod.value else p.httpMethod
    ensures r.headers == if u.headers.Some? then u.headers.value else p.headers
    ensures r.description == if u.description.Some? then u.description.value else p.description
    ensures r.color == if u.color.Some? then u.color.value else p.color
    ensures r.createdAt == if u.createdAt.Some? then u.createdAt.value else p.createdAt
  {
    WebhookProfile(
      Pick(u.id, p.id), Pick(u.name, p.name), Pick(u.url, p.url), Pick(u.httpMethod, p.httpMethod),
      Pick(u.headers, p.headers), Pick(u.description, p.description), Pick(u.color, p.color),
      Pick(u.createdAt, p.createdAt))
  }

  /** Overlaying nothing changes nothing, and overlaying the same patch twice is overlaying it once. */
  lemma OverlayLaws(p: WebhookProfile, u: ProfilePatch)
    ensures Overlay(p, EmptyPatch) == p
    ensures Overlay(Overlay(p, u), u) == Overlay(p, u)
    ensures u.id.None? ==> Overlay(p, u).id == p.id
  {
  }

  /** `profiles.find(p => p.id === id)`: the first profile carrying `id`. */
  function FindById(ps: seq<WebhookProfile>, id: string): (r: Option<WebhookProfile>)
    ensures r.None? <==> forall j :: 0 <= j < |ps| ==> ps[j].id != id
    ensures r.Some? ==> r.value.id == id && r.value in ps
  {
    if ps == [] then None
    else if ps[0].id == id then Some(ps[0])
    else FindById(ps[1..], id)
  }

  /** What `find` returns sits at the first position carrying `id`. */
  lemma {:induction false} FindByIdIsFirst(ps: seq<WebhookProfile>, id: string)
    requires FindById(ps, id).Some?
    ensures exists i :: FirstWithId(ps, id, i) && ps[i] == FindById(ps, id).value
  {
    if ps[0].id == id {
      assert FirstWithId(ps, id, 0);
    } else {
      FindByIdIsFirst(ps[1..], id);
      var i :| FirstWithId(ps[1..], id, i) && ps[1..][i] == FindById(ps[1..], id).value;
      assert FirstWithId(ps, id, i + 1);
    }
  }

  /** Position `i` holds the first profile with `id`. */
  ghost predicate FirstWithId(ps: seq<WebhookProfile>, id: string, i: int) {
    0 <= i < |ps| && ps[i].id == id && forall j :: 0 <= j < i ==> ps[j].id != id
  }

  /** `profiles.find(p => p.id === activeProfileId) || null`: a null id matches no profile. */
  function ActiveProfile(ps: seq<WebhookProfile>, active: Option<string>): (r: Option<WebhookProfile>)
    ensures r.Some? <==> active.Some? && exists i :: 0 <= i < |ps| && ps[i].id == active.value
    ensures r.Some? ==> r.value.id == active.value && r.value in ps
  {
    match active
    case None => None
    case Some(id) => FindById(ps, id)
  }

  /** `prev.map(p => p.id === id ? { ...p, ...updates } : p)`. */
  function Updated(ps: seq<WebhookProfile>, id: string, u: ProfilePatch): (r: seq<WebhookProfile>)
    ensures |r| == |ps|
    ensures forall i :: 0 <= i < |ps| ==> r[i] == if ps[i].id == id then Overlay(ps[i], u) else ps[i]
  {
    if ps == [] then []
    else [if ps[0].id == id then Overlay(ps[0], u) else ps[0]] + Updated(ps[1..], id, u)
  }

  /** `prev.filter(p => p.id !== id)`. */
  function Deleted(ps: seq<WebhookProfile>, id: string): (r: seq<WebhookProfile>)
    ensures |r| <= |ps|
    ensures forall i :: 0 <= i < |r| ==> r[i].id != id
  {
    if ps == [] then []
    else (if ps[0].id == id then [] else [ps[0]]) + Deleted(ps[1..], id)
  }

  /** Deleting drops every copy of a profile carrying `id` and keeps every copy of any other. */
  lemma {:induction false} DeletedCounts(ps: seq<WebhookProfile>, id: string, p: WebhookProfile)
    ensures multiset(Deleted(ps, id))[p] == if p.id == id then 0 else multiset(ps)[p]
  {
    if ps != [] {
      var rest := ps[1..];
      DeletedCounts(rest, id, p);
      assert ps == [ps[0]] + rest;
      if ps[0].id == id {
        assert Deleted(ps, id) == Deleted(rest, id);
      } else {
        assert Deleted(ps, id) == [ps[0]] + Deleted(rest, id);
      }
    }
  }

  /** The active id after deleting `id`: cleared exactly when it pointed at `id`. */
  function ActiveIdAfterDelete(active: Option<string>, id: string): (r: Option<string>)
    ensures r.None? <==> active.None? || active.value == id
    ensures r.Some? ==> r == active
  {
    if active == Some(id) then None else active
  }

  /** Deleting distributes over concatenation, so the survivors keep their order. */
  lemma {:induction false} DeletedAppend(a: seq<WebhookProfile>, b: seq<WebhookProfile>, id: string)
    ensures Deleted(a + b, id) == Deleted(a, id) + Deleted(b, id)
  {
    if a == [] {
      assert a + b == b;
    } else {
      assert (a + b)[1..] == a[1..] + b;
      DeletedAppend(a[1..], b, id);
      var head := if a[0].id == id then [] else [a[0]];
      calc {
        Deleted(a + b, id);
        head + Deleted(a[1..] + b, id);
        head + (Deleted(a[1..], id) + Deleted(b, id));
        (head + Deleted(a[1..], id)) + Deleted(b, id);
        Deleted(a, id) + Deleted(b, id);
      }
    }
  }

  lemma {:induction false} FindByIdAppend(ps: seq<WebhookProfile>, q: WebhookProfile, id: string)
    ensures FindById(ps + [q], id) ==
      if FindById(ps, id).Some? then FindById(ps, id) else if q.id == id then Some(q) else None
  {
    if ps != [] {
      assert (ps + [q])[1..] == ps[1..] + [q];
      FindByIdAppend(ps[1..], q, id);
    }
  }

  /** After a create the active id names the new profile; the derived active profile is the new one
      unless an older profile already carries the same id (ids are clock readings and may repeat),
      in which case it is that older profile. */
  lemma ActiveAfterCreate(ps: seq<WebhookProfile>, p: WebhookProfile)
    ensures ActiveProfile(ps + [p], Some(p.id)).Some?
    ensures ActiveProfile(ps + [p], Some(p.id)) ==
      if exists i :: 0 <= i < |ps| && ps[i].id == p.id then ActiveProfile(ps, Some(p.id)) else Some(p)
  {
    FindByIdAppend(ps, p, p.id);
  }

  /** After a delete the active profile is gone if the active id named the deleted id, and is the
      same profile as before otherwise. */
  lemma {:induction false} ActiveAfterDelete(ps: seq<WebhookProfile>, active: Option<string>, id: string)
    ensures ActiveProfile(Deleted(ps, id), ActiveIdAfterDelete(active, id)) ==
      if active == Some(id) then None else ActiveProfile(ps, active)
  {
    if active.Some? && active.value != id {
      FindByIdSkipsDeleted(ps, active.value, id);
    }
  }

  lemma {:induction false} FindByIdSkipsDeleted(ps: seq<WebhookProfile>, a: string, id: string)
    requires a != id
    ensures FindById(Deleted(ps, id), a) == FindById(ps, a)
  {
    if ps != [] {
      FindByIdSkipsDeleted(ps[1..], a, id);
      var rest := Deleted(ps[1..], id);
      if ps[0].id != id {
        assert Deleted(ps, id) == [ps[0]] + rest;
        assert ([ps[0]] + rest)[1..] == rest;
      } else {
        assert Deleted(ps, id) == rest;
      }
    }
  }

  /** An update that leaves ids alone maps the active profile through the same overlay. */
  lemma {:induction false} ActiveAfterUpdate(ps: seq<WebhookProfile>, active: Option<string>, id: string, u: ProfilePatch)
    requires u.id.None?
    ensures ActiveProfile(Updated(ps, id, u), active) ==
      match ActiveProfile(ps, active)
      case None => None
      case Some(q) => Some(if q.id == id then Overlay(q, u) else q)
  {
    if active.Some? && ps != [] {
      ActiveAfterUpdate(ps[1..], active, id, u);
      assert Updated(ps, id, u)[1..] == Updated(ps[1..], id, u);
    }
  }

  // ---------------------------------------------------------------------------
  // History

  /** How many requests the history keeps. */
  const HistoryLimit := 10

  /** The first `HistoryLimit` items of `s`. */
  function Newest(s: seq<HistoryItem>): (r: seq<HistoryItem>)
    ensures |r| <= HistoryLimit && |r| <= |s|
    ensures |r| == |s| || |r| == HistoryLimit
    ensures r == s[..|r|]
  {
    if |s| <= HistoryLimit then s else s[..HistoryLimit]
  }

  /** `[item, ...prev.slice(0, 9)]`. */
  function Pushed(item: HistoryItem, h: seq<HistoryItem>): (r: seq<HistoryItem>)
    ensures 1 <= |r| <= HistoryLimit && r[0] == item
    ensures |r| == if |h| < HistoryLimit then |h| + 1 else HistoryLimit
    ensures r[1..] == h[..|r| - 1]
  {
    [item] + (if |h| <= 9 then h else h[..9])
  }

  function Reversed<T>(s: seq<T>): (r: seq<T>)
    ensures |r| == |s|
  {
    if s == [] then [] else Reversed(s[1..]) + [s[0]]
  }

  /** The history after the items have been pushed one by one, first to last. */
  function PushAll(h: seq<HistoryItem>, items: seq<HistoryItem>): seq<HistoryItem>
    decreases |items|
  {
    if items == [] then h else PushAll(Pushed(items[0], h), items[1..])
  }

  lemma PushedIsNewest(item: HistoryItem, h: seq<HistoryItem>)
    ensures Pushed(item, h) == Newest([item] + h)
  {
  }

  lemma NewestAbsorbs(a: seq<HistoryItem>, b: seq<HistoryItem>)
    ensures Newest(a + Newest(b)) == Newest(a + b)
  {
    if |b| > HistoryLimit {
      assert (a + b)[..|Newest(a + b)|] == (a + Newest(b))[..|Newest(a + b)|];
    }
  }

  /** The bounded queue: whatever was pushed, the history holds the newest ten items, newest first. */
  lemma {:induction false} PushAllKeepsNewest(h: seq<HistoryItem>, items: seq<HistoryItem>)
    requires |h| <= HistoryLimit
    ensures PushAll(h, items) == Newest(Reversed(items) + h)
    decreases |items|
  {
    if items == [] {
      NewestAbsorbs([], h);
    } else {
      var x := items[0];
      PushAllKeepsNewest(Pushed(x, h), items[1..]);
      PushedIsNewest(x, h);
      NewestAbsorbs(Reversed(items[1..]), [x] + h);
      assert Reversed(items[1..]) + ([x] + h) == Reversed(items) + h;
    }
  }

  // ---------------------------------------------------------------------------
  // Outgoing request

  /** `['POST', 'PUT', 'PATCH'].includes(method)`, compared exactly. */
  predicate SendsBody(httpMethod: string): (b: bool)
    ensures b <==> httpMethod in ["POST", "PUT", "PATCH"]
  {
    httpMethod == "POST" || httpMethod == "PUT" || httpMethod == "PATCH"
  }

  /** `if (request.body && !headers['Content-Type']) headers['Content-Type'] = 'application/json'`:
      with a body, the dictionary ends up with a non-empty `Content-Type`, the one already there
      if it is usable; every other name keeps its value. */
  function WithDefaultContentType(m: map<string, string>, body: Option<string>): (r: map<string, string>)
    ensures r == m || r == m[ContentTypeName := JsonMediaType]
    ensures forall k :: k != ContentTypeName ==> (k in r <==> k in m) && (k in m ==> r[k] == m[k])
    ensures Truthy(body) ==> ContentTypeName in r && r[ContentTypeName] != ""
    ensures ContentTypeName in m && m[ContentTypeName] != "" ==> r == m
    ensures !Truthy(body) ==> r == m
  {
    if Truthy(body) && !(ContentTypeName in m && m[ContentTypeName] != "") then m[ContentTypeName := JsonMediaType]
    else m
  }

  /** The header dictionary handed to `fetch`: the usable rows, and a `Content-Type` whenever a
      body is present. Every value sent is non-empty. */
  function RequestHeaders(request: WebhookRequest): (r: map<string, string>)
    ensures Truthy(request.body) ==> ContentTypeName in r
    ensures forall k :: k in r ==> r[k] != ""
  {
    WithHeadersValuesNonEmpty(map[], request.headers);
    WithDefaultContentType(WithHeaders(map[], request.headers), request.body)
  }

  /** `fetchOptions.body`: set only for a non-empty body and a POST, PUT or PATCH request. */
  function AttachedBody(request: WebhookRequest): (r: Option<string>)
    ensures r.Some? <==> request.body.Some? && request.body.value != "" && request.httpMethod in {"POST", "PUT", "PATCH"}
    ensures r.Some? ==> r == request.body
  {
    if Truthy(request.body) && SendsBody(request.httpMethod) then request.body else None
  }

  /** The `RequestInit` given to `fetch`. */
  datatype FetchOptions = FetchOptions(httpMethod: string, headers: map<string, string>, body: Option<string>)

  /** `Content-Type: application/json` is added exactly when there is a body and no usable row is
      named `Content-Type` (compared case-sensitively); otherwise the rows' dictionary is sent as is. */
  lemma DefaultContentTypeRule(request: WebhookRequest)
    ensures var m := WithHeaders(map[], request.headers);
      RequestHeaders(request) ==
        if Truthy(request.body) && !Names(request.headers, ContentTypeName) then m[ContentTypeName := JsonMediaType]
        else m
  {
    WithHeadersKeys(map[], request.headers, ContentTypeName);
    WithHeadersValuesNonEmpty(map[], request.headers);
  }

  /** The names sent are exactly the names of the usable rows, plus `Content-Type` when a body is present. */
  lemma RequestHeaderNames(request: WebhookRequest, k: string)
    ensures k in RequestHeaders(request) <==>
      Names(request.headers, k) || (k == ContentTypeName && Truthy(request.body))
  {
    DefaultContentTypeRule(request);
    WithHeadersKeys(map[], request.headers, k);
  }

  /** A row named `content-type` does not count as `Content-Type`: both names are sent. */
  lemma ContentTypeNameIsCaseSensitive()
    ensures RequestHeaders(WebhookRequest("u", "POST", [Header("content-type", "text/plain")], Some("{}"))) ==
      map["content-type" := "text/plain", "Content-Type" := "application/json"]
  {
    var hs := [Header("content-type", "text/plain")];
    assert hs[..0] == [];
  }

  /** The header and body logic of `handleSendRequest` before `fetch`: a `forEach` over the rows,
      then the conditional `Content-Type` and body assignments. */
  method PrepareFetch(request: WebhookRequest) returns (opts: FetchOptions)
    ensures opts == FetchOptions(request.httpMethod, RequestHeaders(request), AttachedBody(request))
  {
    var headers := BuildHeaderMap(map[], request.headers);
    if request.body.Some? && request.body.value != ""
      && !(ContentTypeName in headers && headers[ContentTypeName] != "")
    {
      headers := headers[ContentTypeName := JsonMediaType];
    }
    opts := FetchOptions(request.httpMethod, headers, None);
    if request.body.Some? && request.body.value != "" && request.httpMethod in ["POST", "PUT", "PATCH"] {
      opts := opts.(body := request.body);
    }
  }

  // ---------------------------------------------------------------------------
  // Response

  /** How `handleSendRequest` reads the body. A content type naming JSON goes to `response.json()`
      and, when that rejects, falls back to `response.text()`; any other goes to `text()`. `json()`
      has consumed a body that is there, so the fallback `text()` rejects as well: only a response
      without a body (which `json()` leaves unconsumed) falls back to its empty text. */
  function ReadResponseBody(o: FetchOutcome): (r: Read)
    requires o.Responded?
    ensures r.ReadThrew? <==> DeclaresJson(o.contentType) && o.parsed.None? && !o.nullBody
    ensures r.ReadThrew? ==> r.message == o.readError
    ensures DeclaresJson(o.contentType) && o.parsed.Some? ==> r == Content(Pretty(o.parsed.value))
    ensures !DeclaresJson(o.contentType) || (o.parsed.None? && o.nullBody) ==> r == Content(o.text)
  {
    if DeclaresJson(o.contentType) then
      match o.parsed
      case Some(v) => Content(Pretty(v))
      case None => if o.nullBody then Content(o.text) else ReadThrew(o.readError)
    else Content(o.text)
  }

  /** The body as the code evidently means to read it: the text read once, shown pretty-printed
      when the content type says JSON and it parses, as it is otherwise. */
  function IntendedResponseBody(o: FetchOutcome): (r: string)
    requires o.Responded?
    ensures DeclaresJson(o.contentType) && o.parsed.Some? ==> r == Pretty(o.parsed.value)
    ensures !(DeclaresJson(o.contentType) && o.parsed.Some?) ==> r == o.text
  {
    if DeclaresJson(o.contentType) && o.parsed.Some? then Pretty(o.parsed.value) else o.text
  }

  /** How the `try` block of `handleSendRequest` ends: the response it shows, and whether it
      reached the history push. */
  datatype Settled = Settled(response: WebhookResponse, recorded: bool)

  /** The outcome as the source settles it: a response whose body reads is shown and recorded;
      a failed call, or a body read that throws, lands in the `catch` and shows a network error
      that is not recorded. */
  function Settle(o: FetchOutcome, duration: int, timestamp: string): (s: Settled)
    ensures s.recorded <==> o.Responded? && ReadResponseBody(o).Content?
    ensures s.recorded ==>
      s.response == WebhookResponse(o.status, o.statusText, o.headers, ReadResponseBody(o).value, duration, timestamp)
    ensures o.Threw? ==> s.response == NetworkError(o.message, duration, timestamp)
    ensures o.Responded? && !s.recorded ==> s.response == NetworkError(Some(o.readError), duration, timestamp)
  {
    match o
    case Threw(message) => Settled(NetworkError(message, duration, timestamp), false)
    case Responded(_, status, statusText, headers, _, _, _, _, _) =>
      match ReadResponseBody(o)
      case Content(body) => Settled(WebhookResponse(status, statusText, headers, body, duration, timestamp), true)
      case ReadThrew(message) => Settled(NetworkError(Some(message), duration, timestamp), false)
  }

  /** The outcome settled with the body read once: every response is shown with its own status
      and recorded; only a failed call is a network error. */
  function SettleIntended(o: FetchOutcome, duration: int, timestamp: string): (s: Settled)
    ensures s.recorded <==> o.Responded?
    ensures o.Responded? ==> s.response.status == o.status && s.response.statusText == o.statusText
    ensures o.Responded? ==> s.response.headers == o.headers && s.response.body == IntendedResponseBody(o)
    ensures o.Threw? ==> s.response == NetworkError(o.message, duration, timestamp)
  {
    match o
    case Threw(message) => Settled(NetworkError(message, duration, timestamp), false)
    case Responded(_, status, statusText, headers, _, _, _, _, _) =>
      Settled(WebhookResponse(status, statusText, headers, IntendedResponseBody(o), duration, timestamp), true)
  }

  /** The two readings part only on a JSON response with a body that does not parse: there the
      source shows a network error with status 0 and records nothing, while the intended reading
      shows the text. Everywhere else they settle alike. */
  lemma SettleAgreesWhenReadable(o: FetchOutcome, duration: int, timestamp: string)
    ensures Settle(o, duration, timestamp) == SettleIntended(o, duration, timestamp) <==>
      !(o.Responded? && DeclaresJson(o.contentType) && o.parsed.None? && !o.nullBody)
  {
    if o.Responded? && DeclaresJson(o.contentType) && o.parsed.None? && !o.nullBody {
      assert !Settle(o, duration, timestamp).recorded;
    }
  }

  /** A response without a body (a 204, say) labelled JSON is shown with an empty body and its
      own status, and is recorded, as the intended reading would have it. */
  lemma NoBodyIsRecorded(o: FetchOutcome, duration: int, timestamp: string)
    requires Coherent(o) && o.Responded? && o.nullBody
    ensures ReadResponseBody(o) == Content("")
    ensures Settle(o, duration, timestamp).recorded
    ensures Settle(o, duration, timestamp).response.status == o.status
    ensures Settle(o, duration, timestamp) == SettleIntended(o, duration, timestamp)
  {
    SettleAgreesWhenReadable(o, duration, timestamp);
  }

  /** A 200 response labelled JSON whose body is `{oops` is shown as a network error and is not
      recorded, though the server answered. */
  lemma UnparsableJsonShownAsNetworkError()
    ensures var o := Responded(true, 200, "OK", map[], Some("application/json"), None, "{oops", false, "Body has already been consumed.");
      && Settle(o, 5, "t").response == NetworkError(Some("Body has already been consumed."), 5, "t")
      && !Settle(o, 5, "t").recorded
      && SettleIntended(o, 5, "t").response == WebhookResponse(200, "OK", map[], "{oops", 5, "t")
      && SettleIntended(o, 5, "t").recorded
  {
    assert DeclaresJson(Some("application/json")) by {
      assert OccursAt("application/json", JsonMediaType, 0);
    }
  }

  /** The response shown when `fetch` throws. */
  function NetworkError(message: Option<string>, duration: int, timestamp: string): (r: WebhookResponse)
    ensures r.status == 0 && r.statusText == "Network Error" && r.headers == map[]
    ensures r.body == if message.Some? then message.value else "Unknown error occurred"
  {
    WebhookResponse(0, "Network Error", map[], Pick(message, "Unknown error occurred"), duration, timestamp)
  }

  // ---------------------------------------------------------------------------
  // The component's state

  class Tester {
    var profiles: seq<WebhookProfile>
    var activeProfileId: Option<string>
    var history: seq<HistoryItem>
    var response: Option<WebhookResponse>
    var loading: bool

    /** Between two handlers no request is in flight and the history is within its bound. */
    ghost predicate Valid()
      reads this
    {
      |history| <= HistoryLimit && !loading
    }

    /** A fresh component: the stored profiles and active id, no history, no response. */
    constructor(storedProfiles: seq<WebhookProfile>, storedActiveId: Option<string>)
      ensures Valid()
      ensures profiles == storedProfiles && activeProfileId == storedActiveId
      ensures history == [] && response == None
    {
      profiles := storedProfiles;
      activeProfileId := storedActiveId;
      history := [];
      response := None;
      loading := false;
    }

    function Active(): (r: Option<WebhookProfile>)
      reads this
      ensures r.Some? ==> activeProfileId == Some(r.value.id) && r.value in profiles
    {
      ActiveProfile(profiles, activeProfileId)
    }

    /** `handleCreateProfile`: appends a profile whose id is the clock reading and activates it. */
    method CreateProfile(data: ProfileData, clock: nat, createdAt: string)
      requires Valid()
      modifies this
      ensures Valid()
      ensures profiles == old(profiles) + [NewProfile(data, NatToDecimal(clock), createdAt)]
      ensures activeProfileId == Some(NatToDecimal(clock))
      ensures Active().Some? && Active().value.id == NatToDecimal(clock)
      ensures history == old(history) && response == old(response)
    {
      var p := NewProfile(data, NatToDecimal(clock), createdAt);
      profiles := profiles + [p];
      activeProfileId := Some(p.id);
      ActiveAfterCreate(old(profiles), p);
    }

    /** `handleUpdateProfile`: overlays the patch on every profile carrying `id`. */
    method UpdateProfile(id: string, updates: ProfilePatch)
      requires Valid()
      modifies this
      ensures Valid()
      ensures profiles == Updated(old(profiles), id, updates)
      ensures activeProfileId == old(activeProfileId)
      ensures history == old(history) && response == old(response)
    {
      profiles := Updated(profiles, id, updates);
    }

    /** `handleDeleteProfile`: removes every profile carrying `id` and clears the active id if it named `id`. */
    method DeleteProfile(id: string)
      requires Valid()
      modifies this
      ensures Valid()
      ensures profiles == Deleted(old(profiles), id)
      ensures activeProfileId == ActiveIdAfterDelete(old(activeProfileId), id)
      ensures Active() == if old(activeProfileId) == Some(id) then None else old(Active())
      ensures history == old(history) && response == old(response)
    {
      profiles := Deleted(profiles, id);
      if activeProfileId == Some(id) {
        activeProfileId := None;
      }
      ActiveAfterDelete(old(profiles), old(activeProfileId), id);
    }

    /** `handleSelectProfile`: points at the profile's id. */
    method SelectProfile(profile: WebhookProfile)
      requires Valid()
      modifies this
      ensures Valid()
      ensures activeProfileId == Some(profile.id)
      ensures profile in profiles ==> Active().Some? && Active().value.id == profile.id
      ensures profiles == old(profiles) && history == old(history) && response == old(response)
    {
      activeProfileId := Some(profile.id);
    }

    /** `handleSendRequest`, with `fetch` and the clock as parameters: `outcome` is what the call
        produced, `clock` the reading that names the history item. Returns what was given to `fetch`. */
    method SendRequest(request: WebhookRequest, outcome: FetchOutcome, clock: nat, duration: int,
                       responseTime: string, itemTime: string)
      returns (opts: FetchOptions)
      requires Valid()
      modifies this
      ensures Valid()
      ensures opts == FetchOptions(request.httpMethod, RequestHeaders(request), AttachedBody(request))
      ensures response == Some(Settle(outcome, duration, responseTime).response)
      ensures history == if Settle(outcome, duration, responseTime).recorded
        then Pushed(HistoryItem(NatToDecimal(clock), request, response.value, itemTime), old(history))
        else old(history)
      ensures profiles == old(profiles) && activeProfileId == old(activeProfileId)
    {
      loading := true;
      opts := PrepareFetch(request);
      match outcome {
        case Responded(_, status, statusText, headers, _, _, _, _, _) =>
          var read := ReadResponseBody(outcome);
          match read {
            case Content(body) =>
              var received := WebhookResponse(status, statusText, headers, body, duration, responseTime);
              response := Some(received);
              history := Pushed(HistoryItem(NatToDecimal(clock), request, received, itemTime), history);
            case ReadThrew(message) =>
              response := Some(NetworkError(Some(message), duration, responseTime));
          }
        case Threw(message) =>
          response := Some(NetworkError(message, duration, responseTime));
      }
      loading := false;
    }

    /** `handleHistorySelect`: shows a past response again. */
    method SelectHistoryItem(item: HistoryItem)
      requires Valid()
      modifies this
      ensures Valid()
      ensures response == Some(item.response)
      ensures profiles == old(profiles) && activeProfileId == old(activeProfileId) && history == old(history)
    {
      response := Some(item.response);
    }
  }
}
