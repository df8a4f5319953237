# Webhook Tester: a Dafny model of its request, profile and chat rules

Webhook Tester is a single-page React app for sending HTTP requests to webhooks. It keeps a table of
stored webhook profiles with one active profile. It also keeps a bounded history of sent requests
and a chat view that posts each typed message to the active profile's url. Most of each component
is layout. This model lifts out the rules the components apply when their state changes:

- the profile table and its active profile id (`WebhookTester`), a class whose handlers update
  the table, the active id, the history and the shown response;
- the shaping of an outgoing request (`HeaderMaps`, `WebhookTester`): the header dictionary built
  row by row, the default `Content-Type`, and the body that is attached only to POST, PUT and PATCH;
- the one-shot request form (`RequestForm`), a class over header *row objects*, with `updateHeader`
  writing into a row in place, as the component does;
- the profile form (`ProfileManager`), pure handlers over a form record;
- the chat (`ChatInterface`), a class whose send appends exactly one user message and one reply;
- the status colours and url truncation of the history and response panels (`RequestHistory`,
  `ResponseDisplay`).

`fetch`, the clock and JSON are parameters. A `FetchOutcome` is either a response or a thrown error
with an optional message. A response carries its status, headers and content type; its body
parsed as JSON (if it parses) and as text; whether it has no body at all; and the message of the
`TypeError` raised when a consumed body is read again. Clock readings are natural numbers, and ids are their decimal notation. Timestamps are
opaque strings. JavaScript's `trim` strips the ECMAScript whitespace and line-terminator set
(`Text.IsWhitespace`). A string is truthy when it is non-empty.

Files: `text.dfy` (trim, includes, decimal notation), `webhook_types.dfy` (the records of
`src/types/webhook.ts`), `header_maps.dfy`, `row_edits.dfy`, `webhook_tester.dfy`,
`request_form.dfy`, `profile_manager.dfy`, `chat_interface.dfy`, `request_history.dfy`,
`response_display.dfy`.

## Model

| member | source | states |
|---|---|---|
| Text.Trim | src/components/RequestForm.tsx:50-56 | `trim` returns a string no longer than the input whose ends are not whitespace, and is empty exactly when the input is all whitespace |
| Text.TrimIsInfix | src/components/RequestForm.tsx:50-56 | what `trim` keeps is an infix of the input with only whitespace before and after it |
| Text.IsBlank | src/components/RequestForm.tsx:50 | `!s.trim()` holds exactly when every character is whitespace |
| Text.BlankIffTrimEmpty | src/components/RequestForm.tsx:50 | the whitespace test is `!s.trim()`: a string is blank exactly when trimming it leaves the empty string |
| Text.TrimKeepsText | src/components/ChatInterface.tsx:47-52 | a message with a non-whitespace character trims to a non-empty text, so the user message sent is never empty |
| Text.TrimIdempotent | src/components/RequestForm.tsx:53 | trimming an already trimmed url (or message, or body) changes nothing |
| Text.Contains | src/components/WebhookTester.tsx:88 | `includes` is true exactly when the needle occurs at some position |
| HeaderMaps.Usable | src/components/WebhookTester.tsx:57 | a row is written into the dictionary exactly when its key and its value are both truthy (non-empty) |
| HeaderMaps.WithHeaders | src/components/WebhookTester.tsx:56-60 | writing the rows keeps every starting name, and a usable last row ends up in the dictionary with its value (the full characterisation is `WithHeadersKeys`, `WithHeadersLastWins` and `WithHeadersKeepsUnnamed`) |
| HeaderMaps.DeclaresJson | src/components/WebhookTester.tsx:88 | `contentType?.includes('application/json')` holds exactly when a content type is present and `application/json` occurs in it somewhere |
| HeaderMaps.JsonWithParameters | src/components/ChatInterface.tsx:78 | a content type that begins with `application/json` (such as `application/json; charset=utf-8`) counts as JSON |
| Text.NatToDecimal | src/components/WebhookTester.tsx:24 | `Date.now().toString()` is a non-empty string of digits with no leading zero |
| Text.DecimalRoundTrip | src/components/WebhookTester.tsx:24 | reading an id back as a number gives the clock reading it came from |
| Text.IntToDecimal | src/components/ChatInterface.tsx:93 | `String(status)` starts with `-` exactly for a negative status, and the digits after it read back as the status's magnitude with no leading zero unless the status is 0 |
| Text.DecimalInjective | src/components/WebhookTester.tsx:24 | two ids are equal only when they come from equal clock readings |
| HeaderMaps.WithHeadersKeys | src/components/WebhookTester.tsx:55-60 | the dictionary's names are the starting names plus the names of rows whose key and value are both non-empty |
| HeaderMaps.WithHeadersLastWins | src/components/WebhookTester.tsx:55-60 | for a repeated name, the last usable row's value is the one kept |
| HeaderMaps.WithHeadersKeepsUnnamed | src/components/WebhookTester.tsx:55-60 | a starting entry that no usable row names keeps its value |
| HeaderMaps.WithHeadersValuesNonEmpty | src/components/WebhookTester.tsx:55-60 | no empty value is ever written into the dictionary |
| HeaderMaps.WithHeadersOverrides | src/components/ChatInterface.tsx:27-34 | writing the rows over a base dictionary is the base overridden by the rows' own dictionary |
| HeaderMaps.BuildHeaderMap | src/components/WebhookTester.tsx:55-60 | the `forEach` loop computes exactly the dictionary the specification function defines |
| RowEdits.RemoveAt | src/components/ProfileManager.tsx:90-95 | filtering by index drops exactly the element at an in-range index and nothing otherwise; the rest keep their order |
| RowEdits.SetField | src/components/ProfileManager.tsx:101 | the spread with a computed field replaces that field only |
| RowEdits.UpdateAt | src/components/ProfileManager.tsx:97-104 | mapping by index keeps the length and every other row, and replaces one field of the row at the index |
| RowEdits.UpdateAtReplaces | src/components/ProfileManager.tsx:100-102 | the by-index map is a single replacement at an in-range index and no change otherwise |
| WebhookTester.NewProfile | src/components/WebhookTester.tsx:22-26 | the new profile carries the form data field by field plus the given id and creation time |
| WebhookTester.Overlay | src/components/WebhookTester.tsx:35 | each field present in the patch replaces the profile's field, and each absent field keeps the profile's |
| WebhookTester.OverlayLaws | src/components/WebhookTester.tsx:35 | the spread merge with an empty patch is the identity, merging a patch twice equals merging it once, and a patch without id keeps the id |
| WebhookTester.FindById | src/components/WebhookTester.tsx:19 | `find` returns nothing exactly when no profile carries the id, and otherwise a listed profile with that id |
| WebhookTester.FindByIdIsFirst | src/components/WebhookTester.tsx:19 | what `find` returns is the profile at the first position carrying the id |
| WebhookTester.ActiveProfile | src/components/WebhookTester.tsx:19 | there is an active profile exactly when the active id is set and some profile carries its id; that profile is listed and carries the id |
| WebhookTester.Updated | src/components/WebhookTester.tsx:33-37 | update keeps length and order, overlays the patch on every profile with the id, and leaves every other profile unchanged |
| WebhookTester.Deleted | src/components/WebhookTester.tsx:40 | no survivor of a delete carries the deleted id, and the table does not grow |
| WebhookTester.DeletedCounts | src/components/WebhookTester.tsx:40 | delete removes every copy of each profile with the id and keeps every copy of every other profile |
| WebhookTester.DeletedAppend | src/components/WebhookTester.tsx:40 | delete distributes over concatenation, so survivors keep their relative order |
| WebhookTester.ActiveIdAfterDelete | src/components/WebhookTester.tsx:41-43 | the active id is cleared exactly when it named the deleted id, and is otherwise unchanged |
| WebhookTester.FindByIdAppend | src/components/WebhookTester.tsx:19 | appending a profile changes `find` only when no earlier profile carried the id |
| WebhookTester.ActiveAfterCreate | src/components/WebhookTester.tsx:27-28 | after a create the active profile is the new one, unless an older profile already carries the same clock-derived id, in which case it is that older one |
| WebhookTester.ActiveAfterDelete | src/components/WebhookTester.tsx:39-44 | after a delete there is no active profile if the active id named the id, and otherwise the same one as before |
| WebhookTester.FindByIdSkipsDeleted | src/components/WebhookTester.tsx:40 | deleting one id does not change which profile `find` returns for another id |
| WebhookTester.ActiveAfterUpdate | src/components/WebhookTester.tsx:33-37 | an update without an id field maps the active profile through the same merge |
| WebhookTester.Newest | src/components/WebhookTester.tsx:118 | the kept history is a prefix of at most ten items, the whole list when it fits |
| WebhookTester.Pushed | src/components/WebhookTester.tsx:118 | the new item is at index 0, the history has at most ten items, and the tail is the previous first items in order |
| WebhookTester.PushedIsNewest | src/components/WebhookTester.tsx:118 | one push keeps the newest ten of the new item followed by the old history |
| WebhookTester.NewestAbsorbs | src/components/WebhookTester.tsx:118 | cutting to ten before prepending more items and cutting again is cutting once |
| WebhookTester.PushAllKeepsNewest | src/components/WebhookTester.tsx:118 | after any sequence of successful sends the history is the newest ten items, newest first |
| WebhookTester.AttachedBody | src/components/WebhookTester.tsx:72-74 | a body is attached exactly when it is non-empty and the method is POST, PUT or PATCH, and it is the request's body |
| WebhookTester.SendsBody | src/components/WebhookTester.tsx:72 | `['POST', 'PUT', 'PATCH'].includes(method)` holds exactly for those three methods, compared exactly |
| WebhookTester.WithDefaultContentType | src/components/WebhookTester.tsx:63-65 | with a body the dictionary ends up with a non-empty `Content-Type`, an existing usable one kept as is; without a body, or with one already set, nothing changes; no other name is touched |
| WebhookTester.RequestHeaders | src/components/WebhookTester.tsx:55-65 | every value sent is non-empty, and a `Content-Type` is sent whenever a body is present |
| WebhookTester.DefaultContentTypeRule | src/components/WebhookTester.tsx:63-65 | `Content-Type: application/json` is added exactly when a body is present and no usable row is named exactly `Content-Type`; otherwise the dictionary is sent unchanged |
| WebhookTester.RequestHeaderNames | src/components/WebhookTester.tsx:55-65 | the names sent are exactly the usable rows' names, plus `Content-Type` when a body is present |
| WebhookTester.ContentTypeNameIsCaseSensitive | src/components/WebhookTester.tsx:63 | a row named `content-type` does not suppress the default, so both names are sent |
| WebhookTester.PrepareFetch | src/components/WebhookTester.tsx:55-74 | the step-by-step header and body assignments produce the method, the specified dictionary and the specified body |
| WebhookTypes.Pretty | src/components/WebhookTester.tsx:91 | `JSON.stringify(json, null, 2)` is `null` for a JSON null and the value's pretty-printed text otherwise |
| WebhookTester.ReadResponseBody | src/components/WebhookTester.tsx:85-97 | as written: reading throws exactly for a JSON content type whose body is there but does not parse, with the consumed-body message; otherwise the parsed JSON pretty-printed, or the text |
| WebhookTester.IntendedResponseBody | src/components/WebhookTester.tsx:85-97 | corrected: the JSON pretty-printed when the content type says JSON and the body parses, otherwise the text, never an error |
| WebhookTester.Settle | src/components/WebhookTester.tsx:85-131 | as written: a response is recorded exactly when its body reads, and shows its status, headers and body; a thrown fetch or a throwing body read shows the network error and is not recorded |
| WebhookTester.SettleIntended | src/components/WebhookTester.tsx:85-131 | corrected: every response is recorded with its own status, headers and intended body; only a thrown fetch is a network error |
| WebhookTester.SettleAgreesWhenReadable | src/components/WebhookTester.tsx:88-94 | the two settle alike exactly unless the content type says JSON and a body that is there does not parse |
| WebhookTester.UnparsableJsonShownAsNetworkError | src/components/WebhookTester.tsx:88-94 | a 200 JSON response with body `{oops` is shown as a status-0 network error and not recorded, where the intended reading shows `{oops` |
| WebhookTester.NoBodyIsRecorded | src/components/WebhookTester.tsx:85-131 | for a response `fetch` can produce that has no body, the body reads as '' even under a JSON content type, and the exchange is recorded with its status, as the corrected reading does |
| WebhookTester.NetworkError | src/components/WebhookTester.tsx:124-131 | a thrown fetch shows status 0, `Network Error`, no headers, and the error's message or `Unknown error occurred` |
| WebhookTester.Tester.constructor | src/components/WebhookTester.tsx:11-16 | the component starts with the stored profiles and active id, no history and no response |
| WebhookTester.Tester.Active | src/components/WebhookTester.tsx:19 | the derived active profile is a listed profile carrying the active id |
| WebhookTester.Tester.CreateProfile | src/components/WebhookTester.tsx:21-31 | create appends exactly one profile, leaves the earlier ones unchanged, and activates the new id, whose active profile carries that id |
| WebhookTester.Tester.UpdateProfile | src/components/WebhookTester.tsx:33-37 | the table becomes its update by id; active id, history and response are unchanged |
| WebhookTester.Tester.DeleteProfile | src/components/WebhookTester.tsx:39-44 | the table becomes its delete by id, the active id is cleared exactly when it named the id, and the active profile is gone or unchanged accordingly |
| WebhookTester.Tester.SelectProfile | src/components/WebhookTester.tsx:46-48 | select points at the profile's id, and a listed profile becomes the active one by id |
| WebhookTester.Tester.SendRequest | src/components/WebhookTester.tsx:50-135 | the fetch options are the specified ones; the shown response is the settled one; it is pushed onto the bounded history exactly when the body read, and otherwise the history is unchanged; loading is false again afterwards |
| WebhookTester.Tester.SelectHistoryItem | src/components/WebhookTester.tsx:137-139 | choosing a history item shows its response and changes nothing else |
| RequestForm.NamedRows | src/components/RequestForm.tsx:55 | no kept row has a blank name, and the list does not grow |
| RequestForm.NamedRowsCounts | src/components/RequestForm.tsx:55 | every row with a non-blank name is kept as often as it occurs, and no other row is kept |
| RequestForm.NamedRowsAppend | src/components/RequestForm.tsx:55 | the filter distributes over concatenation, so kept rows stay in their original order |
| RequestForm.SubmittedBody | src/components/RequestForm.tsx:56 | the body is absent exactly when it is all whitespace, and is otherwise the trimmed, non-empty body |
| RequestForm.Form.constructor | src/components/RequestForm.tsx:16-21 | the url defaults to empty and the method to POST; the rows are the caller's rows when there are any, else one new empty row; the body is the sample JSON |
| RequestForm.Form.Load | src/components/RequestForm.tsx:24-30 | a new `initialData` sets url and method as given (no POST fallback) and the rows as in the initial state, keeping the body |
| RequestForm.Form.AddHeader | src/components/RequestForm.tsx:34-36 | one new empty row is appended and the earlier rows are unchanged |
| RequestForm.Form.RemoveHeader | src/components/RequestForm.tsx:38-40 | exactly the row at an in-range index is dropped, an out-of-range index is a no-op, and the other rows keep their order |
| RequestForm.Form.UpdateHeader | src/components/RequestForm.tsx:42-46 | as written: the list keeps the same row objects and the field of the row object at the index is assigned, and an out-of-range index throws before any change; with distinct rows, the rows now read as the by-index update |
| RequestForm.Form.UpdateHeaderCopying | src/components/RequestForm.tsx:42-46 | corrected: the row at the index is replaced by a new object carrying the edit, and every other row object is kept |
| RequestForm.Form.Submit | src/components/RequestForm.tsx:48-60 | nothing is sent for a blank url; otherwise the request has the trimmed url, the named rows in order, and the trimmed body or none |
| RequestForm.EditReachesCallerRow | src/components/RequestForm.tsx:44 | editing the first header of a form started from the active profile's rows changes that profile's row object |
| RequestForm.CopyingEditLeavesCallerRow | src/components/RequestForm.tsx:42-46 | with the corrected edit the caller's row keeps its value while the form shows the edit |
| ProfileManager.DataOf | src/components/ProfileManager.tsx:52 | create hands over the form's fields as they are, untrimmed |
| ProfileManager.PatchOf | src/components/ProfileManager.tsx:72 | update hands over every form field and neither id nor creation time |
| ProfileManager.ResetForm | src/components/ProfileManager.tsx:38-47 | the form goes back to its defaults, and the edit target and the create form's visibility are unchanged |
| ProfileManager.FormOf | src/components/ProfileManager.tsx:58-65 | the form takes the profile's fields as they are, a missing description becoming '' |
| ProfileManager.HandleCreate | src/components/ProfileManager.tsx:49-55 | create calls the parent exactly when name and url both have non-whitespace text; then the form is reset and hidden; otherwise nothing changes |
| ProfileManager.HandleEdit | src/components/ProfileManager.tsx:57-67 | editing copies the profile's fields into the form, a missing description becoming '', and records the profile's id |
| ProfileManager.HandleUpdate | src/components/ProfileManager.tsx:69-75 | update calls the parent exactly when a non-empty edit target is set and name and url have text; then the form is reset and the target cleared; otherwise nothing changes |
| ProfileManager.HandleCancel | src/components/ProfileManager.tsx:77-81 | cancel returns to the default form, hidden, with no edit target |
| ProfileManager.AddHeader | src/components/ProfileManager.tsx:83-88 | one empty row is appended, and every other field is unchanged |
| ProfileManager.RemoveHeader | src/components/ProfileManager.tsx:90-95 | only the row at an in-range index is dropped, and every other field is unchanged |
| ProfileManager.UpdateHeader | src/components/ProfileManager.tsx:97-104 | a new list of the same length where only the row at the index has its field replaced |
| ProfileManager.CreateThenEdit | src/components/ProfileManager.tsx:49-67 | editing a freshly created profile gives back the form it was created from |
| ProfileManager.EditThenSave | src/components/ProfileManager.tsx:57-75 | opening a profile and saving at once sends a patch that changes nothing but a missing description, which becomes '' |
| ProfileManager.SavedEditKeepsActive | src/components/ProfileManager.tsx:69-75 | a saved edit never changes ids, so the tester's active profile is the edited one or unchanged |
| ChatInterface.ChatHeadersFor | src/components/ChatInterface.tsx:27-34 | the chat dictionary is `Content-Type: application/json` overridden by the usable rows, including `Content-Type` itself |
| ChatInterface.FirstTruthy | src/components/ChatInterface.tsx:82 | the first truthy candidate wins, and the fallback is used when none is truthy |
| ChatInterface.ReplyText | src/components/ChatInterface.tsx:82 | the first of `message`, `response`, `text`, `content` that is a non-empty string, in that order, otherwise the pretty-printed JSON |
| ChatInterface.ReplyTextIsFirstTruthy | src/components/ChatInterface.tsx:82 | the `||` chain is the first-truthy rule over `message`, `response`, `text` and `content`, with the pretty-printed JSON as fallback |
| ChatInterface.ReadReply | src/components/ChatInterface.tsx:75-88 | as written: reading throws exactly for a JSON content type whose body is `null`, or is there and does not parse, with the consumed-body message; otherwise the reply text of the JSON, or the text |
| ChatInterface.IntendedReplyContent | src/components/ChatInterface.tsx:75-88 | corrected: a JSON `null` reads as `null`, other JSON as its reply text, everything else as the text, never an error |
| ChatInterface.StatusLine | src/components/ChatInterface.tsx:93 | the status line is exactly `HTTP `, the decimal notation of the status, `: ` and the status text, so it starts with `HTTP ` and ends with the status text |
| ChatInterface.Answer | src/components/ChatInterface.tsx:90-97 | a response answer is 'webhook' exactly when ok, carries the status and duration, and shows the content or, when it is empty, the status line |
| ChatInterface.Failure | src/components/ChatInterface.tsx:101-113 | the `catch` message is an error with no status and the thrown message or `Failed to send message` |
| ChatInterface.ReplyMessage | src/components/ChatInterface.tsx:75-113 | as written: the reply is 'webhook' exactly for an ok response whose body reads, and never 'user'; it has a status exactly when the body reads; empty content becomes `HTTP <status>: <statusText>`; a throwing body read gives an error with the consumed-body message; a thrown fetch gives the message or `Failed to send message` |
| ChatInterface.IntendedReplyMessage | src/components/ChatInterface.tsx:75-113 | corrected: every response is answered with its own status and non-empty content, and is 'webhook' exactly when ok |
| ChatInterface.ReplyAgreesWhenReadable | src/components/ChatInterface.tsx:78-85 | the two replies are equal exactly unless the response's body read throws |
| ChatInterface.NullJsonReplyIsError | src/components/ChatInterface.tsx:80-84 | an ok JSON response with body `null` becomes an error message without a status, where the intended reading answers `null` with status 200 |
| ChatInterface.CanSend | src/components/ChatInterface.tsx:47 | a send goes ahead exactly when input and url both have text and nothing is in flight |
| ChatInterface.PairedAppend | src/components/ChatInterface.tsx:56-113 | appending a user message with text and then a reply keeps the conversation in user/reply pairs |
| ChatInterface.Chat.constructor | src/components/ChatInterface.tsx:11-18 | the chat starts empty with the default `Content-Type` dictionary |
| ChatInterface.Chat.ApplyProfile | src/components/ChatInterface.tsx:22-37 | a profile sets the url and the dictionary built from its rows; no profile changes nothing |
| ChatInterface.Chat.SendMessage | src/components/ChatInterface.tsx:46-117 | a blocked send changes nothing; an accepted send posts the trimmed text to the url, clears the input and appends exactly the user message and then the reply |
| ChatInterface.Chat.ClearChat | src/components/ChatInterface.tsx:126-128 | clearing empties the messages and keeps the rest |
| RequestHistory.StatusColor | src/components/RequestHistory.tsx:11-17 | 0 is red; emerald exactly for 200..299, blue for 300..399, orange for 400..499, red for every other status |
| RequestHistory.Prefix | src/components/RequestHistory.tsx:21 | `substring(0, n)` is the url's first `n` characters, and a negative `n` counts as 0 |
| RequestHistory.TruncateUrl | src/components/RequestHistory.tsx:19-22 | a url that fits is unchanged; otherwise the result is `maxLength` characters of the url (at least 0) followed by `...` |
| RequestHistory.TruncateUrlSettles | src/components/RequestHistory.tsx:19-22 | a truncated url fits its limit plus three, so truncating it again with that limit leaves it alone |
| ResponseDisplay.StatusColor | src/components/ResponseDisplay.tsx:23-29 | 0 is red on red; emerald exactly for 2xx, blue for 3xx, orange for 4xx, red for every other status |
| ResponseDisplay.StatusColorsAgree | src/components/ResponseDisplay.tsx:23-29 | the response panel bands statuses exactly as the history panel does, and its class begins with the history's class |
| ResponseDisplay.BodyText | src/components/ResponseDisplay.tsx:106 | an empty body shows `No response body`, and a non-empty body is shown verbatim |

## Left out

- `fetch` and the body streams are the `FetchOutcome` parameter. The datatype admits combinations `fetch` never produces (an `ok` flag that disagrees with the status, a response without a body that parses or has text); `WebhookTypes.Coherent` names the ones it does, and the properties that rely on it require it. A parsed JSON value is `null` or a record of its four looked-up members, as optional strings, plus its pretty-printed text. Whether a failed `json()` leaves the body consumed is the outcome's `nullBody` flag: only a response without a body is left readable. The `TypeError` messages are one opaque string.
- RequestHistory.Prefix: lengths and cut positions count Unicode code points, while `substring` counts UTF-16 code units, so a url holding a character outside the Basic Multilingual Plane is cut at a different place.
- RequestHistory.TruncateUrl: `url.length` counts UTF-16 code units and `|url|` counts code points, so a url holding a character outside the Basic Multilingual Plane may be judged to fit here but not in the source.
- `Date.now()` and `new Date().toISOString()` are parameters: clock readings, durations and timestamp strings. Ids are not assumed unique or increasing. `Number.prototype.toString` is modelled for integers only, without the exponent form of very large numbers.
- `JSON.stringify` of the chat body and the settings textarea that parses headers as JSON are not modelled; the chat request records the message and timestamp it would carry.
- ChatInterface.FirstTruthy: JSON fields that are not strings (numbers, objects, `true`) are reduced to absent or present strings, so their truthiness and `String` conversion are not modelled.
- The `useLocalStorage` hook and browser storage: the stored profiles and active id are the constructor's arguments.
- React scheduling: state updates are applied in handler order; rendering, `useEffect` timing (including the request form reloading whenever a new `initialData` object is passed), scrolling, the clipboard and `setTimeout` are not modelled.
- Concurrency between overlapping sends: each send runs to completion, and `loading` is true only while it runs.
- Plain input setters, which store what is typed and check nothing: tab switching (`setActiveTab`: the tab buttons at src/components/WebhookTester.tsx:148-168, the switch to the tester after a create at :30, which `Tester.CreateProfile` does not model, and the `onProfileRequired` switch at :232), opening the profile form (`setShowCreateForm(true)`, src/components/ProfileManager.tsx:115; only its closing by create and cancel is modelled), the profile form's name, method, url, description and colour handlers (src/components/ProfileManager.tsx:141-196), the chat's settings toggle, url input and message input (`setShowSettings`, `setWebhookUrl`, `setInputMessage`, src/components/ChatInterface.tsx:157, 206, 338), and the request form's method, url and body inputs (`setMethod`, `setUrl`, `setBody`, src/components/RequestForm.tsx:77, 92, 158). `toLocaleString` formatting is not modelled either.
- Field names: the records' `method` field is `httpMethod` and the chat message's `type` field is `kind`, because both words are reserved in Dafny.
- History items hold the request record by value, so aliasing between a history item's header rows and the form's rows is not modelled.
- RequestHistory.TruncateUrl: a `NaN` or fractional `maxLength` is not modelled; lengths are integers.
- The dictionaries are Dafny maps, so a header named `__proto__` behaves like any other name.
- Methods are compared exactly as the source compares them; no case normalisation.

## Findings

The component methods (`Tester.SendRequest`, `Chat.SendMessage`) follow the code as written. The
corrected readings sit beside them, and a lemma in each module states exactly where the two differ.

| source | as written | input that shows it | evidently intended | confidence | as-written member | corrected member |
|---|---|---|---|---|---|---|
| src/components/RequestForm.tsx:44 | `updateHeader` copies the list but then assigns the field of the existing row object. The tester passes the active profile's own header rows as the form's initial rows (src/components/WebhookTester.tsx:214-218), so an edit in the form also changes the stored profile's header row, without `setProfiles`. | an active profile with one header `Content-Type: application/json`; in the request form, change that header's value to `text/plain` | the form edits its own copy of the row, as the profile form's `updateHeader` does (src/components/ProfileManager.tsx:100-102), and the profile keeps its value | medium, not executed | RequestForm.EditReachesCallerRow | RequestForm.CopyingEditLeavesCallerRow |
| src/components/WebhookTester.tsx:88-94 | for a JSON content type, `response.json()` consumes the body; when it rejects, the fallback `response.text()` rejects too (the body is used), so the outer `catch` shows status 0 `Network Error` and nothing is recorded | a 200 response with `content-type: application/json` and body `{oops` | the fallback shows the raw text with the real status, and the exchange is recorded | high, not executed | WebhookTester.UnparsableJsonShownAsNetworkError | WebhookTester.SettleIntended |
| src/components/ChatInterface.tsx:80-85 | the same consumed-body fallback, and a JSON `null` body makes `json.message` throw into it, so both replies become an error message without a status | a 200 response with `content-type: application/json` and body `null` | a `null` body reads as `null`, an unparsable one as its text, and the reply keeps the status | high, not executed | ChatInterface.NullJsonReplyIsError | ChatInterface.IntendedReplyMessage |
