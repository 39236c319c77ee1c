# ChavrutaGPT chat round-trip

This project models one chat turn of ChavrutaGPT, the Torah study partner on
LuminaNexus.org, and proves properties about it. There are two sides.

- **The page's chat session** (`chavruta/chavruta.js`) holds the script's state:
  - the `history` array that goes out with every question;
  - the transcript of chat bubbles;
  - the status line and the input field.

  It is the class `ChatClient.Session`. Its methods change that state in place:
  - `SetStatus` and `AddBubble`;
  - `SendToChavruta`, the part of `sendToChavruta` before the `await`;
  - `HandleSend`, which trims the input, records the user turn and calls `SendToChavruta`;
  - `Resolve`, the part of `sendToChavruta` after the `await`;
  - `Clear`, the clear button's handler.

  Bubbles are objects (`ChatClient.Bubble`). The "Thinking…" placeholder is a reference that
  `HandleSend` returns and `Resolve` writes into, as the closure does in the script.
- **The serverless handler** (`netlify/functions/chavruta.js`) is the pure function
  `ChatServer.Handle`. It runs a chain of guards in fixed order:
  1. CORS preflight;
  2. method;
  3. credential;
  4. body;
  5. non-blank user text.

  It then composes the `messages` list (`ChatServer.Compose`) and maps the upstream outcome to a
  status code and a JSON body (`ChatServer.Respond`). The status codes carry the meanings given in
  section 15 of RFC 9110. The upstream `fetch` is a parameter, `ChatServer.Upstream`. The result
  holds the response and the completion request that was sent upstream, if one was.

The supporting modules:
- `Text` models `String.prototype.trim` over the ECMAScript white-space set. It also models the
  decimal rendering of integers.
- `Json` models parsed JSON values as JavaScript sees them:
  - truthiness;
  - property reads on objects, arrays and strings;
  - `String(...)`.
- `Wire` ties the two sides together. Every request the page can send passes the handler's guards,
  and the handler sends upstream exactly the history the page keeps. A 200 reply from the handler
  is shown and recorded on the page unchanged.

Properties this kind of chat front end often has, and which this code does not have:
- the page's history has no length cap and the handler does not truncate it;
- there is no guard against a second question while one is in flight;
- there is no conversation `mode`;
- the 502 body carries the whole upstream error text, not a bounded excerpt;
- the request field is `latestUserText` and the page reads only `data.reply`;
- a reply that arrives after the conversation was cleared is not dropped. It is written into the
  detached placeholder and pushed onto the new history (`ChatClient.AnswerAfterClear`).

The page's fallback for an empty reply differs from the server's fallback:
- page: "I'm not sure how to respond just now. Let's try asking in a different way.";
- server: "… Let's try another way to ask that.".

The server never sends an empty reply, so the page's fallback appears only when some other server
answers with a blank `reply`.

## Model

| member | source | states |
|---|---|---|
| Text.Trim | chavruta/chavruta.js:87 | `trim` leaves no white space at either end, never lengthens, and gives the empty string exactly for a blank string |
| Text.TrimIsSlice | netlify/functions/chavruta.js:42 | what `trim` keeps is a contiguous slice, and everything dropped before and after it is white space |
| Text.TrimFixedPoint | chavruta/chavruta.js:62 | a string is its own trim exactly when it has no white space at either end |
| Text.TrimIdempotent | chavruta/chavruta.js:87 | trimming twice is trimming once, so the text `handleSend` sends is already trimmed |
| Text.DecimalRoundTrip | chavruta/chavruta.js:51 | the decimal numeral of a status code reads back as that code |
| Text.DecimalInjective | chavruta/chavruta.js:51 | different status codes render as different numerals |
| Text.NatToDecimal | chavruta/chavruta.js:51 | `${res.status}` is a non-empty string of digits with no leading zero unless the code is 0 |
| Json.Get | netlify/functions/chavruta.js:39-40 | a property read on an object finds exactly the own keys present and returns the value stored there; booleans and numbers have no such properties |
| Json.GetIndex | netlify/functions/chavruta.js:92 | `xs[0]`, and in general index `i` under its numeral key, reads the element at that index |
| Json.GetIndexOnly | netlify/functions/chavruta.js:92 | a key that reads anything from an array is the numeral of an index, and reads the element there |
| Json.GetCharIndex | netlify/functions/chavruta.js:92 | index `i` of a string under its numeral key reads the one-character string at that position |
| Json.OptGet | netlify/functions/chavruta.js:92 | `v?.[key]` reads nothing from a missing or `null` value, and reads any other value with an ordinary property read |
| Json.FalsyValues | netlify/functions/chavruta.js:40 | exactly `null`, `false`, `0` and `""` are falsy, the values `\|\|` replaces |
| Json.ToJsString | netlify/functions/chavruta.js:61 | `String(v)` throws exactly for a value holding, at any depth of arrays, an object with its own `toString` key; it leaves a string unchanged, and any other object becomes `[object Object]` |
| Json.StringOrEmpty | netlify/functions/chavruta.js:61 | `String(v \|\| '')` is empty for falsy or missing values and is `String(v)` for truthy ones: strings unchanged, any other object `[object Object]`; it throws exactly for a truthy value `String` cannot convert |
| ChatServer.ReadBody | netlify/functions/chavruta.js:38-40 | a missing body reads as `{}`; an unparseable or `null` body throws; `history` is the array found there, else empty; `latestUserText` is the string found there, or `''` when missing or falsy; it throws exactly when the field is a truthy non-string |
| ChatServer.ServerError | netlify/functions/chavruta.js:100-107 | the `catch` answers 500 with the CORS headers and the body `{error: 'Server error', detail}`, the detail naming the fault |
| ChatServer.NormaliseEntry | netlify/functions/chavruta.js:59-62 | a `null` entry throws, and so does content `String` cannot convert, and nothing else does; otherwise the role is `assistant` exactly when it was the string `assistant`, else `user`, and the content is `String(m.content \|\| '')` |
| ChatServer.NormaliseHistory | netlify/functions/chavruta.js:59-62 | the map succeeds exactly when every entry normalises; it then keeps length and order, normalises each entry, and holds only user and assistant roles; otherwise its fault is that of the first entry that throws |
| ChatServer.NullEntryThrows | netlify/functions/chavruta.js:59-60 | a `null` entry makes the map throw, with the null-entry fault when every earlier entry normalises |
| ChatServer.Compose | netlify/functions/chavruta.js:50-64 | the messages are the system message, then the history in order, then `{user, latestUserText}` untrimmed: `\|history\| + 2` entries |
| ChatServer.OnlyLeadingSystemMessage | netlify/functions/chavruta.js:50-64 | whatever roles the client posts, only the first composed message has the system role |
| ChatServer.ContentReply | netlify/functions/chavruta.js:91-93 | the reply is the trimmed content when that is a non-blank string, and the fixed fallback when the content is absent, `null` or blank; any other content throws; a reply is never empty and never padded |
| ChatServer.ReplyOf | netlify/functions/chavruta.js:90-93 | the step fails with the null-body fault exactly when the upstream body is `null`; otherwise the reply comes from the first choice's content; it is never empty |
| ChatServer.FirstChoiceOfCompletion | netlify/functions/chavruta.js:92 | on a body `{choices: [{message: {content: c}}]}` the content read is `c` |
| ChatServer.CompletionReply | netlify/functions/chavruta.js:90-93 | on such a body, non-blank string content gives that content trimmed, and blank content gives the fixed fallback |
| ChatServer.ReadCompletion | netlify/functions/chavruta.js:90-93 | an unparseable upstream body throws; a parsed one gives its reply |
| ChatServer.ReplyResponse | netlify/functions/chavruta.js:95-99 | a reply is a 200 with the CORS headers plus `Content-Type: application/json` |
| ChatServer.Respond | netlify/functions/chavruta.js:66-107 | a rejected upstream call is a 500 server error; a non-OK status is a 502 whose detail is the full upstream text; an OK status is a 200 with the reply, or a 500 when the reply cannot be read; only 200, 500 and 502 occur, always with the CORS headers, and a 200 reply is non-empty |
| ChatServer.Handle | netlify/functions/chavruta.js:11-108 | each guard's response in order (OPTIONS 200 with an empty body; other methods 405; missing key 500; a body that throws 500; blank text 400; a history entry that throws, being `null` or holding content with no string conversion, 500 `Server error`); an upstream call is made exactly when every guard passes and every history entry normalises, and it carries the composed messages, model and token limit; only 200/400/405/500/502 occur, always with the CORS headers; a non-preflight 200 carries a non-empty trimmed reply |
| ChatServer.UpstreamOnlyAfterCall | netlify/functions/chavruta.js:37-78 | the request sent upstream never depends on the upstream answer, and when no request is made the whole result does not either |
| ChatServer.UnparseableBodyIsServerError | netlify/functions/chavruta.js:38 | an unparseable body gets past the credential check and is answered 500 `Server error`, not 400 |
| ChatServer.UnconvertibleContentIsServerError | netlify/functions/chavruta.js:59-61 | a history entry whose content is `{"toString": 0}` makes the request a 500 `Server error` with nothing sent upstream |
| ChatClient.ReadReply | chavruta/chavruta.js:61-62 | the reply is the trimmed `reply` string, or `''` when that is missing or falsy; it throws exactly for an unparseable or `null` body or a truthy non-string `reply` |
| ChatClient.Settle | chavruta/chavruta.js:50-82 | the four settlement paths: a non-OK status gives the apology and `HTTP error <status>`; a throw gives the network-error text and status; an empty reply gives the fallback; otherwise the trimmed reply is shown, appended as one assistant turn equal to the text shown, and the status reads "Response received" |
| ChatClient.HttpErrorStatusNamesCode | chavruta/chavruta.js:51-57 | the status line after a non-OK answer is `HTTP error ` followed by a numeral that reads back as the status code |
| ChatClient.SettleReply | chavruta/chavruta.js:61-74 | an answer of any 2xx status whose body carries a non-blank reply shows and appends exactly the trimmed reply, and reports "Response received" |
| ChatClient.Bubble.constructor | chavruta/chavruta.js:18-25 | a new bubble has the given style and text |
| ChatClient.Session.constructor | chavruta/chavruta.js:3-10 | a loaded page has an empty history and transcript and status "ChavrutaGPT ready." (set at chavruta/chavruta.js:126) |
| ChatClient.Session.SetStatus | chavruta/chavruta.js:12-14 | the status line takes the text when the element exists, and nothing else changes |
| ChatClient.Session.AddBubble | chavruta/chavruta.js:16-34 | exactly one bubble of the role's style is rendered, none without a chat log; the history grows by `{role, text}` only for the user and assistant roles |
| ChatClient.Session.SendToChavruta | chavruta/chavruta.js:36-48 | the placeholder is rendered and pushed as an assistant "Thinking…" turn; the status reports the question as sent; the request carries the text and the history including the placeholder |
| ChatClient.Session.HandleSend | chavruta/chavruta.js:85-93 | blank input or no input field changes nothing and sends nothing; otherwise the history grows by the user turn then the placeholder, the input is cleared, and the request carries the trimmed text and that history |
| ChatClient.Session.Resolve | chavruta/chavruta.js:50-82 | the placeholder takes the settled text; the history grows by exactly what the settlement appends; the status takes the settled line |
| ChatClient.Session.Clear | chavruta/chavruta.js:113-123 | transcript and history each end up holding only the greeting, and the status reads "Conversation cleared." |
| ChatClient.AskAndAnswer | chavruta/chavruta.js:85-93 | on a fresh page, one question and its answer give the history user, "Thinking…", reply in that order; the transcript holds exactly the question bubble and the placeholder, which now shows the reply |
| ChatClient.AnswerAfterClear | chavruta/chavruta.js:113-123 | an answer arriving after clear is written into the placeholder, which is no longer in the transcript; the transcript holds only the greeting, and the answer is still appended after the greeting in the history |
| Wire.AsMessages | netlify/functions/chavruta.js:59-62 | reference definition for the wire lemmas: each history entry the page keeps becomes the message with the same role and content |
| Wire.HistoryJson | chavruta/chavruta.js:44-47 | reference definition for the wire lemmas: the posted history array holds one `{role, content}` object per turn, in order |
| Wire.NormaliseTurn | netlify/functions/chavruta.js:59-62 | the handler's normalisation leaves an entry the page wrote unchanged |
| Wire.ReadClientBody | netlify/functions/chavruta.js:38-40 | the handler reads back exactly the question and the history array the page posted |
| Wire.NormaliseClientHistory | netlify/functions/chavruta.js:59-62 | normalising the page's history array gives back the page's history |
| Wire.ServerAcceptsClientRequest | netlify/functions/chavruta.js:37-78 | every request the page can send passes the guards, and the handler sends upstream the system message, the page's history unchanged, and the question |
| Wire.ClientSettlesServerAnswer | chavruta/chavruta.js:50-74 | a 200 from the handler is shown and recorded on the page as sent; any other status shows the apology and records nothing |

## Left out

- The real `fetch` calls are left out and become parameters: the page's request is `ChatClient.FetchResult` and the upstream call is `ChatServer.Upstream`. Also left out are the upstream endpoint and its `Authorization` header, JSON serialisation and parsing, which are taken to be inverse to each other, and `console.error` logging.
- The `temperature: 0.6` field of the upstream request is a float and is left out of `ChatServer.Completion`.
- The text of a caught exception (`String(err)`) is replaced by the `ChatServer.Fault` datatype, which names each way the handler's `try` block can throw.
- A rejection of the page's `res.json()` is modelled: a body that does not parse (`Malformed`) takes the network-error path.
- ChatServer.Respond: a rejection of the upstream `openaiRes.text()` call (netlify/functions/chavruta.js:81) is not modelled. In the code it would reach the `catch` and answer 500; the model always answers a non-OK upstream status with 502 and the text.
- Async interleaving is not modelled as such. A turn is `HandleSend`, then `Resolve` with the placeholder it returned; overlapping turns are sequences of those calls. A second send while one is in flight is not prevented, because the code does not prevent it.
- Scrolling (`scrollTop`) and the CSS class names are left out; the class name is reduced to `ChatClient.Style`.
- The keyboard shortcut (chavruta/chavruta.js:104-110) and the click listeners are left out. They only call `HandleSend` and `Clear`.
- The clear handler is only wired when the clear button exists. `Clear` models a click, which cannot happen without the button.
- Json.ToJsString: its contract states when conversion throws and what strings and objects become. The text of a converted number or array is written out in its body but has no stated properties, because no property of the handler depends on it.
- JSON numbers are integers. Fractions and exponent notation in `String(number)` are not modelled.
- Strings are sequences of code points. JavaScript indexes UTF-16 code units, which only matters for the one-character strings `Json.Get` returns.
- Members inherited from prototypes (for instance `length` on arrays and strings) are not visible to `Json.Get`. No key the code reads by name names one. The implicit `toString` lookup of `String(...)` is modelled separately, by `Json.Convertible`.
- gates/gates.js and script.js are not part of this model. They are page layout, navigation and static lookup tables.
