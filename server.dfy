/** The serverless request handler that proxies one chat turn to the upstream
    completions service: a fixed chain of guards, the composition of the prompt, and
    the mapping of the upstream outcome to a status code and a JSON body. The call to
    `fetch` is replaced by an `Upstream` parameter: what the service would answer. */
module ChatServer {
  import opened Common
  import opened Text
  import opened Json

  const SystemPrompt: string :=
    "You are ChavrutaGPT, a warm, thoughtful Torah study partner created for LuminaNexus.org. "
    + "You are not a posek and never give halachic rulings. "
    + "You help users explore texts and ideas in clear, gentle language, "
    + "cite classic sources when possible, and often suggest asking real-world teachers or rabbanim."
  const UpstreamModel: string := "gpt-4.1-mini"
  const MaxTokens: nat := 800
  const FallbackReply: string := "I'm not sure how to respond just now." + " Let's try another way to ask that."

  const CorsHeaders: map<string, string> := map[
    "Access-Control-Allow-Origin" := "*",
    "Access-Control-Allow-Methods" := "POST, OPTIONS",
    "Access-Control-Allow-Headers" := "Content-Type"]
  /** The headers of a successful reply: the CORS headers plus the JSON content type. */
  const ReplyHeaders: map<string, string> := CorsHeaders["Content-Type" := "application/json"]

  /** One entry of the `messages` list sent upstream. */
  datatype Message = Message(role: string, content: string)

  const SystemMessage: Message := Message("system", SystemPrompt)

  /** The completion request the handler posts upstream (the temperature is left out). */
  datatype Completion = Completion(model: string, messages: seq<Message>, maxTokens: nat)

  /** Everything that throws inside the handler's `try` and lands in its `catch`. */
  datatype Fault =
    | BodyNotJson            // JSON.parse of the request body throws
    | BodyIsNull             // the body parses to null: reading `body.history` throws
    | UserTextNotString      // a truthy non-string `latestUserText` has no `trim`
    | HistoryEntryIsNull     // a null history entry: reading `m.role` throws
    | ContentNotConvertible  // `String(m.content || '')` finds no primitive value
    | UpstreamUnreachable(reason: string)  // fetch rejects
    | UpstreamBodyNotJson    // the upstream success body does not parse
    | UpstreamDataIsNull     // the upstream body is null: reading `data.choices` throws
    | ReplyNotString         // a non-null, non-string first-choice content has no `trim`

  /** The `detail` of an error body: the upstream error text, or the caught exception. */
  datatype Detail = UpstreamText(text: string) | Thrown(fault: Fault)

  datatype Body =
    | NoContent
    | ErrorBody(error: string, detail: Option<Detail>)
    | ReplyBody(reply: string)

  datatype Response = Response(statusCode: nat, headers: map<string, string>, body: Body)

  /** What the upstream `fetch` does: rejects, or answers with a status, the body text and
      what `json()` makes of that text. */
  datatype Upstream =
    | UpstreamRejected(reason: string)
    | UpstreamAnswered(status: nat, text: string, json: ParseResult)

  /** The handler's response together with the upstream request it made, if any. */
  datatype Handled = Handled(response: Response, call: Option<Completion>)

  /** The fields the handler reads from the request body. */
  datatype Inbound = Inbound(history: seq<Json>, latestUserText: string)

  /** The response carries every CORS header unchanged. */
  predicate HasCors(resp: Response)
  {
    forall k :: k in CorsHeaders ==> k in resp.headers && resp.headers[k] == CorsHeaders[k]
  }

  function ErrorResponse(status: nat, error: string, detail: Option<Detail>): (r: Response)
    ensures HasCors(r) && r.statusCode == status && r.body == ErrorBody(error, detail)
  {
    Response(status, CorsHeaders, ErrorBody(error, detail))
  }

  /** The `catch` branch: 500 with the exception as detail. */
  function ServerError(f: Fault): (r: Response)
    ensures HasCors(r) && r.statusCode == 500
    ensures r.body == ErrorBody("Server error", Some(Thrown(f)))
  {
    ErrorResponse(500, "Server error", Some(Thrown(f)))
  }

  /** `JSON.parse(event.body || '{}')`, then `body.history` (an array, or else nothing) and
      `body.latestUserText || ''`, which the handler trims next. A missing or empty event
      body (`None`) reads as `{}`. */
  function ReadBody(body: Option<ParseResult>): (r: Outcome<Inbound, Fault>)
    ensures body == None ==> r == Value(Inbound([], ""))
    ensures body == Some(Malformed) ==> r == Throw(BodyNotJson)
    ensures body == Some(Parsed(JNull)) ==> r == Throw(BodyIsNull)
    ensures r.Value? && body.Some? ==> body.value.Parsed? && body.value.value != JNull
    ensures r.Value? && r.value.history != [] ==>
              Get(body.value.value, "history") == Some(JArray(r.value.history))
    ensures r.Value? && r.value.latestUserText != "" ==>
              Get(body.value.value, "latestUserText") == Some(JString(r.value.latestUserText))
    ensures r == Throw(UserTextNotString) <==>
              body.Some? && body.value.Parsed? && body.value.value != JNull &&
              var t := Get(body.value.value, "latestUserText");
              t.Some? && Truthy(t.value) && !t.value.JString?
    // a body that is neither unparseable, null, nor a truthy non-string text reads as a value
    ensures body.Some? && body.value.Parsed? && body.value.value != JNull ==>
              var t := Get(body.value.value, "latestUserText");
              (t.Some? && Truthy(t.value) && !t.value.JString?) || r.Value?
    // the history is the array the body holds, and empty when it holds none
    ensures r.Value? && body.Some? ==>
              var h := Get(body.value.value, "history");
              if h.Some? && h.value.JArray? then r.value.history == h.value.items
              else r.value.history == []
    ensures r.Value? && body.None? ==> r.value.history == [] && r.value.latestUserText == ""
    // the text is the string the body holds, and empty when it is missing or falsy
    ensures r.Value? && body.Some? ==>
              var t := Get(body.value.value, "latestUserText");
              (t.Some? && t.value.JString? ==> r.value.latestUserText == t.value.s)
              && (t.None? || !Truthy(t.value) ==> r.value.latestUserText == "")
  {
    var parsed := if body.None? then Parsed(JObject(map[])) else body.value;
    match parsed
    case Malformed => Throw(BodyNotJson)
    case Parsed(v) =>
      if v == JNull then Throw(BodyIsNull)
      else
        var history := match Get(v, "history") { case Some(JArray(xs)) => xs case _ => [] };
        var text := Get(v, "latestUserText");
        if text.None? || !Truthy(text.value) then Value(Inbound(history, ""))
        else if text.value.JString? then Value(Inbound(history, text.value.s))
        else Throw(UserTextNotString)
  }

  /** One history entry as the handler rewrites it: the role becomes `assistant` exactly
      when it is the string `assistant` and `user` otherwise; the content is
      `String(m.content || '')`. Reading `m.role` throws on a `null` entry, and the
      conversion throws on content `String` cannot convert. */
  function NormaliseEntry(m: Json): (r: Outcome<Message, Fault>)
    ensures r.Value? <==> m != JNull && StringOrEmpty(Get(m, "content")).Some?
    ensures m == JNull <==> r == Throw(HistoryEntryIsNull)
    ensures r == Throw(ContentNotConvertible) <==>
              m != JNull && StringOrEmpty(Get(m, "content")) == None
    ensures r.Value? ==>
              (r.value.role == "assistant" <==> Get(m, "role") == Some(JString("assistant")))
              && (r.value.role != "assistant" ==> r.value.role == "user")
              && Some(r.value.content) == StringOrEmpty(Get(m, "content"))
  {
    if m == JNull then Throw(HistoryEntryIsNull)
    else match StringOrEmpty(Get(m, "content"))
      case None => Throw(ContentNotConvertible)
      case Some(content) =>
        Value(Message(if Get(m, "role") == Some(JString("assistant")) then "assistant" else "user",
                      content))
  }

  /** The roles a client's history may contribute. */
  predicate IsConversationRole(role: string)
  {
    role == "user" || role == "assistant"
  }

  /** Every entry of the history normalises without throwing. */
  predicate Normalisable(h: seq<Json>)
  {
    forall i :: 0 <= i < |h| ==> NormaliseEntry(h[i]).Value?
  }

  /** The first entry at or after `k` whose normalisation throws (`|h|` if none does). */
  function FirstThrowing(h: seq<Json>, k: nat): (i: nat)
    requires k <= |h|
    ensures k <= i <= |h|
    ensures forall j :: k <= j < i ==> NormaliseEntry(h[j]).Value?
    ensures i < |h| ==> NormaliseEntry(h[i]).Throw?
    decreases |h| - k
  {
    if k == |h| || NormaliseEntry(h[k]).Throw? then k else FirstThrowing(h, k + 1)
  }

  /** `history.map(...)`: every entry normalised, in order; when some entry throws, the
      map stops at the first one that does and its fault is the result. */
  function NormaliseHistory(h: seq<Json>): (r: Outcome<seq<Message>, Fault>)
    ensures r.Value? <==> Normalisable(h)
    ensures r.Throw? ==>
              exists i :: 0 <= i < |h| && NormaliseEntry(h[i]) == Throw(r.error)
                          && forall j :: 0 <= j < i ==> NormaliseEntry(h[j]).Value?
    ensures r.Value? ==> |r.value| == |h|
    ensures r.Value? ==> forall i :: 0 <= i < |h| ==> NormaliseEntry(h[i]) == Value(r.value[i])
    ensures r.Value? ==> forall i :: 0 <= i < |h| ==> IsConversationRole(r.value[i].role)
  {
    var first := FirstThrowing(h, 0);
    if first == |h| then
      Value(seq(|h|, i requires 0 <= i < |h| => match NormaliseEntry(h[i]) { case Value(m) => m case Throw(_) => Message("user", "") }))
    else
      Throw(NormaliseEntry(h[first]).error)
  }

  /** A `null` entry makes the handler fail, with that fault unless an earlier entry's
      content already threw. */
  lemma NullEntryThrows(h: seq<Json>, k: nat)
    requires k < |h| && h[k] == JNull
    ensures NormaliseHistory(h).Throw?
    ensures Normalisable(h[..k]) ==> NormaliseHistory(h) == Throw(HistoryEntryIsNull)
  {
    assert NormaliseEntry(h[k]).Throw?;
    if Normalisable(h[..k]) {
      assert forall j :: 0 <= j < k ==> h[..k][j] == h[j];
      var first := FirstThrowing(h, 0);
      assert first == k;
    }
  }

  /** The `messages` list: the fixed system message, then the (normalised) history in
      order, then the current user turn as sent, untrimmed. */
  function Compose(history: seq<Message>, latestUserText: string): (r: seq<Message>)
    ensures |r| == |history| + 2
    ensures r[0] == SystemMessage && r[|r| - 1] == Message("user", latestUserText)
    ensures r[1..|r| - 1] == history
  {
    [SystemMessage] + history + [Message("user", latestUserText)]
  }

  /** Whatever history a client posts, the composed list has exactly one system message,
      the fixed one at the front: every later entry is a user or assistant turn. */
  lemma OnlyLeadingSystemMessage(history: seq<Json>, latestUserText: string)
    requires Normalisable(history)
    ensures var ms := Compose(NormaliseHistory(history).value, latestUserText);
            ms[0] == SystemMessage
            && forall i :: 0 < i < |ms| ==> IsConversationRole(ms[i].role)
  {
    var normalised := NormaliseHistory(history).value;
    var ms := Compose(normalised, latestUserText);
    forall i | 0 < i < |ms|
      ensures IsConversationRole(ms[i].role)
    {
      if i < |ms| - 1 {
        assert ms[i] == ms[1..|ms| - 1][i - 1] == normalised[i - 1];
      }
    }
  }

  /** `data.choices?.[0]?.message?.content`, on data that is not null. */
  function FirstChoiceContent(data: Json): Option<Json>
    requires data != JNull
  {
    OptGet(OptGet(OptGet(Get(data, "choices"), "0"), "message"), "content")
  }

  /** `content?.trim() || fallback`: the trimmed content when it is a non-blank string,
      the fixed fallback when it is absent, null or blank, and a throw for any other
      value, which has no `trim`. */
  function ContentReply(content: Option<Json>): (r: Outcome<string, Fault>)
    ensures r.Value? ==> r.value != "" && Unpadded(r.value)
    ensures content.Some? && content.value.JString? && !IsBlank(content.value.s) ==>
              r == Value(Trim(content.value.s))
    ensures content == None || content == Some(JNull)
            || (content.Some? && content.value.JString? && IsBlank(content.value.s)) ==>
              r == Value(FallbackReply)
    ensures r.Throw? <==> content.Some? && content.value != JNull && !content.value.JString?
    ensures r.Throw? ==> r.error == ReplyNotString
  {
    match content
    case None => FallbackValue()
    case Some(JNull) => FallbackValue()
    case Some(JString(s)) =>
      if Trim(s) != "" then Value(Trim(s)) else FallbackValue()
    case Some(_) => Throw(ReplyNotString)
  }

  /** The reply read from the upstream success body: throws when the body is `null`,
      otherwise the reply made from the first choice's content. Never empty. */
  function ReplyOf(data: Json): (r: Outcome<string, Fault>)
    ensures r.Value? ==> r.value != "" && Unpadded(r.value)
    ensures data == JNull <==> r == Throw(UpstreamDataIsNull)
    ensures data != JNull ==> r == ContentReply(FirstChoiceContent(data))
  {
    if data == JNull then Throw(UpstreamDataIsNull)
    else ContentReply(FirstChoiceContent(data))
  }

  function FallbackValue(): (r: Outcome<string, Fault>)
    ensures r == Value(FallbackReply) && Unpadded(FallbackReply)
  {
    assert FallbackReply[0] == 'I' && FallbackReply[|FallbackReply| - 1] == '.';
    Value(FallbackReply)
  }

  /** The shape of a completion body: `{choices: [{message: {content: c}}]}`. */
  function CompletionBody(c: Json): Json
  {
    JObject(map["choices" := JArray([JObject(map["message" := JObject(map["content" := c])])])])
  }

  /** On a body of that shape, the first choice's content is `c`. */
  lemma FirstChoiceOfCompletion(c: Json)
    ensures FirstChoiceContent(CompletionBody(c)) == Some(c)
  {
    var message := JObject(map["content" := c]);
    var choice := JObject(map["message" := message]);
    GetIndex([choice], 0);
    assert Get(CompletionBody(c), "choices") == Some(JArray([choice]));
    assert Get(choice, "message") == Some(message);
    assert Get(message, "content") == Some(c);
  }

  /** A completion whose content is a non-blank string replies with that string, trimmed;
      a blank one replies with the fixed fallback. */
  lemma CompletionReply(content: string)
    ensures !IsBlank(content) ==> ReplyOf(CompletionBody(JString(content))) == Value(Trim(content))
    ensures IsBlank(content) ==> ReplyOf(CompletionBody(JString(content))) == Value(FallbackReply)
  {
    FirstChoiceOfCompletion(JString(content));
  }

  /** The 200 answer carrying `reply`, with the CORS headers and the JSON content type. */
  function ReplyResponse(reply: string): (r: Response)
    ensures HasCors(r) && r.statusCode == 200 && r.body == ReplyBody(reply)
    ensures "Content-Type" in r.headers && r.headers["Content-Type"] == "application/json"
  {
    var r := Response(200, ReplyHeaders, ReplyBody(reply));
    assert forall k :: k in CorsHeaders ==> k != "Content-Type";
    r
  }

  /** `await openaiRes.json()` followed by the reply extraction. */
  function ReadCompletion(json: ParseResult): (r: Outcome<string, Fault>)
    ensures r.Value? ==> r.value != "" && Unpadded(r.value)
    ensures json == Malformed ==> r == Throw(UpstreamBodyNotJson)
    ensures json.Parsed? ==> r == ReplyOf(json.value)
  {
    match json
    case Malformed => Throw(UpstreamBodyNotJson)
    case Parsed(data) => ReplyOf(data)
  }

  /** The part of the handler after the upstream call: a rejected fetch or an unreadable
      success body is a 500, a non-OK status a 502 whose detail is the whole upstream
      error text, and a success a 200 carrying the reply. */
  function Respond(upstream: Upstream): (r: Response)
    ensures upstream.UpstreamRejected? ==> r == ServerError(UpstreamUnreachable(upstream.reason))
    ensures upstream.UpstreamAnswered? && !IsOk(upstream.status) ==>
              r == ErrorResponse(502, "Error from OpenAI", Some(UpstreamText(upstream.text)))
    ensures upstream.UpstreamAnswered? && IsOk(upstream.status) ==>
              match ReadCompletion(upstream.json)
              case Value(reply) => r == ReplyResponse(reply)
              case Throw(f) => r == ServerError(f)
    ensures r.statusCode in {200, 500, 502} && HasCors(r)
    ensures r.statusCode == 200 ==> r.body.ReplyBody? && r.body.reply != "" && Unpadded(r.body.reply)
  {
    match upstream
    case UpstreamRejected(reason) => ServerError(UpstreamUnreachable(reason))
    case UpstreamAnswered(status, text, json) =>
      if !IsOk(status) then ErrorResponse(502, "Error from OpenAI", Some(UpstreamText(text)))
      else match ReadCompletion(json)
        case Throw(f) => ServerError(f)
        case Value(reply) => ReplyResponse(reply)
  }

  /** `exports.handler`: OPTIONS preflight, method check, credential check, body read,
      non-blank user text, composition, upstream call and response mapping, in that
      order. An unset or empty credential is `apiKey == ""`. */
  function Handle(httpMethod: string, apiKey: string, body: Option<ParseResult>, upstream: Upstream): (r: Handled)
    // the preflight answers 200 with no body whatever else the request holds
    ensures httpMethod == "OPTIONS" ==> r == Handled(Response(200, CorsHeaders, NoContent), None)
    // every other method but POST is refused before anything else is looked at
    ensures httpMethod != "OPTIONS" && httpMethod != "POST" ==>
              r == Handled(ErrorResponse(405, "Method not allowed", None), None)
    // the credential is checked before the body is parsed
    ensures httpMethod == "POST" && apiKey == "" ==>
              r == Handled(ErrorResponse(500, "Missing OPENAI_API_KEY", None), None)
    ensures httpMethod == "POST" && apiKey != "" && ReadBody(body).Throw? ==>
              r == Handled(ServerError(ReadBody(body).error), None)
    // blank user text is a 400 and nothing goes upstream
    ensures httpMethod == "POST" && apiKey != "" && ReadBody(body).Value?
            && IsBlank(ReadBody(body).value.latestUserText) ==>
              r == Handled(ErrorResponse(400, "No user text provided", None), None)
    // a history entry that throws while the messages are built (a `null` entry, or
    // content with no string conversion) is a server error, and no call is made
    ensures httpMethod == "POST" && apiKey != "" && ReadBody(body).Value?
            && !IsBlank(ReadBody(body).value.latestUserText)
            && !Normalisable(ReadBody(body).value.history) ==>
              r == Handled(ServerError(NormaliseHistory(ReadBody(body).value.history).error), None)
    // an upstream request is made exactly when every guard passes, and it carries the
    // composed messages
    ensures r.call.Some? <==>
              httpMethod == "POST" && apiKey != "" && ReadBody(body).Value?
              && !IsBlank(ReadBody(body).value.latestUserText)
              && Normalisable(ReadBody(body).value.history)
    ensures r.call.Some? ==>
              r.call.value == Completion(UpstreamModel,
                Compose(NormaliseHistory(ReadBody(body).value.history).value,
                        ReadBody(body).value.latestUserText),
                MaxTokens)
              && r.response == Respond(upstream)
    ensures r.response.statusCode in {200, 400, 405, 500, 502}
    // every response carries the CORS headers
    ensures HasCors(r.response)
    // a 200 to anything but a preflight carries a non-empty, trimmed reply
    ensures r.response.statusCode == 200 && httpMethod != "OPTIONS" ==>
              r.response.body.ReplyBody? && r.response.body.reply != ""
              && Unpadded(r.response.body.reply)
  {
    if httpMethod == "OPTIONS" then Handled(Response(200, CorsHeaders, NoContent), None)
    else if httpMethod != "POST" then Handled(ErrorResponse(405, "Method not allowed", None), None)
    else if apiKey == "" then Handled(ErrorResponse(500, "Missing OPENAI_API_KEY", None), None)
    else match ReadBody(body)
      case Throw(f) => Handled(ServerError(f), None)
      case Value(Inbound(history, text)) =>
        if Trim(text) == "" then Handled(ErrorResponse(400, "No user text provided", None), None)
        else match NormaliseHistory(history)
          case Throw(f) => Handled(ServerError(f), None)
          case Value(normalised) =>
            Handled(Respond(upstream), Some(Completion(UpstreamModel, Compose(normalised, text), MaxTokens)))
  }

  /** The request sent upstream never depends on the upstream answer, and when no request
      is made the whole result does not either. */
  lemma UpstreamOnlyAfterCall(httpMethod: string, apiKey: string, body: Option<ParseResult>, u1: Upstream, u2: Upstream)
    ensures Handle(httpMethod, apiKey, body, u1).call == Handle(httpMethod, apiKey, body, u2).call
    ensures Handle(httpMethod, apiKey, body, u1).call == None ==>
              Handle(httpMethod, apiKey, body, u1) == Handle(httpMethod, apiKey, body, u2)
  {
  }

  /** A request whose body is not JSON passes the credential check and then fails as a
      server error, not as bad input. */
  lemma UnparseableBodyIsServerError(apiKey: string, upstream: Upstream)
    requires apiKey != ""
    ensures Handle("POST", apiKey, Some(Malformed), upstream)
            == Handled(ErrorResponse(500, "Server error", Some(Thrown(BodyNotJson))), None)
  {
  }

  /** A history entry whose content is an object with its own `toString` key cannot be
      converted to a string: the request is answered 500 `Server error` and nothing is
      sent upstream. */
  lemma UnconvertibleContentIsServerError(apiKey: string, upstream: Upstream)
    requires apiKey != ""
    ensures var entry := JObject(map["role" := JString("user"),
                                     "content" := JObject(map["toString" := JNumber(0)])]);
            var body := JObject(map["latestUserText" := JString("q"), "history" := JArray([entry])]);
            Handle("POST", apiKey, Some(Parsed(body)), upstream)
            == Handled(ServerError(ContentNotConvertible), None)
  {
    var content := JObject(map["toString" := JNumber(0)]);
    var entry := JObject(map["role" := JString("user"), "content" := content]);
    var body := JObject(map["latestUserText" := JString("q"), "history" := JArray([entry])]);
    assert Get(entry, "content") == Some(content);
    assert NormaliseEntry(entry) == Throw(ContentNotConvertible);
    assert Get(body, "history") == Some(JArray([entry]));
    assert Get(body, "latestUserText") == Some(JString("q"));
    assert !IsBlank("q") by { assert !IsSpace("q"[0]); }
    assert ReadBody(Some(Parsed(body))) == Value(Inbound([entry], "q"));
    assert NormaliseHistory([entry]) == Throw(ContentNotConvertible);
  }
}
