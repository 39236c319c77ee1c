/** The browser-side chat session: a transcript of bubbles, the history array sent with
    every question, a status line and the input field. Bubbles are objects, as DOM
    elements are: the caller holds the "thinking" placeholder between sending a
    question and receiving the answer, and the answer is written into that object. */
module ChatClient {
  import opened Common
  import opened Text
  import opened Json

  const ThinkingText: string := "Thinking\U{2026}"
  const ReadyStatus: string := "ChavrutaGPT ready."
  const SendingStatus: string := "Sending question to ChavrutaGPT\U{2026}"
  const ReceivedStatus: string := "Response received from ChavrutaGPT."
  const ProblemText: string := "Sorry, there was a problem talking to ChavrutaGPT." + " Please try again."
  const EmptyReplyText: string :=
    "I'm not sure how to respond just now." + " Let's try asking in a different way."
  const NetworkErrorText: string := "Sorry, there was a network error talking to ChavrutaGPT."
  const NetworkErrorStatus: string := "Network error. See console for details."
  const HttpErrorPrefix: string := "HTTP error "
  const Greeting: string :=
    "Shalom, haver. I\U{2019}m ChavrutaGPT\U{2014}your learning partner."
    + " What would you like to explore today?"
  const ClearedStatus: string := "Conversation cleared."

  /** One `{role, content}` entry of the history array. */
  datatype Turn = Turn(role: string, content: string)

  /** The only roles the history array ever holds. */
  predicate IsChatRole(role: string)
  {
    role == "user" || role == "assistant"
  }

  /** The JSON body posted to the server function: `{latestUserText, history}`. */
  datatype Request = Request(latestUserText: string, history: seq<Turn>)

  /** The CSS class of a bubble: `chat-bubble-system` or `chat-bubble-user`. */
  datatype Style = AssistantStyle | UserStyle

  /** What the awaited `fetch` gives back: a response with its status and what `json()`
      makes of its body, or a rejection. */
  datatype FetchResult = Delivered(status: nat, data: ParseResult) | NetworkFailure

  /** `(data.reply || '').trim()`: the trimmed reply, the empty string for a missing or
      falsy field, and `None` when the step throws (a body that is not JSON, a `null`
      body, or a truthy `reply` that is not a string). */
  function ReadReply(data: ParseResult): (r: Option<string>)
    ensures r.Some? ==> Unpadded(r.value)
    ensures r == None <==>
              data == Malformed || data == Parsed(JNull)
              || (data.Parsed? && data.value != JNull && var f := Get(data.value, "reply");
                  f.Some? && Truthy(f.value) && !f.value.JString?)
    ensures data.Parsed? && data.value != JNull && Get(data.value, "reply").Some?
            && Get(data.value, "reply").value.JString? ==>
              r == Some(Trim(Get(data.value, "reply").value.s))
    ensures data.Parsed? && data.value != JNull
            && (Get(data.value, "reply").None? || !Truthy(Get(data.value, "reply").value)) ==>
              r == Some("")
  {
    match data
    case Malformed => None
    case Parsed(v) =>
      if v == JNull then None
      else
        var field := Get(v, "reply");
        if field.None? || !Truthy(field.value) then Some("")
        else if field.value.JString? then Some(Trim(field.value.s))
        else None
  }

  /** How an awaited request settles: the text the placeholder takes, the entries pushed
      onto the history, and the status line. */
  datatype Settlement = Settlement(bubbleText: string, appended: seq<Turn>, status: string)

  /** The continuation of `sendToChavruta` after the `await`. A non-OK status shows the
      apology and reports the status code; a throw (rejected fetch or unreadable body)
      shows the network-error text; an OK answer shows the trimmed reply, or the fixed
      fallback when that is empty. Only a non-empty reply enters the history, and then
      as exactly the text shown. */
  function Settle(result: FetchResult): (s: Settlement)
    ensures s.bubbleText != ""
    ensures s.appended == [] || s.appended == [Turn("assistant", s.bubbleText)]
    ensures s.appended != [] ==> Unpadded(s.bubbleText)
    ensures s.appended != [] <==>
              result.Delivered? && IsOk(result.status)
              && ReadReply(result.data).Some? && ReadReply(result.data).value != ""
    ensures result.Delivered? && !IsOk(result.status) ==>
              s == Settlement(ProblemText, [], HttpErrorPrefix + NatToDecimal(result.status))
    ensures result == NetworkFailure
            || (result.Delivered? && IsOk(result.status) && ReadReply(result.data) == None) ==>
              s == Settlement(NetworkErrorText, [], NetworkErrorStatus)
    ensures result.Delivered? && IsOk(result.status) && ReadReply(result.data) == Some("") ==>
              s == Settlement(EmptyReplyText, [], ReceivedStatus)
    ensures result.Delivered? && IsOk(result.status) && ReadReply(result.data).Some?
            && ReadReply(result.data).value != "" ==>
              var reply := ReadReply(result.data).value;
              s == Settlement(reply, [Turn("assistant", reply)], ReceivedStatus)
  {
    match result
    case NetworkFailure => Settlement(NetworkErrorText, [], NetworkErrorStatus)
    case Delivered(status, data) =>
      if !IsOk(status) then Settlement(ProblemText, [], HttpErrorPrefix + NatToDecimal(status))
      else match ReadReply(data)
        case None => Settlement(NetworkErrorText, [], NetworkErrorStatus)
        case Some(reply) =>
          if reply != "" then Settlement(reply, [Turn("assistant", reply)], ReceivedStatus)
          else Settlement(EmptyReplyText, [], ReceivedStatus)
  }

  /** The status line of a failed request names the status code: what follows the
      prefix reads back as exactly that code. */
  lemma HttpErrorStatusNamesCode(status: nat, data: ParseResult)
    requires !IsOk(status)
    ensures var line := Settle(Delivered(status, data)).status;
            |line| > |HttpErrorPrefix| && line[..|HttpErrorPrefix|] == HttpErrorPrefix
            && IsDigits(line[|HttpErrorPrefix|..])
            && ParseDecimal(line[|HttpErrorPrefix|..]) == status
  {
    var line := Settle(Delivered(status, data)).status;
    assert line[|HttpErrorPrefix|..] == NatToDecimal(status);
    DecimalRoundTrip(status);
  }

  /** A chat bubble: a `div` in the transcript whose text can be replaced later. */
  class Bubble {
    const style: Style
    var text: string

    constructor (style: Style, text: string)
      ensures this.style == style && this.text == text
    {
      this.style := style;
      this.text := text;
    }
  }

  /** The state the page's script keeps once loaded. `hasLog`, `hasStatus` and `hasInput`
      say whether the chat log, the status element and the input field were found on
      the page; the code checks each before touching it. */
  class Session {
    const hasLog: bool
    const hasStatus: bool
    const hasInput: bool
    var history: seq<Turn>
    var transcript: seq<Bubble>
    var status: string
    var input: string

    /** The history holds user and assistant entries only, and nothing is rendered when
        there is no chat log. */
    ghost predicate Valid()
      reads this
    {
      (forall i :: 0 <= i < |history| ==> IsChatRole(history[i].role))
      && (!hasLog ==> transcript == [])
    }

    /** The page is loaded: empty history and transcript, status "ready". */
    constructor (hasLog: bool, hasStatus: bool, hasInput: bool, input: string)
      ensures Valid()
      ensures this.hasLog == hasLog && this.hasStatus == hasStatus && this.hasInput == hasInput
      ensures history == [] && transcript == [] && this.input == input
      ensures status == if hasStatus then ReadyStatus else ""
    {
      this.hasLog := hasLog;
      this.hasStatus := hasStatus;
      this.hasInput := hasInput;
      history := [];
      transcript := [];
      this.input := input;
      status := if hasStatus then ReadyStatus else "";
    }

    /** `setStatus`: writes the status line when there is one. */
    method SetStatus(text: string)
      modifies this`status
      ensures status == if hasStatus then text else old(status)
    {
      if hasStatus {
        status := text;
      }
    }

    /** `addBubble`: renders exactly one new bubble at the end of the transcript (none
        when there is no chat log) and pushes `{role, content}` onto the history only
        for the `user` and `assistant` roles. */
    method AddBubble(role: string, text: string) returns (b: Bubble?)
      requires Valid()
      modifies this`history, this`transcript
      ensures Valid()
      ensures hasLog ==> b != null && fresh(b) && transcript == old(transcript) + [b]
                         && b.text == text
                         && b.style == (if role == "assistant" then AssistantStyle else UserStyle)
      ensures !hasLog ==> b == null && transcript == old(transcript)
      ensures history == old(history) + (if hasLog && IsChatRole(role) then [Turn(role, text)] else [])
    {
      if !hasLog {
        return null;
      }
      b := new Bubble(if role == "assistant" then AssistantStyle else UserStyle, text);
      transcript := transcript + [b];
      if role == "assistant" || role == "user" {
        history := history + [Turn(role, text)];
      }
    }

    /** The part of `sendToChavruta` before the `await`: the "Thinking…" placeholder is
        rendered, and so enters the history, the status reports the question as sent,
        and the request carries the user text and the history as it now stands. */
    method SendToChavruta(userText: string) returns (thinking: Bubble?, request: Request)
      requires Valid()
      modifies this`history, this`transcript, this`status
      ensures Valid()
      ensures hasLog ==> thinking != null && fresh(thinking) && transcript == old(transcript) + [thinking]
                         && thinking.text == ThinkingText && thinking.style == AssistantStyle
      ensures !hasLog ==> thinking == null && transcript == old(transcript)
      ensures history == old(history) + (if hasLog then [Turn("assistant", ThinkingText)] else [])
      ensures status == if hasStatus then SendingStatus else old(status)
      ensures request == Request(userText, history)
    {
      thinking := AddBubble("assistant", ThinkingText);
      SetStatus(SendingStatus);
      request := Request(userText, history);
    }

    /** `handleSend`: blank input (or no input field) changes nothing and sends nothing.
        Otherwise the trimmed text is rendered and pushed as a user turn, the input is
        cleared, and the request goes out carrying the trimmed text and a history that
        ends with the user turn and the placeholder, in that order. */
    method HandleSend() returns (thinking: Bubble?, request: Option<Request>)
      requires Valid()
      modifies this`history, this`transcript, this`status, this`input
      ensures Valid()
      ensures request.None? <==> !hasInput || IsBlank(old(input))
      ensures request.None? ==>
                thinking == null && history == old(history) && transcript == old(transcript)
                && status == old(status) && input == old(input)
      ensures request.Some? ==>
                var text := Trim(old(input));
                text != "" && Trim(text) == text && input == ""
                && history == old(history) + (if hasLog then [Turn("user", text), Turn("assistant", ThinkingText)] else [])
                && request.value == Request(text, history)
                && status == (if hasStatus then SendingStatus else old(status))
      ensures request.Some? && hasLog ==>
                var n := |old(transcript)|;
                |transcript| == n + 2 && transcript[..n] == old(transcript)
                && fresh(transcript[n]) && transcript[n].text == Trim(old(input))
                && transcript[n].style == UserStyle
                && thinking == transcript[n + 1] && thinking != transcript[n]
                && fresh(thinking) && thinking.text == ThinkingText && thinking.style == AssistantStyle
      ensures request.Some? && !hasLog ==> thinking == null && transcript == old(transcript)
    {
      if !hasInput {
        return null, None;
      }
      var text := Trim(input);
      if text == "" {
        return null, None;
      }
      TrimIdempotent(input);
      var _ := AddBubble("user", text);
      input := "";
      var req;
      thinking, req := SendToChavruta(text);
      request := Some(req);
    }

    /** The continuation of `sendToChavruta` once the request settles: the placeholder
        it was given (if any) takes the settled text, the history grows by what the
        settlement appends and by nothing else, and the status line is updated. Nothing
        checks whether the placeholder is still on screen. */
    method Resolve(thinking: Bubble?, result: FetchResult)
      requires Valid()
      modifies this`history, this`status, thinking
      ensures Valid()
      ensures thinking != null ==> thinking.text == Settle(result).bubbleText
      ensures history == old(history) + Settle(result).appended
      ensures status == if hasStatus then Settle(result).status else old(status)
    {
      var s := Settle(result);
      if thinking != null {
        thinking.text := s.bubbleText;
      }
      history := history + s.appended;
      SetStatus(s.status);
    }

    /** The clear button's handler (wired only when the chat log exists): transcript and
        history are emptied and re-seeded with the one greeting, which enters both. */
    method Clear()
      requires Valid()
      modifies this`history, this`transcript, this`status
      ensures Valid()
      ensures hasLog ==>
                |transcript| == 1 && fresh(transcript[0])
                && transcript[0].text == Greeting && transcript[0].style == AssistantStyle
                && history == [Turn("assistant", Greeting)]
                && status == (if hasStatus then ClearedStatus else old(status))
      ensures !hasLog ==>
                transcript == old(transcript) && history == old(history) && status == old(status)
    {
      if !hasLog {
        return;
      }
      transcript := [];
      history := [];
      var _ := AddBubble("assistant", Greeting);
      SetStatus(ClearedStatus);
    }
  }

  /** The body of a successful answer carrying `reply`. */
  function ReplyData(reply: string): ParseResult
  {
    Parsed(JObject(map["reply" := JString(reply)]))
  }

  /** An OK answer of any 2xx status whose body carries a non-blank reply settles to
      that reply, trimmed, shown and recorded. */
  lemma SettleReply(status: nat, reply: string)
    requires IsOk(status) && !IsBlank(reply)
    ensures Settle(Delivered(status, ReplyData(reply)))
            == Settlement(Trim(reply), [Turn("assistant", Trim(reply))], ReceivedStatus)
  {
    var v := JObject(map["reply" := JString(reply)]);
    assert Get(v, "reply") == Some(JString(reply));
    assert ReadReply(ReplyData(reply)) == Some(Trim(reply));
  }

  /** One full round on a fresh page: the question goes out with the user turn and the
      placeholder in its history, the answer replaces the placeholder on screen, and the
      history keeps the placeholder entry before the answer. */
  method AskAndAnswer(question: string, reply: string)
    returns (request: Option<Request>, history: seq<Turn>, screen: seq<Bubble>)
    requires !IsBlank(question) && !IsBlank(reply)
    ensures request == Some(Request(Trim(question), [Turn("user", Trim(question)), Turn("assistant", ThinkingText)]))
    ensures history == [Turn("user", Trim(question)), Turn("assistant", ThinkingText), Turn("assistant", Trim(reply))]
    ensures |screen| == 2 && screen[0].text == Trim(question) && screen[1].text == Trim(reply)
    ensures screen[0].style == UserStyle && screen[1].style == AssistantStyle
  {
    var session := new Session(true, true, true, question);
    var thinking;
    thinking, request := session.HandleSend();
    assert session.history == [Turn("user", Trim(question)), Turn("assistant", ThinkingText)];
    assert request == Some(Request(Trim(question), session.history));
    var asked := session.transcript[0];
    assert session.transcript == [asked, thinking];
    assert asked.text == Trim(question) && asked != thinking;
    var answer := Delivered(200, ReplyData(reply));
    SettleReply(200, reply);
    assert Settle(answer).appended == [Turn("assistant", Trim(reply))];
    assert Settle(answer).bubbleText == Trim(reply);
    session.Resolve(thinking, answer);
    history := session.history;
    screen := session.transcript;
    assert screen == [asked, thinking];
  }

  /** An answer that arrives after the conversation was cleared is written into the
      detached placeholder, which is no longer on screen: the transcript shows only the
      greeting, but the answer is still pushed onto the fresh history. */
  method AnswerAfterClear(question: string, reply: string)
    returns (history: seq<Turn>, screen: seq<Bubble>, placeholder: Bubble?)
    requires !IsBlank(question) && !IsBlank(reply)
    ensures history == [Turn("assistant", Greeting), Turn("assistant", Trim(reply))]
    ensures |screen| == 1 && screen[0].text == Greeting
    ensures placeholder != null && placeholder !in screen
    ensures placeholder.text == Trim(reply)
  {
    var session := new Session(true, true, true, question);
    var request;
    placeholder, request := session.HandleSend();
    session.Clear();
    var greeting := session.transcript[0];
    assert session.transcript == [greeting] && greeting != placeholder && greeting.text == Greeting;
    assert session.history == [Turn("assistant", Greeting)];
    var answer := Delivered(200, ReplyData(reply));
    SettleReply(200, reply);
    assert Settle(answer).appended == [Turn("assistant", Trim(reply))];
    assert Settle(answer).bubbleText == Trim(reply);
    session.Resolve(placeholder, answer);
    history := session.history;
    screen := session.transcript;
    assert screen == [greeting];
  }
}
