/** The contract between the page and the server function: the JSON the page posts is
    what the handler reads, and the JSON the handler answers is what the page reads.
    (Serialising and parsing are taken to be inverse to each other.) */
module Wire {
  import opened Common
  import opened Text
  import opened Json
  import ChatClient
  import ChatServer

  /** A history entry as `JSON.stringify` writes it: `{role, content}`. */
  function TurnJson(t: ChatClient.Turn): Json
  {
    JObject(map["role" := JString(t.role), "content" := JString(t.content)])
  }

  /** The body the page posts: `{latestUserText, history}`. */
  function RequestJson(req: ChatClient.Request): Json
  {
    JObject(map[
      "latestUserText" := JString(req.latestUserText),
      "history" := JArray(HistoryJson(req.history))])
  }

  /** The page's history entries as upstream messages, role and content unchanged. */
  function AsMessages(h: seq<ChatClient.Turn>): (ms: seq<ChatServer.Message>)
    ensures |ms| == |h|
    ensures forall i :: 0 <= i < |h| ==> ms[i] == ChatServer.Message(h[i].role, h[i].content)
  {
    seq(|h|, i requires 0 <= i < |h| => ChatServer.Message(h[i].role, h[i].content))
  }

  /** The handler's normalisation leaves an entry the page wrote unchanged. */
  lemma NormaliseTurn(t: ChatClient.Turn)
    requires ChatClient.IsChatRole(t.role)
    ensures ChatServer.NormaliseEntry(TurnJson(t)) == Value(ChatServer.Message(t.role, t.content))
  {
    var m := TurnJson(t);
    assert Get(m, "role") == Some(JString(t.role));
    assert Get(m, "content") == Some(JString(t.content));
  }

  /** The history array of the posted body. */
  function HistoryJson(h: seq<ChatClient.Turn>): (items: seq<Json>)
    ensures |items| == |h| && forall i :: 0 <= i < |h| ==> items[i] == TurnJson(h[i])
  {
    seq(|h|, i requires 0 <= i < |h| => TurnJson(h[i]))
  }

  /** The handler reads back the question and the history array the page wrote. */
  lemma ReadClientBody(req: ChatClient.Request)
    ensures ChatServer.ReadBody(Some(Parsed(RequestJson(req))))
            == Value(ChatServer.Inbound(HistoryJson(req.history), req.latestUserText))
  {
    var v := RequestJson(req);
    assert RequestJson(req).fields["history"] == JArray(HistoryJson(req.history));
    assert Get(v, "history") == Some(JArray(HistoryJson(req.history)));
    assert Get(v, "latestUserText") == Some(JString(req.latestUserText));
  }

  /** Normalising the page's history array gives back the page's history. */
  lemma NormaliseClientHistory(h: seq<ChatClient.Turn>)
    requires forall i :: 0 <= i < |h| ==> ChatClient.IsChatRole(h[i].role)
    ensures ChatServer.NormaliseHistory(HistoryJson(h)) == Value(AsMessages(h))
  {
    var items := HistoryJson(h);
    forall i | 0 <= i < |items|
      ensures ChatServer.NormaliseEntry(items[i]) == Value(AsMessages(h)[i])
    {
      NormaliseTurn(h[i]);
    }
    assert ChatServer.Normalisable(items);
    var normalised := ChatServer.NormaliseHistory(items).value;
    assert |normalised| == |AsMessages(h)|;
    assert forall i :: 0 <= i < |normalised| ==> normalised[i] == AsMessages(h)[i];
    assert normalised == AsMessages(h);
  }

  /** Every request the page can send passes the handler's guards, and the handler sends
      upstream the system message, the page's history exactly as the page keeps it, and
      the question. */
  lemma ServerAcceptsClientRequest(req: ChatClient.Request, apiKey: string, upstream: ChatServer.Upstream)
    requires apiKey != ""
    requires Trim(req.latestUserText) != ""
    requires forall i :: 0 <= i < |req.history| ==> ChatClient.IsChatRole(req.history[i].role)
    ensures ChatServer.Handle("POST", apiKey, Some(Parsed(RequestJson(req))), upstream).call
            == Some(ChatServer.Completion(ChatServer.UpstreamModel,
                 [ChatServer.SystemMessage] + AsMessages(req.history)
                 + [ChatServer.Message("user", req.latestUserText)],
                 ChatServer.MaxTokens))
  {
    ReadClientBody(req);
    NormaliseClientHistory(req.history);
    assert !IsBlank(req.latestUserText);
  }

  /** What the page does with the handler's answer to one of its POSTs: a 200 reply is
      shown and recorded exactly as sent (the page's own fallback never shows), and any
      other status shows the apology and records nothing, whatever the error body. */
  lemma ClientSettlesServerAnswer(apiKey: string, body: Option<ParseResult>,
                                  upstream: ChatServer.Upstream, errorData: ParseResult)
    ensures var r := ChatServer.Handle("POST", apiKey, body, upstream).response;
            r.statusCode == 200 ==>
              r.body.ReplyBody?
              && ChatClient.Settle(ChatClient.Delivered(200, ChatClient.ReplyData(r.body.reply)))
                 == ChatClient.Settlement(r.body.reply, [ChatClient.Turn("assistant", r.body.reply)],
                                          ChatClient.ReceivedStatus)
    ensures var r := ChatServer.Handle("POST", apiKey, body, upstream).response;
            r.statusCode != 200 ==>
              var s := ChatClient.Settle(ChatClient.Delivered(r.statusCode, errorData));
              s.bubbleText == ChatClient.ProblemText && s.appended == []
  {
    var r := ChatServer.Handle("POST", apiKey, body, upstream).response;
    if r.statusCode == 200 {
      var reply := r.body.reply;
      TrimFixedPoint(reply);
      assert !IsBlank(reply) by {
        assert !IsSpace(reply[0]);
      }
      ChatClient.SettleReply(200, reply);
    }
  }
}
