/**
  The client's primary route served by the gateway's `/api/chat` handler.
  The HTTP client resolves a 2xx reply to its `response` field and rejects
  any other status, so a provider rejection on the gateway is exactly what
  sends the client to its backup route.
 */
module EndToEnd {
  import opened JsText
  import opened Protocol
  import opened Gateway
  import opened Fallback
  import opened ChatClient

  /** `(await axios.post(url, body)).data.response` */
  function ClientView(reply: HttpReply): Call<string> {
    if 200 <= reply.status < 300 && reply.body.ResponseBody? then Ok(reply.body.response) else Fail
  }

  /** The primary route answers the turn's request as the gateway with
      providers `p` would. */
  predicate PrimaryServedBy(post: (Route, ChatRequest) -> Call<string>, p: Providers, req: ChatRequest) {
    post(PrimaryRoute, req) == ClientView(HandleChat(req, p))
  }

  /** The client falls back exactly when the provider the gateway selects for
      the client's model rejects; otherwise the bot bubble is that provider's
      normalised answer. */
  lemma ProviderFailureTriggersBackup(s: ClientState, post: (Route, ChatRequest) -> Call<string>, p: Providers)
    requires PrimaryServedBy(post, p, TurnRequest(s))
    requires Trim(s.input) != ""
    ensures var turn := SendMessage(s, post);
      && (|turn.attempts| == 2 <==> Adapt(TurnRequest(s), p).Fail?)
      && (Adapt(TurnRequest(s), p).Ok? ==>
            turn.state.transcript[|turn.state.transcript| - 1] == Bubble(FromBot, Adapt(TurnRequest(s), p).value))
  {
  }
}
