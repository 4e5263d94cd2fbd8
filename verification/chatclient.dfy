/**
  The turn controller of the chat client (frontend/src/components/ChatBot.jsx):
  the input guard, the request message list, one send turn with its
  primary/backup fallback and history update, replaying a history entry and
  clearing the history. Each user action is one sequential step on
  `ClientState`.
 */
module ChatClient {
  import opened JsText
  import opened Protocol
  import opened History
  import opened Fallback

  datatype Speaker = FromUser | FromBot

  /** One bubble of the visible transcript. */
  datatype Bubble = Bubble(speaker: Speaker, text: string)

  datatype ClientState = ClientState(
    input: string,
    systemPrompt: string,
    model: string,
    transcript: seq<Bubble>,
    history: seq<HistoryEntry>)

  const DefaultModel := "Llama-3.1-8b-instant"

  const BothFailedText := "An error occurred, Both Primary & Backup Models failed, Please try again later..."

  /** The component's state on mount. */
  function InitialState(stored: Stored): (s: ClientState)
    ensures s.transcript == [] && s.input == "" && s.systemPrompt == "" && s.model == DefaultModel
    ensures stored.Saved? ==> s.history == stored.entries
    ensures !stored.Saved? ==> s.history == []
  {
    ClientState("", "", DefaultModel, [], LoadHistory(stored))
  }

  /** `history.slice(-1).flatMap(...)`: the newest entry as a user/assistant pair. */
  function ReplayedContext(h: seq<HistoryEntry>): seq<ChatMessage> {
    if |h| == 0 then []
    else [ChatMessage(User, h[|h| - 1].query), ChatMessage(Assistant, h[|h| - 1].response)]
  }

  /** `createRequestMessages`: system prompt, at most one replayed exchange,
      then the new user turn. */
  function RequestMessages(systemPrompt: string, h: seq<HistoryEntry>, input: string): (r: seq<ChatMessage>)
    ensures |r| == if |h| == 0 then 2 else 4
    ensures r[0] == ChatMessage(System, systemPrompt)
    ensures r[|r| - 1] == ChatMessage(User, input)
    ensures |h| > 0 ==>
      r[1] == ChatMessage(User, h[|h| - 1].query) && r[2] == ChatMessage(Assistant, h[|h| - 1].response)
  {
    [ChatMessage(System, systemPrompt)] + ReplayedContext(h) + [ChatMessage(User, input)]
  }

  /** Only the newest history entry reaches the request: older entries are
      never replayed. */
  lemma OnlyNewestEntryReplayed(sp: string, older1: seq<HistoryEntry>, older2: seq<HistoryEntry>,
                                e: HistoryEntry, input: string)
    ensures RequestMessages(sp, older1 + [e], input) == RequestMessages(sp, older2 + [e], input)
  {
    assert (older1 + [e])[|older1 + [e]| - 1] == e;
    assert (older2 + [e])[|older2 + [e]| - 1] == e;
  }

  /** The request both attempts of a turn carry. */
  function TurnRequest(s: ClientState): ChatRequest {
    ChatRequest(RequestMessages(s.systemPrompt, s.history, s.input), Some(s.model))
  }

  datatype TurnResult = TurnResult(state: ClientState, attempts: seq<Attempt>)

  /** `handleSendMessage`. A blank input is a no-op. Otherwise the input is
      cleared and the user bubble shown; a resolved attempt appends the bot
      bubble and records (input, reply) in the history; a double rejection
      appends the fixed failure text and leaves the history alone. */
  function SendMessage(s: ClientState, post: (Route, ChatRequest) -> Call<string>): (r: TurnResult)
    ensures Trim(s.input) == "" ==> r.state == s && r.attempts == []
    ensures Trim(s.input) != "" ==>
      && 1 <= |r.attempts| <= 2
      && r.attempts[0].route == PrimaryRoute
      && (|r.attempts| == 2 <==> post(PrimaryRoute, TurnRequest(s)).Fail?)
      && (|r.attempts| == 2 ==> r.attempts[1].route == BackupRoute)
      && (forall i | 0 <= i < |r.attempts| :: r.attempts[i].request == TurnRequest(s))
      && r.state.input == ""
      && r.state.systemPrompt == s.systemPrompt
      && r.state.model == s.model
    ensures Trim(s.input) != "" && post(PrimaryRoute, TurnRequest(s)).Ok? ==>
      var reply := post(PrimaryRoute, TurnRequest(s)).value;
      && r.state.transcript == s.transcript + [Bubble(FromUser, s.input), Bubble(FromBot, reply)]
      && r.state.history == UpdateHistory(s.history, HistoryEntry(s.input, reply))
    ensures Trim(s.input) != "" && post(PrimaryRoute, TurnRequest(s)).Fail? && post(BackupRoute, TurnRequest(s)).Ok? ==>
      var reply := post(BackupRoute, TurnRequest(s)).value;
      && r.state.transcript == s.transcript + [Bubble(FromUser, s.input), Bubble(FromBot, reply)]
      && r.state.history == UpdateHistory(s.history, HistoryEntry(s.input, reply))
    ensures Trim(s.input) != "" && post(PrimaryRoute, TurnRequest(s)).Fail? && post(BackupRoute, TurnRequest(s)).Fail? ==>
      && r.state.transcript == s.transcript + [Bubble(FromUser, s.input), Bubble(FromBot, BothFailedText)]
      && r.state.history == s.history
  {
    if Trim(s.input) == "" then TurnResult(s, [])
    else
      var run := RunFallback(TurnRequest(s), post);
      TurnResult(Settle(s, run.final), run.attempts)
  }

  /** The state once the fallback has settled: the input is cleared, the
      user bubble and the bot bubble are appended, and only an answer is
      recorded in the history. */
  function Settle(s: ClientState, final: Phase): (t: ClientState)
    requires !Pending(final)
    ensures t.input == "" && t.systemPrompt == s.systemPrompt && t.model == s.model
    ensures final.Answered? ==>
      && t.transcript == s.transcript + [Bubble(FromUser, s.input), Bubble(FromBot, final.reply)]
      && t.history == UpdateHistory(s.history, HistoryEntry(s.input, final.reply))
    ensures final.GaveUp? ==>
      && t.transcript == s.transcript + [Bubble(FromUser, s.input), Bubble(FromBot, BothFailedText)]
      && t.history == s.history
  {
    var shown := s.transcript + [Bubble(FromUser, s.input)];
    if final.Answered? then
      s.(input := "",
         transcript := shown + [Bubble(FromBot, final.reply)],
         history := UpdateHistory(s.history, HistoryEntry(s.input, final.reply)))
    else
      s.(input := "", transcript := shown + [Bubble(FromBot, BothFailedText)])
  }

  /** `handleHistoryClick`: show one past exchange; no request is made. */
  function HistoryClick(s: ClientState, e: HistoryEntry): (t: ClientState)
    ensures t.transcript == [Bubble(FromUser, e.query), Bubble(FromBot, e.response)]
    ensures t.history == s.history && t.input == s.input
    ensures t.systemPrompt == s.systemPrompt && t.model == s.model
  {
    s.(transcript := [Bubble(FromUser, e.query), Bubble(FromBot, e.response)])
  }

  /** `HistoryRemover`: forget the history and the transcript. */
  function ClearHistory(s: ClientState): (t: ClientState)
    ensures t.history == [] && t.transcript == []
    ensures t.input == s.input && t.systemPrompt == s.systemPrompt && t.model == s.model
  {
    s.(history := [], transcript := [])
  }

  /** The model selector's `onChange`: any name becomes the model every later
      turn posts; nothing else changes. */
  function SelectModel(s: ClientState, m: string): (t: ClientState)
    ensures t.model == m && TurnRequest(t).model == Some(m)
    ensures t.input == s.input && t.systemPrompt == s.systemPrompt
    ensures t.transcript == s.transcript && t.history == s.history
  {
    s.(model := m)
  }

  /** History stays within capacity. */
  predicate Bounded(s: ClientState) {
    |s.history| <= Capacity
  }

  /** Every user action keeps the history within capacity. */
  lemma ActionsKeepHistoryBounded(s: ClientState, post: (Route, ChatRequest) -> Call<string>, e: HistoryEntry, m: string)
    requires Bounded(s)
    ensures Bounded(SendMessage(s, post).state)
    ensures Bounded(HistoryClick(s, e))
    ensures Bounded(ClearHistory(s))
    ensures Bounded(SelectModel(s, m))
  {
  }

  /** After a successful turn, replaying the newest history entry shows
      exactly the exchange the turn just appended, with no request. */
  lemma ReplayReproducesLastExchange(s: ClientState, post: (Route, ChatRequest) -> Call<string>)
    requires Trim(s.input) != ""
    requires post(PrimaryRoute, TurnRequest(s)).Ok? || post(BackupRoute, TurnRequest(s)).Ok?
    ensures var t := SendMessage(s, post).state;
      && |t.history| > 0
      && HistoryClick(t, t.history[|t.history| - 1]).transcript == t.transcript[|t.transcript| - 2..]
      && HistoryClick(t, t.history[|t.history| - 1]).history == t.history
  {
    var run := RunFallback(TurnRequest(s), post);
    assert run.final.Answered?;
    var t := Settle(s, run.final);
    assert t.history[|t.history| - 1] == HistoryEntry(s.input, run.final.reply);
  }

  /** Replaying an entry twice is the same as replaying it once. */
  lemma HistoryClickIdempotent(s: ClientState, e: HistoryEntry)
    ensures HistoryClick(HistoryClick(s, e), e) == HistoryClick(s, e)
  {
  }

  /** After clearing, the next turn replays no context and, if it succeeds,
      leaves a history of exactly that one exchange. */
  lemma ClearThenSend(s: ClientState, post: (Route, ChatRequest) -> Call<string>)
    requires Trim(s.input) != ""
    ensures |TurnRequest(ClearHistory(s)).messages| == 2
    ensures post(PrimaryRoute, TurnRequest(ClearHistory(s))).Ok? ==>
      SendMessage(ClearHistory(s), post).state.history
        == [HistoryEntry(s.input, post(PrimaryRoute, TurnRequest(ClearHistory(s))).value)]
  {
  }

  /** Whitespace-only input sends nothing and changes nothing. */
  lemma BlankInputIsNoOp(s: ClientState, post: (Route, ChatRequest) -> Call<string>)
    requires IsBlank(s.input)
    ensures SendMessage(s, post) == TurnResult(s, [])
  {
    TrimEmptyIffBlank(s.input);
  }
}
