# polyEms chat gateway and client turn controller, in Dafny

This project models the small amount of pure logic in polyEms, an LLM chat hub. It has two parts:

- **Gateway** (`backend/index.js`). The `POST /api/chat` handler picks one upstream provider from the model name, using an ordered first-match rule:
  - a `gemini` prefix goes to Gemini;
  - otherwise a `gpt` prefix goes to OpenAI;
  - otherwise the exact name `Qwen2.5-Coder-32B-Instruct` goes to the HuggingFace stream;
  - anything else goes to Groq.

  The handler then shapes the request for that provider:
  - Gemini gets a prompt flattened with newlines;
  - the other three get the message list with fixed sampling parameters.

  It turns the answer into one reply text. The stream is drained into one string, or the first choice's content is taken. An empty result becomes `'No response generated.'`, except on the Gemini path. Any rejection becomes status 500 with a message that names the model. `POST /api/chat/v3` is one vision call with the same placeholder rule.
- **Client** (`frontend/src/components/ChatBot.jsx`). One send turn does the following:
  - whitespace-only input is ignored;
  - the request is the system prompt, at most the newest history exchange, then the new user turn;
  - the request goes to the primary route, and once to the backup route if the primary rejects;
  - the transcript and the bounded history (10 entries, oldest dropped) are updated.

  The client also replays a history entry, clears the history, and computes the text of the "Copy Response" button.

Provider SDKs and HTTP posts are **oracles**. Each is a function from the request actually built to `Ok(value)` or `Fail` (a rejection). Clocks, storage writes, rendering and the network are not modelled.

Modules:
- `JsText`: the JavaScript string built-ins the code uses (`startsWith`, `join`, `trim`, template text), plus `split` and `includes`, which the contracts use to state results.
- `Protocol`: the wire types.
- `Routing`: the dispatch rule.
- `Normalise`: prompt flattening, stream drain and placeholder.
- `Gateway`: the two handlers.
- `History`, `Fallback`, `ChatClient`: the client's history, fallback machine and turn controller.
- `CodeCopy`: the fenced-code scanner.
- `EndToEnd`: the client's primary route wired to the gateway.

Points of the code worth knowing:
- A history longer than 10 entries loses one entry per append, not all of the excess. Such a history can only come from storage.
- The placeholder replaces an empty drained text. That includes the text drained from a non-empty stream.
- The Gemini path has no placeholder.
- The HuggingFace call sends the namespaced id `Qwen/Qwen2.5-Coder-32B-Instruct`, whatever model string the caller sent.
- `setSystemPrompt` is never called. Every request's system message is therefore the empty string.
- The HuggingFace loop as written appends "undefined" for a delta without content (see "## Findings"). The handler model uses the corrected loop, and the loop as written is modelled beside it.

## Model

| member | source | states |
|---|---|---|
| Routing.Dispatch | backend/index.js:51-93 | The provider is Gemini exactly for a `gemini` prefix. It is OpenAI exactly for a `gpt` prefix without a `gemini` prefix. It is HuggingFace exactly for the one coder-model name, which no earlier rule shadows. It is Groq exactly for an absent model or any other name. |
| Routing.DispatchFollowsRoutingTable | backend/index.js:51-83 | The handler's if/else chain equals an ordered rule table with Groq as the default, for every model, absent and empty included. |
| Normalise.FlattenPrompt | backend/index.js:53 | The Gemini prompt is empty for no messages. Otherwise its length is the total content length plus n−1 separators. |
| Normalise.FlattenPromptSeparators | backend/index.js:53 | n messages give exactly n−1 newline separators on top of the newlines in their contents. |
| Normalise.FlattenPromptSplits | backend/index.js:53 | When no content holds a newline, splitting the prompt on newlines gives back every content in order. Roles are dropped, and nothing is lost or reordered. |
| JsText.SplitJoin | backend/index.js:53 | `split` inverts `join` for parts free of the separator. This is the inverse used to read the flattened prompt back. |
| Normalise.OrPlaceholder | backend/index.js:82 | The reply is never empty. It is the drained text unchanged, or the placeholder when that text is empty. |
| Normalise.FirstChoiceReply | backend/index.js:64 | The reply is never empty. It is the placeholder or exactly the first choice's content, and it is that content whenever the content is present and non-empty. |
| Normalise.FirstChoiceReplyIsStable | backend/index.js:92 | Normalising a normalised reply again gives the same text. |
| Normalise.DrainStream | backend/index.js:75-80 | The corrected loop: its text is every chunk's first-choice delta content, concatenated in arrival order. A delta without content adds nothing. |
| Normalise.DrainStreamAsWritten | backend/index.js:75-80 | The loop as written: its text is every chunk's first-choice delta text in arrival order, with "undefined" for a delta without content. |
| Normalise.DrainAppend | backend/index.js:75-80 | Draining respects arrival order. The drain of a concatenated stream is the concatenation of the drains. |
| Normalise.ChoicelessChunkAddsNothing | backend/index.js:76 | A chunk with missing or empty `choices`, anywhere in the stream, leaves the reply unchanged. |
| Normalise.ContentlessStreamGivesPlaceholder | backend/index.js:75-82 | A stream in which no chunk carries content drains to "" and the reply is the placeholder. |
| Normalise.DrainExample | backend/index.js:75-80 | Fragments "Hel" and "lo" drain to "Hello". |
| Normalise.ContentlessDeltaLeaksUndefined | backend/index.js:77-78 | As written, a chunk whose delta has no content appends "undefined", so the reply is "undefined" and not the placeholder. |
| Normalise.DrainAsWrittenAgreesWhenContentPresent | backend/index.js:75-80 | The loop as written and the corrected loop agree on every stream whose chunks with choices all carry content. |
| Gateway.Adapt | backend/index.js:50-93 | Each branch calls only its provider, with the request shaped for that provider. Gemini gets the model and the flattened prompt. OpenAI and Groq get the messages with their fixed sampling. HuggingFace gets the namespaced coder id with top-p 0.7. Every non-Gemini answer is non-empty. |
| Gateway.UnreachableMessage | backend/index.js:98 | The error text contains the requested model identifier, or "undefined" when the model is absent. |
| Gateway.HandleChat | backend/index.js:46-99 | The status is 200 or 500. It is 200 exactly when the selected provider resolves, and then the body is that provider's reply. On 500 the body is an error naming the model and carries no response. |
| Gateway.OnlySelectedProviderConsulted | backend/index.js:50-93 | Exactly one provider is consulted. The reply does not depend on any provider other than the selected one. |
| Gateway.EmptyReplyOnlyFromGemini | backend/index.js:54-55 | A 200 reply with an empty response can only come from the Gemini branch. |
| Gateway.HandleImageChat | backend/index.js:103-138 | The vision endpoint returns 500 with its fixed text exactly when the vision call rejects. Otherwise it returns 200, and the body is the first choice's content or the placeholder, which is never empty. |
| JsText.TrimEmptyIffBlank | frontend/src/components/ChatBot.jsx:54 | `!input.trim()` holds exactly for strings made only of ECMAScript whitespace and line terminators. |
| ChatClient.BlankInputIsNoOp | frontend/src/components/ChatBot.jsx:54 | Whitespace-only input sends nothing and leaves the whole state unchanged. |
| ChatClient.InitialState | frontend/src/components/ChatBot.jsx:15-30 | On mount the transcript, input and system prompt are empty and the model is `Llama-3.1-8b-instant`. The history is the saved list, or empty when nothing readable is saved. |
| ChatClient.RequestMessages | frontend/src/components/ChatBot.jsx:61-70 | The request starts with the system prompt and ends with the new user turn. It has 2 messages for an empty history. Otherwise it has 4, with the newest entry replayed as a user/assistant pair. |
| ChatClient.OnlyNewestEntryReplayed | frontend/src/components/ChatBot.jsx:61-64 | Entries older than the newest never affect the request. |
| History.UpdateHistory | frontend/src/components/ChatBot.jsx:72-75 | The new entry is last and the result is a suffix of old history plus the entry. It drops exactly one entry when the total passes 10, so a history of at most 10 stays within 10. |
| History.KeepsNewestStep | frontend/src/components/ChatBot.jsx:72-75 | Recording one entry on the newest 10 entries of a list gives the newest 10 entries of the extended list. |
| History.HistoryKeepsNewest | frontend/src/components/ChatBot.jsx:72-85 | After any series of successful turns from at most 10 entries, the history is exactly the newest min(10, n) entries, oldest first. |
| Fallback.Step | frontend/src/components/ChatBot.jsx:96-112 | Each transition uses up an attempt. A resolved reply settles the turn as that reply's answer, and a backup rejection settles it as a give-up. The controller gives up only after the backup rejects. |
| Fallback.Drive | frontend/src/components/ChatBot.jsx:96-112 | Running the machine settles it within the attempts left. Its first post goes to the phase's route, and every post carries the same request. |
| Fallback.RunFallback | frontend/src/components/ChatBot.jsx:87-112 | A turn makes one or two attempts, the primary first. The backup is tried exactly when the primary rejects, with the same request. The reply is the first resolved answer. The turn gives up exactly when both routes reject. |
| ChatClient.Settle | frontend/src/components/ChatBot.jsx:98-111 | After the fallback settles, the user and bot bubbles are appended. Only an answer is recorded in the history. The double-failure text leaves the history unchanged. |
| ChatClient.HistoryClick | frontend/src/components/ChatBot.jsx:118-123 | Replaying an entry shows exactly its query and response bubbles. It leaves the history, input, system prompt and model unchanged and makes no request. |
| ChatClient.ClearHistory | frontend/src/components/ChatBot.jsx:47-51 | Clearing empties both the history and the transcript. Input, system prompt and model are unchanged. |
| ChatClient.SelectModel | frontend/src/components/ChatBot.jsx:194-198 | Choosing a model makes it the `model` of the next turn's request (ChatBot.jsx:91). Input, system prompt, transcript and history are unchanged. |
| ChatClient.SendMessage | frontend/src/components/ChatBot.jsx:53-116 | A non-blank turn makes at most two attempts with one shared payload and clears the input. If the primary answers, that answer is shown and recorded. If only the backup answers, its answer is shown and recorded. If both fail, the fixed failure text is shown and the history is unchanged. |
| ChatClient.ActionsKeepHistoryBounded | frontend/src/components/ChatBot.jsx:72-75 | Sending, replaying, clearing and choosing a model all keep a history of at most 10 entries within 10. |
| ChatClient.ReplayReproducesLastExchange | frontend/src/components/ChatBot.jsx:118-123 | After a successful turn, replaying the newest entry shows exactly the two bubbles that turn appended and keeps the history. |
| ChatClient.HistoryClickIdempotent | frontend/src/components/ChatBot.jsx:118-123 | Replaying an entry twice equals replaying it once. |
| ChatClient.ClearThenSend | frontend/src/components/ChatBot.jsx:47-51 | After clearing, the next request replays no context. A successful turn then leaves a history of exactly that one exchange. |
| CodeCopy.FirstFence | frontend/src/components/ChatBot.jsx:131 | Finds the first index where three backticks start, or reports that the text has none. |
| CodeCopy.Blocks | frontend/src/components/ChatBot.jsx:131-134 | Each match's body with its fences removed contains no fence and does not end in a backtick, because a match is closed by the first fence after it opens. |
| CodeCopy.StripFencesOfMatch | frontend/src/components/ChatBot.jsx:134 | Removing every fence from a whole match gives back its body, for every body the scanner can return. |
| CodeCopy.BlocksAreStrippedMatches | frontend/src/components/ChatBot.jsx:131-134 | Each block the scanner returns is its match with the fences removed. So the scanner's blocks are exactly what the `replace` step yields. |
| CodeCopy.BlocksEmptyIffNoFencedBlock | frontend/src/components/ChatBot.jsx:131-132 | The pattern matches somewhere exactly when the text has two non-overlapping fences. |
| CodeCopy.CopyText | frontend/src/components/ChatBot.jsx:129-141 | A text without a fenced block is copied whole. Otherwise the copy is the fence-stripped blocks joined by a blank line. |
| CodeCopy.FenceFreeTextCopiedWhole | frontend/src/components/ChatBot.jsx:138-139 | A text with no triple backtick is copied unchanged. |
| CodeCopy.BlocksOfRender | frontend/src/components/ChatBot.jsx:131-135 | Round trip: a reply is fenced code blocks with prose before each one and optionally after the last. From any such reply, the scanner recovers exactly the code blocks, in order. The prose may contain inline code spans. It must hold no triple backtick, and prose before a block must not end in a backtick. |
| CodeCopy.CopyTextOfRender | frontend/src/components/ChatBot.jsx:131-139 | Such a reply's copy text is its code blocks joined by a blank line. A reply of prose alone is copied whole. |
| EndToEnd.ProviderFailureTriggersBackup | frontend/src/components/ChatBot.jsx:96-103 | When the primary route is this gateway, the client falls back exactly when the provider selected for its model rejects. Otherwise the bot bubble is that provider's normalised answer. |

## Left out

- Normalise.DrainStream: models the corrected loop, in which a delta without content adds nothing. The loop as written appends "undefined" in that case; that is `Normalise.DrainStreamAsWritten`, and the difference is the finding below.
- Gateway.Adapt: the HuggingFace branch normalises with the corrected `Drain`. For a stream with a content-less delta it replies the placeholder or the other fragments, where the code as written includes "undefined". `Normalise.DrainAsWrittenAgreesWhenContentPresent` proves that the two agree on every stream in which each chunk with choices carries content.
- Express setup, CORS, JSON middleware, `dotenv`, `listen` and `GET /` (backend/index.js:1-43, 140-143) are server plumbing with no logic.
- The provider SDKs are oracles. Nothing is assumed about their behaviour, including Gemini's `getGenerativeModel`, which is folded into the Gemini oracle's request.
- A model field that is present but not a string, such as `null` or a number, is not modelled. Such a value makes `startsWith` throw or interpolates differently. The model is a string or absent.
- Message contents are strings. A missing `content`, which `join` would render as "", and a non-array `messages` are not modelled.
- A stream chunk whose first choice has no `delta` makes the loop throw, which gives status 500. It is not modelled: each `StreamChoice` has a delta, whose content may be missing. A stream that rejects part-way is the stream oracle's `Fail`, and any partial text is discarded.
- A `content` that is present but not a string, or a `null` delta content, which `+=` would render as "null", is not modelled.
- Browser storage I/O and JSON parse/stringify are not modelled. A missing or unreadable saved history loads as an empty list. The write after each update, whose failure is only logged, is not modelled. A saved value that parses to something other than a list is not modelled.
- The backup route `/api/chat/v2` matches no route of this gateway. It is an independent oracle, and nothing is assumed about what serves it.
- A 2xx reply without a `response` field is not modelled. The post oracle yields the `response` text or a rejection.
- React rendering, theming, the sidebar toggle, the selector's rate-limit alert, the loading flag, clipboard and `alert` calls, and `frontend/src/main.jsx` are presentation only. Choosing a model is `ChatClient.SelectModel`. The selector offers a fixed list, but the model accepts any name, so every client contract covers whichever model is selected.
- Async ordering and concurrent user actions are not modelled. Each user action is one sequential step.
- The JavaScript regex engine is not modelled. The lazy global match is specified by an explicit scanner over the text.
- The sampling parameters are recorded in the requests as constants. Their effect on the providers is opaque.

## Findings

| source | as written | input that shows it | evidently intended | confidence | as-written member | corrected member |
|---|---|---|---|---|---|---|
| backend/index.js:77-78 | `out += chunk.choices[0].delta.content` appends the text "undefined" when a delta has no `content` | a stream whose only chunk is `{ choices: [ { delta: {} } ] }` gives the reply "undefined" | a delta without content adds nothing, so that stream's reply is 'No response generated.' | medium: it depends on the provider emitting a content-less delta; not executed | Normalise.ContentlessDeltaLeaksUndefined | Normalise.ContentlessStreamGivesPlaceholder |

The handler model drains with the corrected `Normalise.Drain`. `Normalise.DrainAsWrittenAgreesWhenContentPresent` shows that the two loops differ only on chunks whose delta has no content.
