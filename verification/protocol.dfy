/**
  The JSON contract between the chat client and the gateway: role-tagged chat
  messages, the `{ messages, model }` request body, and the two reply shapes
  `{ response }` (status 200) and `{ error }` (status 500). `Call` is the
  outcome of any awaited call that may reject: a provider SDK call on the
  gateway side, an HTTP post on the client side.
 */
module Protocol {
  import opened JsText

  datatype Role = System | User | Assistant

  datatype ChatMessage = ChatMessage(role: Role, content: string)

  /** Body of `POST /api/chat`; `model` is `undefined` when the caller omits it. */
  datatype ChatRequest = ChatRequest(messages: seq<ChatMessage>, model: Option<string>)

  datatype Body = ResponseBody(response: string) | ErrorBody(error: string)

  datatype HttpReply = HttpReply(status: int, body: Body)

  /** A resolved value, or a rejection (thrown error, non-2xx status). */
  datatype Call<T> = Ok(value: T) | Fail
}
