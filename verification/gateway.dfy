/**
  The two POST handlers of backend/index.js. The provider SDKs are oracles:
  each maps the request the handler builds to a resolved value or a rejection.
  `/api/chat` consults exactly the provider `Dispatch` selects; any rejection
  becomes status 500 with a message naming the requested model.
 */
module Gateway {
  import opened JsText
  import opened Protocol
  import opened Routing
  import opened Normalise

  /** Fixed sampling parameters: temperature, top-p, max tokens. */
  datatype Sampling = Sampling(temperature: real, topP: real, maxTokens: nat)

  const OpenAISampling := Sampling(1.0, 1.0, 1024)
  const CoderSampling := Sampling(1.0, 0.7, 1024)
  const GroqSampling := Sampling(1.0, 1.0, 1024)
  const VisionSampling := Sampling(1.0, 1.0, 2048)

  /** The HuggingFace call names the model with its namespace, whatever the caller sent. */
  const CoderModelId := "Qwen/Qwen2.5-Coder-32B-Instruct"
  const VisionModel := "llama-3.2-11b-vision-preview"

  datatype GeminiRequest = GeminiRequest(model: string, prompt: string)

  datatype CompletionRequest = CompletionRequest(model: Option<string>, messages: seq<ChatMessage>, sampling: Sampling)

  datatype VisionRequest = VisionRequest(model: string, prompt: string, imageUrl: string, sampling: Sampling)

  /** The upstream clients, constructed once at startup. */
  datatype Providers = Providers(
    gemini: GeminiRequest -> Call<string>,
    openAI: CompletionRequest -> Call<Completion>,
    huggingFace: CompletionRequest -> Call<seq<Chunk>>,
    groq: CompletionRequest -> Call<Completion>,
    groqVision: VisionRequest -> Call<Completion>)

  /** The text of the selected provider's answer, or its rejection. */
  function Adapt(req: ChatRequest, p: Providers): (r: Call<string>)
    ensures Dispatch(req.model) == Gemini ==>
      r == p.gemini(GeminiRequest(req.model.value, FlattenPrompt(req.messages)))
    ensures Dispatch(req.model) == OpenAI ==>
      var c := p.openAI(CompletionRequest(req.model, req.messages, OpenAISampling));
      (r.Ok? <==> c.Ok?) && (r.Ok? ==> r.value == FirstChoiceReply(c.value))
    ensures Dispatch(req.model) == HuggingFace ==>
      var s := p.huggingFace(CompletionRequest(Some(CoderModelId), req.messages, CoderSampling));
      (r.Ok? <==> s.Ok?) && (r.Ok? ==> r.value == OrPlaceholder(Drain(s.value)))
    ensures Dispatch(req.model) == Groq ==>
      var c := p.groq(CompletionRequest(req.model, req.messages, GroqSampling));
      (r.Ok? <==> c.Ok?) && (r.Ok? ==> r.value == FirstChoiceReply(c.value))
    ensures r.Ok? && Dispatch(req.model) != Gemini ==> r.value != ""
  {
    match Dispatch(req.model)
    case Gemini =>
      p.gemini(GeminiRequest(req.model.value, FlattenPrompt(req.messages)))
    case OpenAI =>
      (match p.openAI(CompletionRequest(req.model, req.messages, OpenAISampling))
       case Ok(c) => Ok(FirstChoiceReply(c))
       case Fail => Fail)
    case HuggingFace =>
      (match p.huggingFace(CompletionRequest(Some(CoderModelId), req.messages, CoderSampling))
       case Ok(chunks) => Ok(OrPlaceholder(Drain(chunks)))
       case Fail => Fail)
    case Groq =>
      match p.groq(CompletionRequest(req.model, req.messages, GroqSampling))
      case Ok(c) => Ok(FirstChoiceReply(c))
      case Fail => Fail
  }

  /** The 500 message of `/api/chat`. */
  function UnreachableMessage(model: Option<string>): (msg: string)
    ensures Contains(msg, TemplateText(model))
  {
    var m := TemplateText(model);
    var msg := "Model " + m + " is currently unreachable. Please try a different model.";
    assert OccursAt(m, msg, 6) by { assert msg[6..6 + |m|] == m; }
    msg
  }

  /** `POST /api/chat` */
  function HandleChat(req: ChatRequest, p: Providers): (r: HttpReply)
    ensures r.status == 200 || r.status == 500
    ensures r.status == 200 <==> Adapt(req, p).Ok?
    ensures r.status == 200 ==> r.body == ResponseBody(Adapt(req, p).value)
    ensures r.status == 500 ==> r.body.ErrorBody? && Contains(r.body.error, TemplateText(req.model))
  {
    match Adapt(req, p)
    case Ok(text) => HttpReply(200, ResponseBody(text))
    case Fail => HttpReply(500, ErrorBody(UnreachableMessage(req.model)))
  }

  /** Two sets of providers that answer alike on the selected one. */
  ghost predicate AgreeOn(provider: Provider, p: Providers, q: Providers) {
    match provider
    case Gemini => forall g :: p.gemini(g) == q.gemini(g)
    case OpenAI => forall c :: p.openAI(c) == q.openAI(c)
    case HuggingFace => forall c :: p.huggingFace(c) == q.huggingFace(c)
    case Groq => forall c :: p.groq(c) == q.groq(c)
  }

  /** Exactly one provider is consulted per request: the reply does not
      depend on how any provider other than the selected one behaves. */
  lemma OnlySelectedProviderConsulted(req: ChatRequest, p: Providers, q: Providers)
    requires AgreeOn(Dispatch(req.model), p, q)
    ensures HandleChat(req, p) == HandleChat(req, q)
  {
  }

  /** Only the Gemini branch can send an empty reply: it has no placeholder. */
  lemma EmptyReplyOnlyFromGemini(req: ChatRequest, p: Providers)
    requires HandleChat(req, p) == HttpReply(200, ResponseBody(""))
    ensures Dispatch(req.model) == Gemini
  {
  }

  const ImageErrorText :=
    "Image-based model is currently unreachable. Please try again later or use a different model."

  /** `POST /api/chat/v3`: one vision request, first choice or placeholder. */
  function HandleImageChat(prompt: string, imageUrl: string, p: Providers): (r: HttpReply)
    ensures r.status == 200 || r.status == 500
    ensures r.status == 500 <==> p.groqVision(VisionRequest(VisionModel, prompt, imageUrl, VisionSampling)).Fail?
    ensures r.status == 500 ==> r.body == ErrorBody(ImageErrorText)
    ensures r.status == 200 ==> r.body.ResponseBody? && r.body.response != ""
    ensures r.status == 200 ==>
      r.body == ResponseBody(FirstChoiceReply(p.groqVision(VisionRequest(VisionModel, prompt, imageUrl, VisionSampling)).value))
  {
    match p.groqVision(VisionRequest(VisionModel, prompt, imageUrl, VisionSampling))
    case Ok(c) => HttpReply(200, ResponseBody(FirstChoiceReply(c)))
    case Fail => HttpReply(500, ErrorBody(ImageErrorText))
  }
}
