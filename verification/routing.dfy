/**
  Provider selection of the `/api/chat` handler (backend/index.js): an ordered,
  first-match rule over the model name. A `gemini` prefix wins first, then a
  `gpt` prefix, then the one exact coder-model name; everything else, an
  absent or empty model included, goes to the default (Groq) provider.
 */
module Routing {
  import opened JsText

  const GeminiPrefix := "gemini"
  const OpenAIPrefix := "gpt"
  const CoderModel := "Qwen2.5-Coder-32B-Instruct"

  datatype Provider = Gemini | OpenAI | HuggingFace | Groq

  /** JavaScript truthiness of the `model` field: present and not empty. */
  predicate Truthy(model: Option<string>) {
    model.Some? && model.value != ""
  }

  /** `model && model.startsWith(prefix)` */
  predicate HasPrefix(model: Option<string>, prefix: string) {
    Truthy(model) && StartsWith(model.value, prefix)
  }

  /** The if/else-if chain of the handler. Each provider is characterised by
      what the model name must look like for the chain to reach it. */
  function Dispatch(model: Option<string>): (p: Provider)
    ensures p == Gemini <==> model.Some? && StartsWith(model.value, GeminiPrefix)
    ensures p == OpenAI <==>
      model.Some? && !StartsWith(model.value, GeminiPrefix) && StartsWith(model.value, OpenAIPrefix)
    ensures p == HuggingFace <==> model == Some(CoderModel)
    ensures p == Groq <==>
      || model.None?
      || (&& !StartsWith(model.value, GeminiPrefix)
          && !StartsWith(model.value, OpenAIPrefix)
          && model.value != CoderModel)
  {
    assert CoderModel[0] == 'Q';
    if HasPrefix(model, GeminiPrefix) then Gemini
    else if HasPrefix(model, OpenAIPrefix) then OpenAI
    else if model == Some(CoderModel) then HuggingFace
    else Groq
  }

  /** The same policy written as data: an ordered rule table and a default. */
  datatype Rule = PrefixRule(prefix: string, target: Provider) | ExactRule(name: string, target: Provider)

  const RoutingTable: seq<Rule> :=
    [PrefixRule(GeminiPrefix, Gemini), PrefixRule(OpenAIPrefix, OpenAI), ExactRule(CoderModel, HuggingFace)]

  const DefaultProvider := Groq

  predicate RuleMatches(rule: Rule, model: string) {
    match rule
    case PrefixRule(prefix, _) => StartsWith(model, prefix)
    case ExactRule(name, _) => model == name
  }

  /** Target of the first rule that matches, if any. */
  function FirstMatch(rules: seq<Rule>, model: string): (r: Option<Provider>)
    ensures r.None? <==> forall i | 0 <= i < |rules| :: !RuleMatches(rules[i], model)
    ensures r.Some? ==> exists i | 0 <= i < |rules| :: RuleMatches(rules[i], model) && rules[i].target == r.value
    decreases |rules|
  {
    if |rules| == 0 then None
    else if RuleMatches(rules[0], model) then Some(rules[0].target)
    else
      var r := FirstMatch(rules[1..], model);
      assert forall i | 1 <= i < |rules| :: rules[i] == rules[1..][i - 1];
      r
  }

  function RouteByTable(model: Option<string>): Provider {
    match model
    case None => DefaultProvider
    case Some(m) =>
      match FirstMatch(RoutingTable, m)
      case None => DefaultProvider
      case Some(p) => p
  }

  /** The handler's chain and the rule table select the same provider for
      every model name, absent and empty ones included. */
  lemma DispatchFollowsRoutingTable(model: Option<string>)
    ensures Dispatch(model) == RouteByTable(model)
  {
    if model.Some? {
      var m := model.value;
      var rest := RoutingTable[1..];
      var last := rest[1..];
      assert rest == [PrefixRule(OpenAIPrefix, OpenAI), ExactRule(CoderModel, HuggingFace)];
      assert last == [ExactRule(CoderModel, HuggingFace)];
      assert FirstMatch(last, m) == if m == CoderModel then Some(HuggingFace) else FirstMatch(last[1..], m);
      assert FirstMatch(rest, m) == if StartsWith(m, OpenAIPrefix) then Some(OpenAI) else FirstMatch(last, m);
      assert FirstMatch(RoutingTable, m) == if StartsWith(m, GeminiPrefix) then Some(Gemini) else FirstMatch(rest, m);
    }
  }
}
