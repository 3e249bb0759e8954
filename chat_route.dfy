/** The chat endpoint: validates the request body, resolves the provider of the selected
    model through the model and provider tables, and answers with the chosen adapter's
    reply. An unknown or missing model is served by OpenAI. */
module ChatRoute {
  import opened Common
  import opened Models
  import OpenAIService
  import TogetherService

  /** The parsed request body: `message`, `conversationHistory` (defaulting to `[]`) and
      `model` (absent when not given). */
  datatype Body = Body(message: Field, history: seq<ChatMessage>, model: Option<string>)

  datatype Response = Json(response: string) | JsonError(status: int, error: string)

  /** The message passes the check `!message || typeof message !== "string"`. */
  predicate ValidMessage(message: Field) {
    message.Str? && message.s != ""
  }

  /** The index of the first entry of `opts` from `i` on whose value is `model`
      (`MODEL_OPTIONS.find((m) => m.value === model)`). */
  function FindModelFrom(opts: seq<ModelOption>, model: Option<string>, i: nat): (r: Option<nat>)
    requires i <= |opts|
    ensures r.Some? ==> i <= r.value < |opts| && model == Some(opts[r.value].value)
                        && forall j :: i <= j < r.value ==> model != Some(opts[j].value)
    ensures r.None? ==> forall j :: i <= j < |opts| ==> model != Some(opts[j].value)
    decreases |opts| - i
  {
    if i == |opts| then None
    else if model == Some(opts[i].value) then Some(i)
    else FindModelFrom(opts, model, i + 1)
  }

  function FindModel(model: Option<string>): (r: Option<ModelOption>)
    ensures r.Some? ==> r.value in ModelOptions && model == Some(r.value.value)
    ensures r.None? <==> forall j :: 0 <= j < |ModelOptions| ==> model != Some(ModelOptions[j].value)
  {
    var k := FindModelFrom(ModelOptions, model, 0);
    if k.Some? then Some(ModelOptions[k.value]) else None
  }

  /** `PROVIDERS.find((p) => p.id === modelOption?.provider)`: no model, no provider. */
  function FindProviderFrom(id: Option<ProviderId>, i: nat): (r: Option<ProviderOption>)
    requires i <= |Providers|
    ensures r.Some? ==> r.value in Providers[i..] && id == Some(r.value.id)
    ensures r.None? ==> forall j :: i <= j < |Providers| ==> id != Some(Providers[j].id)
    decreases |Providers| - i
  {
    if i == |Providers| then None
    else if id == Some(Providers[i].id) then Some(Providers[i])
    else FindProviderFrom(id, i + 1)
  }

  function FindProvider(id: Option<ProviderId>): (r: Option<ProviderOption>)
    ensures r.Some? ==> r.value in Providers && id == Some(r.value.id)
    ensures id.Some? ==> r.Some?
  {
    var r := FindProviderFrom(id, 0);
    assert |Providers| == 2 && Providers[0].id == OpenAIProvider && Providers[1].id == TogetherProvider;
    assert id.Some? ==> match id.value
                          case OpenAIProvider => id == Some(Providers[0].id)
                          case TogetherProvider => id == Some(Providers[1].id);
    r
  }

  /** The provider for a model id, resolved in two steps. */
  function ResolveProvider(model: Option<string>): Option<ProviderOption> {
    var m := FindModel(model);
    FindProvider(if m.Some? then Some(m.value.provider) else None)
  }

  /** Together serves a request exactly when the model is a Together entry of the table. */
  predicate UsesTogether(model: Option<string>) {
    var p := ResolveProvider(model);
    p.Some? && p.value.id == TogetherProvider
  }

  /** The routing rule: Together is chosen exactly for the table's Together models; every other
      model id, an unknown one or none at all, goes to OpenAI. */
  lemma UsesTogetherIff(model: Option<string>)
    ensures UsesTogether(model) <==>
            exists j :: 0 <= j < |ModelOptions| && model == Some(ModelOptions[j].value)
                        && ModelOptions[j].provider == TogetherProvider
  {
    var m := FindModel(model);
    if m.Some? {
      var k := FindModelFrom(ModelOptions, model, 0).value;
      forall j | 0 <= j < |ModelOptions| && model == Some(ModelOptions[j].value)
        ensures ModelOptions[j] == m.value
      {
        OnlyMatch(model, j, k);
      }
    }
  }

  /** Since the values are distinct, the first match is the only one. */
  lemma OnlyMatch(model: Option<string>, j: nat, k: nat)
    requires j < |ModelOptions| && k < |ModelOptions|
    requires model == Some(ModelOptions[j].value) && model == Some(ModelOptions[k].value)
    ensures j == k
  {
    ModelValuesDistinct();
  }

  /** A model id that is not in the table falls back to OpenAI without an error. */
  lemma UnknownModelUsesOpenAI(model: Option<string>)
    requires forall j :: 0 <= j < |ModelOptions| ==> model != Some(ModelOptions[j].value)
    ensures !UsesTogether(model)
  {
  }

  /** `POST /api/chat`. `body` is `None` when the body is not JSON. The adapters' model calls
      are given by their outcomes; `routed` says which adapter was called. */
  method Post(body: Option<Body>, openAIEnv: OpenAIService.Env, togetherEnvModel: Option<string>,
              openAIOutcome: OpenAIService.Outcome, togetherOutcome: TogetherService.Outcome)
    returns (resp: Response, routed: Option<ProviderId>)
    ensures body.None? ==> resp == JsonError(500, "Internal server error") && routed.None?
    ensures body.Some? && !ValidMessage(body.value.message)
            ==> resp == JsonError(400, "Message is required and must be a string") && routed.None?
    ensures body.Some? && ValidMessage(body.value.message) && UsesTogether(body.value.model)
            ==> routed == Some(TogetherProvider) && resp == Json(TogetherService.ReplyFor(togetherOutcome))
    ensures body.Some? && ValidMessage(body.value.message) && !UsesTogether(body.value.model)
            ==> routed == Some(OpenAIProvider) && resp == Json(OpenAIService.ReplyFor(openAIEnv, openAIOutcome))
  {
    if body.None? {
      return JsonError(500, "Internal server error"), None;
    }
    var b := body.value;
    if !ValidMessage(b.message) {
      return JsonError(400, "Message is required and must be a string"), None;
    }
    var provider := ResolveProvider(b.model);
    var response;
    if provider.Some? && provider.value.id == TogetherProvider {
      var _, r := TogetherService.GetTogetherResponse(b.message.s, b.history, b.model, togetherEnvModel, togetherOutcome);
      response, routed := r, Some(TogetherProvider);
    } else {
      var _, r := OpenAIService.GetOpenAIResponse(b.message.s, b.history, b.model, openAIEnv, openAIOutcome);
      response, routed := r, Some(OpenAIProvider);
    }
    resp := Json(response);
  }
}
