/** The provider and model tables that the chat routes and the model selector share. */
module Models {

  datatype ProviderId = OpenAIProvider | TogetherProvider

  datatype ProviderOption = ProviderOption(id: ProviderId, name: string)

  datatype ModelOption = ModelOption(name: string, value: string, provider: ProviderId)

  const Providers: seq<ProviderOption> := [
    ProviderOption(OpenAIProvider, "OpenAI"),
    ProviderOption(TogetherProvider, "Together.ai")
  ]

  const ModelOptions: seq<ModelOption> := [
    ModelOption("GPT-4o Mini", "gpt-4o-mini", OpenAIProvider),
    ModelOption("GPT-3.5 Turbo", "gpt-3.5-turbo", OpenAIProvider),
    ModelOption("Llama 3.3 70B Turbo", "meta-llama/Llama-3.3-70B-Instruct-Turbo", TogetherProvider),
    ModelOption("Llama 3.1 8B Instruct Turbo", "meta-llama/Meta-Llama-3.1-8B-Instruct-Turbo", TogetherProvider),
    ModelOption("Qwen3 235B A22B FP8 Throughput", "Qwen/Qwen3-235B-A22B-fp8-tput", TogetherProvider),
    ModelOption("Qwen 2.5 72B Instruct Turbo", "Qwen/Qwen2.5-72B-Instruct-Turbo", TogetherProvider),
    ModelOption("DeepSeek R1", "deepseek-ai/DeepSeek-R1", TogetherProvider),
    ModelOption("DeepSeek V3", "deepseek-ai/DeepSeek-V3", TogetherProvider),
    ModelOption("Perplexity AI R1-1776", "perplexity-ai/r1-1776", TogetherProvider),
    ModelOption("Magistral Small 2506", "mistralai/Magistral-Small-2506", TogetherProvider),
    ModelOption("Marin 8B Instruct", "marin-community/marin-8b-instruct", TogetherProvider),
    ModelOption("Mistral Small 3 Instruct (24B)", "mistralai/Mistral-Small-24B-Instruct-2501", TogetherProvider),
    ModelOption("Llama 3.1 Nemotron 70B (NVIDIA)", "nvidia/Llama-3.1-Nemotron-70B-Instruct-HF", TogetherProvider),
    ModelOption("Arcee AI Virtuoso Medium", "arcee-ai/virtuoso-medium-v2", TogetherProvider),
    ModelOption("Arcee AI Maestro", "arcee-ai/maestro-reasoning", TogetherProvider),
    ModelOption("Arcee AI Blitz", "arcee-ai/arcee-blitz", TogetherProvider),
    ModelOption("Llama 3.1 405B Instruct Turbo", "meta-llama/Meta-Llama-3.1-405B-Instruct-Turbo", TogetherProvider),
    ModelOption("Llama 3.2 3B Instruct Turbo", "meta-llama/Llama-3.2-3B-Instruct-Turbo", TogetherProvider),
    ModelOption("Llama 3 8B Instruct Lite", "meta-llama/Meta-Llama-3-8B-Instruct-Lite", TogetherProvider),
    ModelOption("Llama 3 8B Instruct Reference", "meta-llama/Llama-3-8b-chat-hf", TogetherProvider),
    ModelOption("Llama 3 70B Instruct Reference", "meta-llama/Llama-3-70b-chat-hf", TogetherProvider),
    ModelOption("Gemma 2 27B", "google/gemma-2-27b-it", TogetherProvider),
    ModelOption("Mistral 7B Instruct v0.3", "mistralai/Mistral-7B-Instruct-v0.3", TogetherProvider),
    ModelOption("Nous Hermes 2 - Mixtral 8x7B-DPO", "NousResearch/Nous-Hermes-2-Mixtral-8x7B-DPO", TogetherProvider)
  ]

  /** No two model entries share a value, so looking a model up by its value is unambiguous. */
  lemma ModelValuesDistinct()
    ensures forall i, j :: 0 <= i < j < |ModelOptions| ==> ModelOptions[i].value != ModelOptions[j].value
  {
  }

  /** Some entry of `Providers` has id `p`. */
  predicate ProviderListed(p: ProviderId) {
    exists j | 0 <= j < |Providers| :: Providers[j].id == p
  }

  /** Every model's provider is listed in `Providers`. */
  lemma ModelProvidersListed()
    ensures forall i :: 0 <= i < |ModelOptions| ==> ProviderListed(ModelOptions[i].provider)
  {
    assert Providers[0].id == OpenAIProvider && Providers[1].id == TogetherProvider;
    assert ProviderListed(OpenAIProvider) && ProviderListed(TogetherProvider);
  }

  /** The first entry, which the chat page selects by default, is GPT-4o Mini on OpenAI. */
  lemma DefaultModelFirst()
    ensures ModelOptions[0].value == "gpt-4o-mini" && ModelOptions[0].provider == OpenAIProvider
  {
  }

  /** Exactly the first two entries are OpenAI models; all the others run on Together. */
  lemma OpenAIModelsFirstTwo()
    ensures forall i :: 0 <= i < |ModelOptions| ==> (ModelOptions[i].provider == OpenAIProvider <==> i < 2)
  {
  }
}
