/** Agent (app/models/agent.rb): an LLM persona and the validations that decide
    which agents may exist. */
module Agents {
  import opened RubyString
  import opened Validation
  import Seqs

  const LLM_PROVIDERS: seq<string> := ["openai", "anthropic", "custom"]
  const OPENAI_MODELS: seq<string> := ["gpt-4-turbo", "gpt-4", "gpt-3.5-turbo"]
  const ANTHROPIC_MODELS: seq<string> :=
    ["claude-3-opus-20240229", "claude-3-sonnet-20240229", "claude-3-haiku-20240307"]

  /** `temperature` is a float column; only its range is checked, so it is a real here. */
  datatype Agent = Agent(
    id: int,
    name: string,
    llmProvider: string,
    llmModel: string,
    systemPrompt: string,
    temperature: real,
    maxTokens: int,
    active: bool)

  /** `validate_model_for_provider`: an allow-list for openai and anthropic,
      no check for any other provider. */
  function ModelForProviderErrors(provider: string, model: string): (r: seq<FieldError>)
    ensures provider == "openai" ==> (r == [] <==> model in OPENAI_MODELS)
    ensures provider == "anthropic" ==> (r == [] <==> model in ANTHROPIC_MODELS)
    ensures provider != "openai" && provider != "anthropic" ==> r == []
  {
    if provider == "openai" then
      if model in OPENAI_MODELS then [] else [FieldError("llm_model", Custom("must be a valid OpenAI model"))]
    else if provider == "anthropic" then
      if model in ANTHROPIC_MODELS then [] else [FieldError("llm_model", Custom("must be a valid Anthropic model"))]
    else []
  }

  /** The field validations followed by `validate_model_for_provider`. */
  function Errors(a: Agent): (r: seq<FieldError>)
    ensures r == [] <==>
      && IsPresent(a.name) && 2 <= |a.name| <= 100
      && a.llmProvider in LLM_PROVIDERS
      && IsPresent(a.llmModel)
      && IsPresent(a.systemPrompt) && |a.systemPrompt| >= 10
      && 0.0 <= a.temperature <= 2.0
      && 0 < a.maxTokens <= 100000
      && (a.llmProvider == "openai" ==> a.llmModel in OPENAI_MODELS)
      && (a.llmProvider == "anthropic" ==> a.llmModel in ANTHROPIC_MODELS)
  {
    Presence("name", a.name) + LengthBetween("name", a.name, 2, 100)
      + InclusionIn("llm_provider", a.llmProvider, LLM_PROVIDERS)
      + Presence("llm_model", a.llmModel)
      + Presence("system_prompt", a.systemPrompt) + MinimumLength("system_prompt", a.systemPrompt, 10)
      + (if a.temperature >= 0.0 then [] else [FieldError("temperature", GreaterThanOrEqualTo(0.0))])
      + (if a.temperature <= 2.0 then [] else [FieldError("temperature", LessThanOrEqualTo(2.0))])
      + (if a.maxTokens > 0 then [] else [FieldError("max_tokens", GreaterThan(0.0))])
      + (if a.maxTokens <= 100000 then [] else [FieldError("max_tokens", LessThanOrEqualTo(100000.0))])
      + ModelForProviderErrors(a.llmProvider, a.llmModel)
  }

  predicate Valid(a: Agent) {
    Errors(a) == []
  }

  /** A custom agent has no allow-list: swapping its model for any other
      non-blank one keeps it valid. */
  lemma CustomAgentAcceptsAnyModel(a: Agent, model: string)
    requires a.llmProvider == "custom" && Valid(a)
    requires IsPresent(model)
    ensures Valid(a.(llmModel := model))
  {
  }


  /** The `active` scope. */
  function ActiveAgents(agents: seq<Agent>): (r: seq<Agent>)
    ensures forall i :: 0 <= i < |r| ==> r[i] in agents && r[i].active
    ensures forall a :: a in agents && a.active ==> a in r
    ensures forall a :: multiset(r)[a] == (if a.active then multiset(agents)[a] else 0)
  {
    Seqs.Filter(agents, (a: Agent) => a.active)
  }
}
