/** The built-in provider templates (extension/lib/llm/models.ts): one entry
    per provider type the settings page can pre-fill, and the lookup by type
    string. */
module Models {
  import opened Wrappers
  import opened LlmTypes

  datatype ModelInfo = ModelInfo(id: string, name: string, contextWindow: nat)

  datatype Template = Template(
    ptype: ProviderType,
    name: string,
    defaultBaseUrl: Option<string>,
    apiKeyUrl: Option<string>,
    apiKeyPlaceholder: Option<string>,
    defaultModelId: string,
    models: seq<ModelInfo>)

  const ProviderTemplates: seq<Template> := [
    Template(OpenAI, "OpenAI", Some("https://api.openai.com/v1"),
      Some("https://platform.openai.com/api-keys"), Some("sk-..."), "gpt-4o",
      [ ModelInfo("gpt-4o", "GPT-4o", 128000),
        ModelInfo("gpt-4o-mini", "GPT-4o Mini", 128000),
        ModelInfo("o1", "o1", 200000),
        ModelInfo("o3-mini", "o3-mini", 200000) ]),
    Template(Anthropic, "Anthropic", Some("https://api.anthropic.com"),
      Some("https://console.anthropic.com/settings/keys"), Some("sk-ant-..."), "claude-sonnet-4-20250514",
      [ ModelInfo("claude-sonnet-4-20250514", "Claude 4 Sonnet", 200000),
        ModelInfo("claude-opus-4-20250514", "Claude 4 Opus", 200000) ]),
    Template(Google, "Google", Some("https://generativelanguage.googleapis.com/v1beta"),
      Some("https://aistudio.google.com/apikey"), Some("AI..."), "gemini-2.0-flash",
      [ ModelInfo("gemini-2.0-flash", "Gemini 2.0 Flash", 1048576),
        ModelInfo("gemini-2.5-pro", "Gemini 2.5 Pro", 1048576) ]),
    Template(OpenRouter, "OpenRouter", Some("https://openrouter.ai/api/v1"),
      Some("https://openrouter.ai/keys"), Some("sk-or-..."), "anthropic/claude-sonnet-4",
      [ ModelInfo("anthropic/claude-sonnet-4", "Claude 4 Sonnet", 200000),
        ModelInfo("openai/gpt-4o", "GPT-4o", 128000),
        ModelInfo("google/gemini-2.0-flash-001", "Gemini 2.0 Flash", 1048576),
        ModelInfo("meta-llama/llama-3.3-70b-instruct", "Llama 3.3 70B", 131072) ]),
    Template(OpenAICompatible, "OpenAI Compatible", Some("http://localhost:11434/v1"),
      None, Some("API key (optional)"), "",
      [])
  ]

  /** `Array.prototype.find` on the type string: the first template whose
      type name equals `t`. */
  function Find(ts: seq<Template>, t: string): (r: Option<Template>)
    ensures r.None? <==> forall i :: 0 <= i < |ts| ==> TypeName(ts[i].ptype) != t
    ensures r.Some? ==> exists i :: 0 <= i < |ts| && ts[i] == r.value
                               && forall j :: 0 <= j < i ==> TypeName(ts[j].ptype) != t
    ensures r.Some? ==> TypeName(r.value.ptype) == t
  {
    if ts == [] then None
    else if TypeName(ts[0].ptype) == t then Some(ts[0])
    else
      var rest := Find(ts[1..], t);
      assert forall i :: 1 <= i < |ts| ==> ts[i] == ts[1..][i - 1];
      rest
  }

  function GetTemplateByType(t: string): (r: Option<Template>)
    ensures r.Some? ==> r.value in ProviderTemplates && TypeName(r.value.ptype) == t
    ensures r.None? <==> forall i :: 0 <= i < |ProviderTemplates| ==> TypeName(ProviderTemplates[i].ptype) != t
  {
    Find(ProviderTemplates, t)
  }

  function ModelIds(ms: seq<ModelInfo>): (r: seq<string>)
    ensures |r| == |ms| && forall i :: 0 <= i < |ms| ==> r[i] == ms[i].id
  {
    seq(|ms|, i requires 0 <= i < |ms| => ms[i].id)
  }

  /** No two templates share a type, so the lookup is unambiguous. */
  lemma TypesDistinct()
    ensures forall i, j :: 0 <= i < j < |ProviderTemplates| ==> ProviderTemplates[i].ptype != ProviderTemplates[j].ptype
  {
  }

  /** The types of the templates, in order. */
  lemma TemplateTypes()
    ensures |ProviderTemplates| == 5
    ensures ProviderTemplates[0].ptype == OpenAI && ProviderTemplates[1].ptype == Anthropic
    ensures ProviderTemplates[2].ptype == Google && ProviderTemplates[3].ptype == OpenRouter
    ensures ProviderTemplates[4].ptype == OpenAICompatible
  {
  }

  /** The five types without a template find nothing. */
  lemma TemplateMissing(t: ProviderType)
    requires t in {DeepSeek, Qwen, Kimi, Glm, MiniMax}
    ensures GetTemplateByType(TypeName(t)).None?
  {
    TemplateTypes();
    forall i | 0 <= i < |ProviderTemplates|
      ensures TypeName(ProviderTemplates[i].ptype) != TypeName(t)
    {
      var u := ProviderTemplates[i].ptype;
      assert u in {OpenAI, Anthropic, Google, OpenRouter, OpenAICompatible} by {
        assert i == 0 || i == 1 || i == 2 || i == 3 || i == 4;
      }
      TypeNamesDiffer(u, t);
    }
  }

  lemma TypeNamesDiffer(a: ProviderType, b: ProviderType)
    requires a != b
    ensures TypeName(a) != TypeName(b)
  {
    TypeNameInjective();
  }

  /** Every other type finds its own template. */
  lemma TemplatePresent(t: ProviderType)
    requires t !in {DeepSeek, Qwen, Kimi, Glm, MiniMax}
    ensures GetTemplateByType(TypeName(t)).Some?
    ensures GetTemplateByType(TypeName(t)).value.ptype == t
  {
    TemplateTypes();
    TypeNameInjective();
    var i := if t == OpenAI then 0 else if t == Anthropic then 1 else if t == Google then 2
             else if t == OpenRouter then 3 else 4;
    assert ProviderTemplates[i].ptype == t;
  }

  /** A template that lists models also lists its default model. */
  lemma DefaultModelListed()
    ensures forall i :: 0 <= i < |ProviderTemplates| && ProviderTemplates[i].models != [] ==>
              ProviderTemplates[i].defaultModelId in ModelIds(ProviderTemplates[i].models)
  {
    forall i | 0 <= i < |ProviderTemplates| && ProviderTemplates[i].models != []
      ensures ProviderTemplates[i].defaultModelId in ModelIds(ProviderTemplates[i].models)
    {
      assert ProviderTemplates[i].defaultModelId == ModelIds(ProviderTemplates[i].models)[0];
    }
  }

  /** The OpenAI-compatible template leaves the model to the user. */
  lemma CompatibleTemplateEmpty()
    ensures GetTemplateByType("openai-compatible").Some?
    ensures GetTemplateByType("openai-compatible").value.models == []
    ensures GetTemplateByType("openai-compatible").value.defaultModelId == ""
  {
    assert TypeName(ProviderTemplates[4].ptype) == "openai-compatible";
    TypeNameInjective();
  }
}
