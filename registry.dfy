/**
  The model registry: the fixed, ordered list of chat models the gateway
  serves, each tagged with the provider that hosts it, and the lookup of a
  model by its identifier.
 */
module Registry {
  import opened Js

  datatype ModelDescriptor = ModelDescriptor(id: string, name: string, provider: string, description: string)

  /** The registry, in the order the `models` query lists it. */
  const AiModels: seq<ModelDescriptor> := [
    ModelDescriptor("gpt-3.5-turbo", "GPT-3.5 Turbo", "openai", "OpenAI的快速响应模型"),
    ModelDescriptor("gpt-4", "GPT-4", "openai", "OpenAI的最强模型"),
    ModelDescriptor("deepseek-chat", "DeepSeek Chat", "deepseek", "DeepSeek的对话模型"),
    ModelDescriptor("deepseek-coder", "DeepSeek Coder", "deepseek", "DeepSeek的代码生成模型")
  ]

  /** The `models` query: the whole registry, four entries with distinct ids, each hosted by a known provider. */
  function Models(): (r: seq<ModelDescriptor>)
    ensures |r| == 4
    ensures forall i | 0 <= i < |r| :: r[i].provider == "openai" || r[i].provider == "deepseek"
    ensures forall i, j | 0 <= i < j < |r| :: r[i].id != r[j].id
    ensures r[0].id == "gpt-3.5-turbo" && r[1].id == "gpt-4" && r[2].id == "deepseek-chat" && r[3].id == "deepseek-coder"
  {
    AiModels
  }

  /**
    `models.find(m => m.id === id)`: the first entry whose id equals `id`
    exactly (case-sensitive), or nothing when no entry has that id.
   */
  function Find(models: seq<ModelDescriptor>, id: string): (r: Option<ModelDescriptor>)
    ensures r.None? <==> forall i | 0 <= i < |models| :: models[i].id != id
    ensures r.Some? ==> r.value.id == id
    ensures r.Some? ==> exists i | 0 <= i < |models| :: models[i] == r.value && forall j | 0 <= j < i :: models[j].id != id
  {
    if |models| == 0 then None
    else if models[0].id == id then Some(models[0])
    else Find(models[1..], id)
  }

  /** Looking a model up in the registry: an entry with exactly that id, or nothing when none has it. */
  function Lookup(id: string): (r: Option<ModelDescriptor>)
    ensures r.Some? ==> r.value in AiModels && r.value.id == id
    ensures r.None? <==> forall m | m in AiModels :: m.id != id
  {
    Find(AiModels, id)
  }

  /** Exactly the four registered ids are found; every other string, whatever its case, is not. */
  lemma LookupFinds(id: string)
    ensures Lookup(id).Some? <==> id in {"gpt-3.5-turbo", "gpt-4", "deepseek-chat", "deepseek-coder"}
    ensures Lookup(id).Some? ==> Lookup(id).value in AiModels && Lookup(id).value.id == id
  {
    var m := Models();
  }

  /** The provider tag of every model the lookup can return is `openai` or `deepseek`. */
  lemma LookupProvider(id: string)
    requires Lookup(id).Some?
    ensures Lookup(id).value.provider == (if id in {"gpt-3.5-turbo", "gpt-4"} then "openai" else "deepseek")
  {
    LookupFinds(id);
  }

  /** Lookup is case-sensitive: upper-casing a registered id finds nothing. */
  lemma LookupCaseSensitive()
    ensures Lookup("GPT-4").None? && Lookup("DeepSeek-Chat").None?
  {
    LookupFinds("GPT-4");
    LookupFinds("DeepSeek-Chat");
  }
}
