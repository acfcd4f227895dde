/** The generation orchestrator (novel_generator.py): a two-state machine
    (no model, a model selected) that picks an adapter by name, falls back
    to a stored custom profile, and guards every generation call. */
module NovelGenerator {
  import opened Wrappers
  import opened Text
  import opened Json
  import Dicts
  import Config
  import AIModel
  import GptModel
  import ClaudeModel
  import CustomOpenAIModel
  import OllamaModel
  import SiliconFlowModel
  import ChapterGenerator

  /** A selected adapter. The Gemini and ModelScope adapters wrap vendor
      SDKs and are not part of this model; only whether they are selected
      is. */
  datatype Model =
    | Gpt(gpt: GptModel.GPTModel)
    | Claude(claude: ClaudeModel.ClaudeModel)
    | Gemini
    | CustomOpenAI(custom: CustomOpenAIModel.CustomOpenAIModel)
    | ModelScope
    | Ollama(ollama: OllamaModel.OllamaModel)
    | SiliconFlow(siliconflow: SiliconFlowModel.SiliconFlowModel)

  /** The names `select_model` recognises, in lower case. */
  const BuiltIns: set<string> := {"gpt", "claude", "gemini", "custom_openai", "modelscope", "ollama", "siliconflow"}

  /** The outcome of `select_model`: an adapter, the ValueError for an
      unknown name without a stored profile, or an exception from an
      adapter's constructor or the profile lookup. */
  datatype Selection = Selected(model: Model) | Unsupported | Crashed

  /** `d.update(kw)`: each pair in order, as `d[k] = v`. */
  function Update(d: AIModel.InstanceConfig, kw: AIModel.InstanceConfig): (r: AIModel.InstanceConfig)
    decreases |kw|
  {
    if kw == [] then d else Update(Dicts.Put(d, kw[0].0, kw[0].1), kw[1..])
  }

  /** After an update, a key the update names has the update's value; any
      other key keeps its old value. */
  lemma {:induction false} UpdateGet(d: AIModel.InstanceConfig, kw: AIModel.InstanceConfig, k: string)
    requires Dicts.DistinctKeys(kw)
    ensures Dicts.HasKey(kw, k) ==> Dicts.Get(Update(d, kw), k) == Dicts.Get(kw, k)
    ensures !Dicts.HasKey(kw, k) ==> Dicts.Get(Update(d, kw), k) == Dicts.Get(d, k)
    decreases |kw|
  {
    if kw != [] {
      var d' := Dicts.Put(d, kw[0].0, kw[0].1);
      assert Dicts.Keys(kw) == [kw[0].0] + Dicts.Keys(kw[1..]);
      UpdateGet(d', kw[1..], k);
      if k != kw[0].0 {
        Dicts.PutOther(d, kw[0].0, kw[0].1, k);
      }
    }
  }

  /** The instance config `select_model` builds: `api_key` and `base_url`
      only when truthy, then the extra keyword arguments. */
  function InstanceConfig(apiKey: Json, baseUrl: Json, kwargs: AIModel.InstanceConfig): AIModel.InstanceConfig {
    Update(Explicit(apiKey, baseUrl), kwargs)
  }

  /** Python keyword arguments never repeat a key, and never bind a name
      `select_model` declares itself. */
  predicate ValidKwargs(kwargs: AIModel.InstanceConfig) {
    Dicts.DistinctKeys(kwargs) &&
    !Dicts.HasKey(kwargs, "api_key") && !Dicts.HasKey(kwargs, "base_url") && !Dicts.HasKey(kwargs, "model_name")
  }

  /** The config before the keyword arguments. */
  function Explicit(apiKey: Json, baseUrl: Json): (r: AIModel.InstanceConfig)
    ensures Dicts.Get(r, "api_key") == if Truthy(apiKey) then Some(apiKey) else None
    ensures Dicts.Get(r, "base_url") == if Truthy(baseUrl) then Some(baseUrl) else None
  {
    var withKey: AIModel.InstanceConfig := if Truthy(apiKey) then [("api_key", apiKey)] else [];
    if Truthy(baseUrl) then withKey + [("base_url", baseUrl)] else withKey
  }

  /** `api_key` and `base_url` enter the config only when truthy. */
  lemma InstanceConfigExplicit(apiKey: Json, baseUrl: Json, kwargs: AIModel.InstanceConfig)
    requires ValidKwargs(kwargs)
    ensures var config := InstanceConfig(apiKey, baseUrl, kwargs);
      (AIModel.Has(config, "api_key") <==> Truthy(apiKey)) &&
      (Truthy(apiKey) ==> AIModel.Lookup(config, "api_key") == apiKey) &&
      (AIModel.Has(config, "base_url") <==> Truthy(baseUrl)) &&
      (Truthy(baseUrl) ==> AIModel.Lookup(config, "base_url") == baseUrl)
  {
    UpdateGet(Explicit(apiKey, baseUrl), kwargs, "api_key");
    UpdateGet(Explicit(apiKey, baseUrl), kwargs, "base_url");
  }

  /** Every extra keyword argument is in the config with its value. */
  lemma InstanceConfigKwargs(apiKey: Json, baseUrl: Json, kwargs: AIModel.InstanceConfig, k: string)
    requires ValidKwargs(kwargs) && Dicts.HasKey(kwargs, k)
    ensures Dicts.Get(InstanceConfig(apiKey, baseUrl, kwargs), k) == Dicts.Get(kwargs, k)
  {
    UpdateGet(Explicit(apiKey, baseUrl), kwargs, k);
  }

  /** `{**stored, **instance}`: only a dict can be unpacked. */
  function Merge(stored: Json, instance: AIModel.InstanceConfig): (r: Py<AIModel.InstanceConfig>)
    ensures r.Ok? <==> stored.JObj?
  {
    if stored.JObj? then Ok(Update(stored.fields, instance)) else Raise
  }

  /** In the merged profile, explicit arguments win over stored values. */
  lemma MergePrecedence(stored: Json, instance: AIModel.InstanceConfig, k: string)
    requires stored.JObj? && Dicts.DistinctKeys(instance)
    ensures AIModel.Has(instance, k) ==> AIModel.Lookup(Merge(stored, instance).value, k) == AIModel.Lookup(instance, k)
    ensures !AIModel.Has(instance, k) ==> Dicts.Get(Merge(stored, instance).value, k) == Dicts.Get(stored.fields, k)
  {
    UpdateGet(stored.fields, instance, k);
  }

  function FromGpt(m: Py<GptModel.GPTModel>): Selection { if m.Raise? then Crashed else Selected(Gpt(m.value)) }
  function FromClaude(m: Py<ClaudeModel.ClaudeModel>): Selection { if m.Raise? then Crashed else Selected(Claude(m.value)) }
  function FromCustom(m: Py<CustomOpenAIModel.CustomOpenAIModel>): Selection { if m.Raise? then Crashed else Selected(CustomOpenAI(m.value)) }
  function FromOllama(m: Py<OllamaModel.OllamaModel>): Selection { if m.Raise? then Crashed else Selected(Ollama(m.value)) }
  function FromSiliconFlow(m: Py<SiliconFlowModel.SiliconFlowModel>): Selection { if m.Raise? then Crashed else Selected(SiliconFlow(m.value)) }

  /** The adapter a built-in name (in lower case) selects. */
  function SelectBuiltIn(manager: Config.Sections, lower: string, config: AIModel.InstanceConfig, sdkBuilds: bool): (r: Selection)
    requires lower in BuiltIns
    ensures r.Selected? ==>
      (lower == "gpt" <==> r.model.Gpt?) && (lower == "claude" <==> r.model.Claude?) &&
      (lower == "gemini" <==> r.model.Gemini?) && (lower == "custom_openai" <==> r.model.CustomOpenAI?) &&
      (lower == "modelscope" <==> r.model.ModelScope?) && (lower == "ollama" <==> r.model.Ollama?) &&
      (lower == "siliconflow" <==> r.model.SiliconFlow?)
    ensures !r.Unsupported?
  {
    if lower == "gpt" then FromGpt(GptModel.Resolve(config, manager))
    else if lower == "claude" then FromClaude(ClaudeModel.Resolve(config, manager))
    else if lower == "gemini" then (if sdkBuilds then Selected(Gemini) else Crashed)
    else if lower == "custom_openai" then FromCustom(CustomOpenAIModel.Resolve(config, manager))
    else if lower == "modelscope" then (if sdkBuilds then Selected(ModelScope) else Crashed)
    else if lower == "ollama" then FromOllama(OllamaModel.Resolve(config, manager))
    else FromSiliconFlow(SiliconFlowModel.Resolve(config, manager))
  }

  /** The adapter a stored custom profile selects: none when no truthy
      profile has the name; otherwise the generic adapter built from the
      profile with the instance config laid over it. */
  function SelectProfile(manager: Config.Sections, parse: string -> Option<Json>, name: string, config: AIModel.InstanceConfig): (r: Selection)
    ensures r.Selected? ==> r.model.CustomOpenAI?
    ensures r.Unsupported? <==> (Config.ProfileNamed(Config.StoredModels(manager, parse), name).Ok? &&
      (Config.ProfileNamed(Config.StoredModels(manager, parse), name).value.None? ||
       !Truthy(Config.ProfileNamed(Config.StoredModels(manager, parse), name).value.value)))
  {
    match Config.ProfileNamed(Config.StoredModels(manager, parse), name)
    case Raise => Crashed
    case Ok(profile) =>
      if profile.None? || !Truthy(profile.value) then Unsupported
      else match Merge(profile.value, config)
        case Raise => Crashed
        case Ok(merged) => FromCustom(CustomOpenAIModel.Resolve(merged, manager))
  }

  /** The adapter a name selects. The built-in names are matched in lower
      case; any other name is looked up, as given, among the stored custom
      profiles. Whether the SDK-wrapping adapters construct is `sdkBuilds`. */
  function Select(manager: Config.Sections, parse: string -> Option<Json>, name: string,
                  apiKey: Json, baseUrl: Json, kwargs: AIModel.InstanceConfig, sdkBuilds: bool): (r: Selection)
    ensures LowerAscii(name) in BuiltIns ==> !r.Unsupported?
    ensures r.Selected? && LowerAscii(name) !in BuiltIns ==> r.model.CustomOpenAI?
  {
    var config := InstanceConfig(apiKey, baseUrl, kwargs);
    var lower := LowerAscii(name);
    if lower in BuiltIns then SelectBuiltIn(manager, lower, config, sdkBuilds)
    else SelectProfile(manager, parse, name, config)
  }

  /** Each built-in name selects its own adapter, whatever its letter case. */
  lemma BuiltInDispatch(manager: Config.Sections, parse: string -> Option<Json>, name: string,
                        apiKey: Json, baseUrl: Json, kwargs: AIModel.InstanceConfig, sdkBuilds: bool)
    requires LowerAscii(name) in BuiltIns
    ensures var r := Select(manager, parse, name, apiKey, baseUrl, kwargs, sdkBuilds);
      r.Selected? ==>
        (LowerAscii(name) == "gpt" <==> r.model.Gpt?) && (LowerAscii(name) == "claude" <==> r.model.Claude?) &&
        (LowerAscii(name) == "gemini" <==> r.model.Gemini?) && (LowerAscii(name) == "custom_openai" <==> r.model.CustomOpenAI?) &&
        (LowerAscii(name) == "modelscope" <==> r.model.ModelScope?) && (LowerAscii(name) == "ollama" <==> r.model.Ollama?) &&
        (LowerAscii(name) == "siliconflow" <==> r.model.SiliconFlow?)
  {
  }

  /** Built-in names differ only in letter case select alike. */
  lemma BuiltInIgnoresCase(manager: Config.Sections, parse: string -> Option<Json>, name: string, name': string,
                           apiKey: Json, baseUrl: Json, kwargs: AIModel.InstanceConfig, sdkBuilds: bool)
    requires LowerAscii(name) == LowerAscii(name') && LowerAscii(name) in BuiltIns
    ensures Select(manager, parse, name, apiKey, baseUrl, kwargs, sdkBuilds) ==
            Select(manager, parse, name', apiKey, baseUrl, kwargs, sdkBuilds)
  {
  }

  /** An unknown name with no stored profile is a ValueError. */
  lemma UnknownWithoutProfile(manager: Config.Sections, parse: string -> Option<Json>, name: string,
                              apiKey: Json, baseUrl: Json, kwargs: AIModel.InstanceConfig, sdkBuilds: bool)
    requires LowerAscii(name) !in BuiltIns
    requires Config.ProfileNamed(Config.StoredModels(manager, parse), name) == Ok(None)
    ensures Select(manager, parse, name, apiKey, baseUrl, kwargs, sdkBuilds) == Unsupported
  {
  }

  /** A stored profile is constructed with the explicit arguments laid
      over it. */
  lemma ProfileSelected(manager: Config.Sections, parse: string -> Option<Json>, name: string,
                        apiKey: Json, baseUrl: Json, kwargs: AIModel.InstanceConfig, sdkBuilds: bool)
    requires LowerAscii(name) !in BuiltIns
    requires var p := Config.ProfileNamed(Config.StoredModels(manager, parse), name);
      p.Ok? && p.value.Some? && p.value.value.JObj? && Truthy(p.value.value)
    ensures var stored := Config.ProfileNamed(Config.StoredModels(manager, parse), name).value.value;
      var merged := Merge(stored, InstanceConfig(apiKey, baseUrl, kwargs)).value;
      Select(manager, parse, name, apiKey, baseUrl, kwargs, sdkBuilds) == FromCustom(CustomOpenAIModel.Resolve(merged, manager))
  {
  }

  /** The constructor calls of `select_model` for the built-in names. */
  method SelectBuiltInModel(manager: Config.Sections, lower: string, config: AIModel.InstanceConfig, sdkBuilds: bool)
    returns (r: Selection)
    requires lower in BuiltIns
    ensures r == SelectBuiltIn(manager, lower, config, sdkBuilds)
  {
    if lower == "gpt" {
      var m := GptModel.New(config, Some(manager));
      r := FromGpt(m);
    } else if lower == "claude" {
      var m := ClaudeModel.New(config, Some(manager));
      r := FromClaude(m);
    } else if lower == "gemini" {
      r := if sdkBuilds then Selected(Gemini) else Crashed;
    } else if lower == "custom_openai" {
      var m := CustomOpenAIModel.New(config, Some(manager));
      r := FromCustom(m);
    } else if lower == "modelscope" {
      r := if sdkBuilds then Selected(ModelScope) else Crashed;
    } else if lower == "ollama" {
      var m := OllamaModel.New(config, Some(manager));
      r := FromOllama(m);
    } else {
      var m := SiliconFlowModel.New(config, Some(manager));
      r := FromSiliconFlow(m);
    }
  }

  /** A generation call: refused with a RuntimeError when no model is
      selected, otherwise run with the current model. */
  datatype Guarded<T> = NotSelected | Ran(value: T)

  class NovelGenerator {
    const config: Config.ConfigManager
    var currentModel: Option<Model>

    /** `NovelGenerator.__init__` with its configuration already built: no
        model, then the default model when one is configured. */
    constructor(config: Config.ConfigManager, sdkBuilds: bool)
      ensures this.config == config
      ensures currentModel == DefaultModel(config.sections, config.parse, sdkBuilds, None)
    {
      this.config := config;
      currentModel := None;
      new;
      InitializeDefaultModel(sdkBuilds);
    }

    /** `select_model`: the current model changes only when construction
        succeeds; on any failure the previous model stays. */
    method SelectModel(name: string, apiKey: Json, baseUrl: Json, kwargs: AIModel.InstanceConfig, sdkBuilds: bool)
      returns (r: Selection)
      modifies this
      ensures r == Select(config.sections, config.parse, name, apiKey, baseUrl, kwargs, sdkBuilds)
      ensures currentModel == if r.Selected? then Some(r.model) else old(currentModel)
    {
      var manager := config.sections;
      var instance := InstanceConfig(apiKey, baseUrl, kwargs);
      var lower := LowerAscii(name);
      if lower in BuiltIns {
        r := SelectBuiltInModel(manager, lower, instance, sdkBuilds);
      } else {
        r := SelectProfileModel(name, instance);
      }
      if r.Selected? {
        currentModel := Some(r.model);
      }
    }

    /** The branch of `select_model` for a name that is not built in: the
        stored profile of that name, merged with the instance settings. */
    method SelectProfileModel(name: string, instance: AIModel.InstanceConfig) returns (r: Selection)
      ensures r == SelectProfile(config.sections, config.parse, name, instance)
    {
      var profile := config.GetCustomModel(name);
      if profile.Raise? {
        return Crashed;
      }
      if profile.value.None? || !Truthy(profile.value.value) {
        return Unsupported;
      }
      var merged := Merge(profile.value.value, instance);
      if merged.Raise? {
        return Crashed;
      }
      var m := CustomOpenAIModel.New(merged.value, Some(config.sections));
      r := FromCustom(m);
    }

    /** `_initialize_default_model`: never raises; tries the configured
        default name, if any, and keeps the current model on failure. */
    method InitializeDefaultModel(sdkBuilds: bool)
      modifies this
      ensures currentModel == DefaultModel(config.sections, config.parse, sdkBuilds, old(currentModel))
    {
      var name := Config.GetConfig(config.sections, "General", "default_model_name", None);
      if name.Some? && name.value != "" {
        var _ := SelectModel(name.value, JNull, JNull, [], sdkBuilds);
      }
    }

    /** The guard of `generate_outline` and `optimize_outline`: the model
        handed to the outline generator. */
    method OutlineModel() returns (r: Guarded<Model>)
      ensures currentModel.None? ==> r == NotSelected
      ensures currentModel.Some? ==> r == Ran(currentModel.value)
    {
      if currentModel.None? {
        return NotSelected;
      }
      r := Ran(currentModel.value);
    }

    /** `generate_chapter`: guarded, then the chapter generator with the
        current model. */
    method GenerateChapter(novel: Json, v: nat, c: nat, generate: Model -> string -> AIModel.Reply)
      returns (r: Guarded<ChapterGenerator.Outcome<AIModel.Reply>>)
      ensures currentModel.None? ==> r == NotSelected
      ensures currentModel.Some? ==> r == Ran(ChapterGenerator.GenerateChapter(novel, v, c, generate(currentModel.value)))
    {
      if currentModel.None? {
        return NotSelected;
      }
      r := Ran(ChapterGenerator.GenerateChapter(novel, v, c, generate(currentModel.value)));
    }

    /** `generate_chapter_stream`: guarded, then the chapter generator's
        chunks, re-yielded unchanged and in order. */
    method GenerateChapterStream(novel: Json, v: nat, c: nat, stream: Model -> string -> AIModel.Streamed)
      returns (r: Guarded<ChapterGenerator.Outcome<(seq<AIModel.Event>, AIModel.End)>>)
      ensures currentModel.None? ==> r == NotSelected
      ensures currentModel.Some? ==>
        var prompt := ChapterGenerator.ChapterPrompt(novel, v, c);
        (prompt.Rejected? ==> r == Ran(ChapterGenerator.Rejected(prompt.message))) &&
        (prompt.Crashed? ==> r == Ran(ChapterGenerator.Crashed)) &&
        (prompt.Delegated? ==>
          var s := stream(currentModel.value)(prompt.value);
          r == Ran(ChapterGenerator.Delegated((AIModel.Trace(s.chunks, false), s.end))) &&
          AIModel.Yields(r.value.value.0) == s.chunks)
    {
      if currentModel.None? {
        return NotSelected;
      }
      var inner := ChapterGenerator.GenerateChapterStream(novel, v, c, stream(currentModel.value), false);
      if !inner.Delegated? {
        return Ran(inner);
      }
      var s := AIModel.Streamed(AIModel.Yields(inner.value.0), inner.value.1);
      var events, end := ChapterGenerator.ReYield(s, false);
      r := Ran(ChapterGenerator.Delegated((events, end)));
    }
  }

  /** The model `_initialize_default_model` leaves: the configured default
      when one is set and it constructs, otherwise the current one. */
  function DefaultModel(manager: Config.Sections, parse: string -> Option<Json>, sdkBuilds: bool, current: Option<Model>): (r: Option<Model>)
    ensures var name := Config.GetConfig(manager, "General", "default_model_name", None);
      name.None? || name.value == "" ==> r == current
  {
    var name := Config.GetConfig(manager, "General", "default_model_name", None);
    if name.None? || name.value == "" then current
    else match Select(manager, parse, name.value, JNull, JNull, [], sdkBuilds)
      case Selected(m) => Some(m)
      case _ => current
  }
}
