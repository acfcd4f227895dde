/** The OpenAI adapter (models/gpt_model.py): how its key, model and URL
    are resolved, the request it posts, the text it extracts from a reply,
    and what its stream does with each line. */
module GptModel {
  import opened Wrappers
  import opened Text
  import opened Json
  import Config
  import opened AIModel

  const DefaultUrl := "https://api.openai.com/v1/chat/completions"
  const DefaultModel := "gpt-4-turbo"

  /** A constructed `GPTModel`. */
  datatype GPTModel = GPTModel(proxy: Option<Config.Proxy>, apiKey: Json, modelName: Json, apiUrl: Json)

  /** The key before the emptiness check: the instance's `api_key` when it
      has one (even an empty one), else the stored `gpt_api_key`. */
  function KeyChoice(config: InstanceConfig, sections: Config.Sections): Json {
    if Has(config, "api_key") then Lookup(config, "api_key") else FromManager(Config.ApiKey(sections, "gpt"))
  }

  /** The model before the default: the instance's `model_name`, else the
      stored `gpt_model`. */
  function ModelChoice(config: InstanceConfig, sections: Config.Sections): Json {
    if Has(config, "model_name") then Lookup(config, "model_name") else FromManager(Config.ModelName(sections, "gpt"))
  }

  /** What `GPTModel(config, config_manager)` settles on: construction
      fails only for a malformed proxy setting or a falsy key; a falsy model
      falls back to `GPT.default_model_name`, else `gpt-4-turbo`; the URL
      is the instance's, else `GPT.api_url`, else OpenAI's. */
  function Resolve(config: InstanceConfig, sections: Config.Sections): (r: Py<GPTModel>)
    ensures r.Raise? <==> Config.ProxySettings(sections).Raise? || !Truthy(KeyChoice(config, sections))
    ensures r.Ok? ==> r.value.proxy == Config.ProxySettings(sections).value
    ensures r.Ok? && Has(config, "api_key") ==> r.value.apiKey == Lookup(config, "api_key")
    ensures r.Ok? && !Has(config, "api_key") ==> r.value.apiKey == JStr(Config.ApiKey(sections, "gpt").value)
    ensures r.Ok? ==> r.value.modelName == Or(ModelChoice(config, sections), ConfigOr(sections, "GPT", "default_model_name", DefaultModel))
    ensures r.Ok? ==> r.value.apiUrl == InstanceUrlFirst(config, sections, "GPT", DefaultUrl)
  {
    var proxy := Config.ProxySettings(sections);
    var key := KeyChoice(config, sections);
    if proxy.Raise? || !Truthy(key) then Raise
    else Ok(GPTModel(proxy.value, key,
                     Or(ModelChoice(config, sections), ConfigOr(sections, "GPT", "default_model_name", DefaultModel)),
                     InstanceUrlFirst(config, sections, "GPT", DefaultUrl)))
  }

  /** `GPTModel.__init__`, step by step. `manager` is the config manager's
      sections, None for no manager, where the base class's
      `config_manager.get_proxy_settings()` raises. */
  method New(config: InstanceConfig, manager: Option<Config.Sections>) returns (r: Py<GPTModel>)
    ensures manager.None? ==> r.Raise?
    ensures manager.Some? ==> r == Resolve(config, manager.value)
  {
    if manager.None? {
      return Raise;
    }
    var sections := manager.value;
    var proxy := Config.ProxySettings(sections);
    if proxy.Raise? {
      return Raise;
    }
    var apiKey := if Has(config, "api_key") then Lookup(config, "api_key")
                  else FromManager(Config.ApiKey(sections, "gpt"));
    var modelName := if Has(config, "model_name") then Lookup(config, "model_name")
                     else FromManager(Config.ModelName(sections, "gpt"));
    var apiUrl := if Has(config, "api_url") || Has(config, "base_url") then Or(Lookup(config, "api_url"), Lookup(config, "base_url"))
                  else ConfigOr(sections, "GPT", "api_url", DefaultUrl);
    if !Truthy(apiKey) {
      if !Has(config, "api_key") {
        apiKey := FromManager(Config.ApiKey(sections, "gpt"));
      }
      if !Truthy(apiKey) {
        return Raise;
      }
    }
    if !Truthy(modelName) {
      if !Has(config, "model_name") {
        modelName := FromManager(Config.ModelName(sections, "gpt"));
      }
      if !Truthy(modelName) {
        modelName := ConfigOr(sections, "GPT", "default_model_name", DefaultModel);
      }
    }
    r := Ok(GPTModel(proxy.value, apiKey, modelName, apiUrl));
  }

  /** An explicitly supplied key is used as given: an empty one makes
      construction fail even when a key is stored. */
  lemma ExplicitEmptyKeyIsKept(config: InstanceConfig, sections: Config.Sections)
    requires Has(config, "api_key") && Lookup(config, "api_key") == JStr("")
    requires Config.ApiKey(sections, "gpt").Some? && Config.ApiKey(sections, "gpt").value != ""
    ensures Resolve(config, sections).Raise?
  {
  }

  /** The request `generate` (stream false) and `generate_stream` (stream
      true) post. */
  function Request(m: GPTModel, prompt: string, stream: bool): (r: AIModel.Request)
    ensures r.url == m.apiUrl && r.body == ChatBody(m.modelName, prompt, stream)
    ensures r.headers == [("Content-Type", JStr("application/json")), ("Authorization", JStr("Bearer " + Str(m.apiKey)))]
    ensures r.proxy == ProxyUrl(m.proxy)
  {
    AIModel.Request(m.apiUrl,
      [("Content-Type", JStr("application/json")), ("Authorization", JStr("Bearer " + Str(m.apiKey)))],
      ChatBody(m.modelName, prompt, stream), ProxyUrl(m.proxy))
  }

  /** `result["choices"][0]["message"]["content"]`. */
  function Content(result: Json): Py<Json> {
    match Field(result, "choices")
    case Raise => Raise
    case Ok(choices) =>
      match At(choices, 0)
      case Raise => Raise
      case Ok(choice) =>
        match Field(choice, "message")
        case Raise => Raise
        case Ok(message) => Field(message, "content")
  }

  /** The text of a well-formed reply is its first choice's message. */
  lemma ContentOfReply(text: Json)
    ensures Content(JObj([("choices", JArr([JObj([("message", JObj([("content", text)]))])]))])) == Ok(text)
  {
  }

  /** `generate`: an error carrying status and body unless the status is
      200; otherwise the extracted content, raising where the reply has
      another shape. */
  function Generate(status: int, body: string, json: Option<Json>): (r: Reply)
    ensures status != 200 ==> r == HttpError(status, body)
    ensures status == 200 && json.None? ==> r == Reply.Raised
    ensures status == 200 && json.Some? ==> r == Extracted(Content(json.value))
  {
    if status != 200 then HttpError(status, body)
    else if json.None? then Reply.Raised
    else Extracted(Content(json.value))
  }

  const DonePrefix := "data: "
  const DoneLine := "data: [DONE]"

  /** `data.get("choices", [{}])[0].get("delta", {}).get("content", "")`. */
  function Delta(data: Json): Py<Json> {
    match GetOr(data, "choices", JArr([JObj([])]))
    case Raise => Raise
    case Ok(choices) =>
      match At(choices, 0)
      case Raise => Raise
      case Ok(choice) =>
        match GetOr(choice, "delta", JObj([]))
        case Raise => Raise
        case Ok(delta) => GetOr(delta, "content", JStr(""))
  }

  /** What `generate_stream` does with one line: `data: [DONE]` ends the
      stream; only `data: ` lines are read; malformed JSON and empty content
      are skipped; an unexpected shape raises. */
  function StreamStep(line: string, parse: string -> Option<Json>): (r: Step)
    ensures Strip(line) == DoneLine ==> r == Stop
    ensures !StartsWith(Strip(line), DonePrefix) ==> r == Skip
    ensures (StartsWith(Strip(line), DonePrefix) && Strip(line) != DoneLine &&
             parse(Strip(line)[6..]).None?) ==> r == Skip
    ensures r.Emit? ==> Truthy(r.chunk)
    ensures !r.EmitThenStop?
  {
    var l := Strip(line);
    if l == DoneLine then Stop
    else if !StartsWith(l, DonePrefix) then Skip
    else match parse(l[6..])
      case None => Skip
      case Some(data) =>
        match Delta(data)
        case Raise => Fail
        case Ok(content) => if Truthy(content) then Emit(content) else Skip
  }

  /** `generate_stream`: refused unless the status is 200; otherwise the
      chunks of the line loop, with no callback. */
  method GenerateStream(status: int, body: string, lines: seq<string>, parse: string -> Option<Json>)
    returns (r: StreamReply)
    ensures status != 200 ==> r == Refused(status, body)
    ensures status == 200 ==> r == Delivered(Trace(Chunks(lines, parse).chunks, false), Chunks(lines, parse).end)
  {
    r := Stream(status, body, lines, line => StreamStep(line, parse), false);
  }

  /** The stream the lines give. */
  function Chunks(lines: seq<string>, parse: string -> Option<Json>): Streamed {
    Run(Steps(lines, line => StreamStep(line, parse)))
  }

  /** The stream never yields an empty chunk. */
  lemma NoEmptyChunk(lines: seq<string>, parse: string -> Option<Json>)
    ensures forall c :: c in Chunks(lines, parse).chunks ==> Truthy(c)
  {
    var steps := Steps(lines, line => StreamStep(line, parse));
    ChunksComeFromSteps(steps);
    forall c | c in Chunks(lines, parse).chunks ensures Truthy(c) {
      var i :| 0 <= i < |steps| && (steps[i] == Emit(c) || steps[i] == EmitThenStop(c));
      assert steps[i] == StreamStep(lines[i], parse);
    }
  }

  /** Lines after `data: [DONE]` are never read. */
  lemma DoneEndsStream(before: seq<string>, after: seq<string>, parse: string -> Option<Json>)
    ensures Chunks(before + [DoneLine] + after, parse) == Then(Chunks(before, parse), Streamed([], Stopped))
  {
    var step := line => StreamStep(line, parse);
    assert step(DoneLine) == Stop;
    EndingLine(before, DoneLine, after, step);
    assert Run([Stop]) == Streamed([], Stopped);
  }
}
