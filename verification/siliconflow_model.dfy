/** The SiliconFlow adapter (models/siliconflow_model.py): an
    OpenAI-compatible service with a built-in model and URL. */
module SiliconFlowModel {
  import opened Wrappers
  import opened Text
  import opened Json
  import Config
  import opened AIModel

  const DefaultName := "SiliconFlow"
  const DefaultModel := "deepseek-ai/DeepSeek-V2"
  const DefaultUrl := "https://api.siliconflow.cn/v1/chat/completions"
  const Section := "SILICONFLOW"

  /** A constructed `SiliconFlowModel`. */
  datatype SiliconFlowModel = SiliconFlowModel(proxy: Option<Config.Proxy>, name: Json, apiKey: Json, modelName: Json, apiUrl: Json)

  /** The name: the instance's when truthy, else the built-in one. */
  function NameChoice(config: InstanceConfig): (r: Json)
    ensures Truthy(r)
  {
    Or(Lookup(config, "name"), JStr(DefaultName))
  }

  /** The key: the instance's when it has one, else `siliconflow_api_key`. */
  function KeyChoice(config: InstanceConfig, sections: Config.Sections): Json {
    if Has(config, "api_key") then Lookup(config, "api_key") else FromManager(Config.ApiKey(sections, "siliconflow"))
  }

  /** The model: the instance's, else `siliconflow_model`; when that is
      falsy, `SILICONFLOW.default_model_name`, else the built-in model. */
  function ModelChoice(config: InstanceConfig, sections: Config.Sections): Json {
    var chosen := if Has(config, "model_name") then Lookup(config, "model_name") else FromManager(Config.ModelName(sections, "siliconflow"));
    Or(chosen, ConfigOr(sections, Section, "default_model_name", DefaultModel))
  }

  /** What `SiliconFlowModel(config, config_manager)` settles on: it fails
      without a key or with a falsy URL. */
  function Resolve(config: InstanceConfig, sections: Config.Sections): (r: Py<SiliconFlowModel>)
    ensures r.Raise? <==>
      Config.ProxySettings(sections).Raise? || !Truthy(KeyChoice(config, sections)) ||
      !Truthy(InstanceUrlFirst(config, sections, Section, DefaultUrl))
    ensures r.Ok? ==>
      r.value.name == NameChoice(config) && r.value.apiKey == KeyChoice(config, sections) &&
      r.value.modelName == ModelChoice(config, sections) &&
      r.value.apiUrl == InstanceUrlFirst(config, sections, Section, DefaultUrl) &&
      Truthy(r.value.apiKey) && Truthy(r.value.apiUrl)
    ensures r.Ok? ==> r.value.proxy == Config.ProxySettings(sections).value
  {
    var proxy := Config.ProxySettings(sections);
    var key := KeyChoice(config, sections);
    var url := InstanceUrlFirst(config, sections, Section, DefaultUrl);
    if proxy.Raise? || !Truthy(key) || !Truthy(url) then Raise
    else Ok(SiliconFlowModel(proxy.value, NameChoice(config), key, ModelChoice(config, sections), url))
  }

  /** Without a stored default, the built-in model fills an unset one. */
  lemma BuiltInModel(config: InstanceConfig, sections: Config.Sections)
    requires !Truthy(if Has(config, "model_name") then Lookup(config, "model_name") else FromManager(Config.ModelName(sections, "siliconflow")))
    requires Section !in sections || "default_model_name" !in sections[Section]
    ensures ModelChoice(config, sections) == JStr(DefaultModel)
  {
  }

  /** `SiliconFlowModel.__init__`, step by step; None for no config
      manager, where the base class raises. */
  method New(config: InstanceConfig, manager: Option<Config.Sections>) returns (r: Py<SiliconFlowModel>)
    ensures manager.None? ==> r.Raise?
    ensures manager.Some? ==> r == Resolve(config, manager.value)
  {
    if manager.None? {
      return Raise;
    }
    var sections := manager.value;
    var proxy := Config.ProxySettings(sections);
    if proxy.Raise? {
      return Raise;
    }
    var name := Or(Lookup(config, "name"), JStr(DefaultName));
    var apiKey := if Has(config, "api_key") then Lookup(config, "api_key")
                  else FromManager(Config.ApiKey(sections, "siliconflow"));
    var modelName := if Has(config, "model_name") then Lookup(config, "model_name")
                     else FromManager(Config.ModelName(sections, "siliconflow"));
    var apiUrl := if Has(config, "api_url") || Has(config, "base_url") then Or(Lookup(config, "api_url"), Lookup(config, "base_url"))
                  else ConfigOr(sections, Section, "api_url", DefaultUrl);
    if !Truthy(apiKey) {
      if !Has(config, "api_key") {
        apiKey := FromManager(Config.ApiKey(sections, "siliconflow"));
      }
      if !Truthy(apiKey) {
        return Raise;
      }
    }
    if !Truthy(modelName) {
      if !Has(config, "model_name") {
        modelName := FromManager(Config.ModelName(sections, "siliconflow"));
      }
      if !Truthy(modelName) {
        modelName := ConfigOr(sections, Section, "default_model_name", DefaultModel);
      }
    }
    if !Truthy(apiUrl) {
      return Raise;
    }
    r := Ok(SiliconFlowModel(proxy.value, name, apiKey, modelName, apiUrl));
  }

  /** The request: a Bearer key. */
  function Request(m: SiliconFlowModel, prompt: string, stream: bool): (r: AIModel.Request)
    ensures r.url == m.apiUrl && r.body == ChatBody(m.modelName, prompt, stream) && r.proxy == ProxyUrl(m.proxy)
    ensures r.headers == [("Content-Type", JStr("application/json")), ("Authorization", JStr("Bearer " + Str(m.apiKey)))]
  {
    AIModel.Request(m.apiUrl,
      [("Content-Type", JStr("application/json")), ("Authorization", JStr("Bearer " + Str(m.apiKey)))],
      ChatBody(m.modelName, prompt, stream), ProxyUrl(m.proxy))
  }

  /** The reply text: the first choice's `message.content` (empty when the
      message has none) when the message is truthy, else its truthy
      `text`; any other reply raises. */
  function Content(result: Json): (r: Py<Json>)
    ensures GetOr(result, "choices", JNull).Ok? && !Truthy(GetOr(result, "choices", JNull).value) ==> r.Raise?
  {
    match GetOr(result, "choices", JNull)
    case Raise => Raise
    case Ok(choices) =>
      if !Truthy(choices) then Raise
      else match At(choices, 0)
        case Raise => Raise
        case Ok(choice) =>
          match GetOr(choice, "message", JNull)
          case Raise => Raise
          case Ok(message) =>
            if Truthy(message) then GetOr(message, "content", JStr(""))
            else match GetOr(choice, "text", JNull)
              case Raise => Raise
              case Ok(text) => if Truthy(text) then Ok(text) else Raise
  }

  /** A message without content gives the empty text. */
  lemma MessageWithoutContent(k: string, v: Json)
    requires k != "content"
    ensures Content(JObj([("choices", JArr([JObj([("message", JObj([(k, v)]))])]))])) == Ok(JStr(""))
  {
  }

  /** `generate`: an HTTP error carries status and body; an unusable reply
      raises. */
  function Generate(status: int, body: string, json: Option<Json>): (r: Reply)
    ensures status != 200 ==> r == HttpError(status, body)
    ensures status == 200 && json.None? ==> r == Reply.Raised
    ensures status == 200 && json.Some? ==> r == Extracted(Content(json.value))
  {
    if status != 200 then HttpError(status, body)
    else if json.None? then Reply.Raised
    else Extracted(Content(json.value))
  }

  const DataPrefix := "data: "
  const DoneLine := "data: [DONE]"

  /** The content piece of a streamed record: the first choice's
      `delta.content`, when the choices and the delta are truthy and the
      delta holds `content`. */
  function Piece(data: Json): Py<Option<Json>> {
    match GetOr(data, "choices", JNull)
    case Raise => Raise
    case Ok(choices) =>
      if !Truthy(choices) then Ok(None)
      else match At(choices, 0)
        case Raise => Raise
        case Ok(choice) =>
          match GetOr(choice, "delta", JNull)
          case Raise => Raise
          case Ok(delta) =>
            if !Truthy(delta) then Ok(None)
            else match ContainsKey(delta, "content")
              case Raise => Raise
              case Ok(has) =>
                if !has then Ok(None)
                else match Field(delta, "content") case Raise => Raise case Ok(c) => Ok(Some(c))
  }

  /** What `generate_stream` does with one line: `data: [DONE]` ends the
      stream; lines without the `data: ` prefix, malformed JSON and
      records without a piece are skipped; only truthy pieces are
      yielded. */
  function StreamStep(line: string, parse: string -> Option<Json>): (r: Step)
    ensures Strip(line) == DoneLine ==> r == Stop
    ensures !StartsWith(Strip(line), DataPrefix) ==> r == Skip
    ensures (StartsWith(Strip(line), DataPrefix) && Strip(line) != DoneLine &&
             parse(Strip(line)[6..]).None?) ==> r == Skip
    ensures r.Emit? ==> Truthy(r.chunk)
    ensures !r.EmitThenStop?
  {
    var l := Strip(line);
    if l == "" then Skip
    else if l == DoneLine then Stop
    else if !StartsWith(l, DataPrefix) then Skip
    else match parse(l[6..])
      case None => Skip
      case Some(data) =>
        match Piece(data)
        case Raise => Fail
        case Ok(None) => Skip
        case Ok(Some(c)) => if Truthy(c) then Emit(c) else Skip
  }

  function Chunks(lines: seq<string>, parse: string -> Option<Json>): Streamed {
    Run(Steps(lines, line => StreamStep(line, parse)))
  }

  /** `generate_stream`: with a callback, each chunk is passed to it right
      before it is yielded. */
  method GenerateStream(status: int, body: string, lines: seq<string>, parse: string -> Option<Json>, callback: bool)
    returns (r: StreamReply)
    ensures status != 200 ==> r == Refused(status, body)
    ensures status == 200 ==> r == Delivered(Trace(Chunks(lines, parse).chunks, callback), Chunks(lines, parse).end)
  {
    r := Stream(status, body, lines, line => StreamStep(line, parse), callback);
  }

  /** The stream never yields an empty piece. */
  lemma NoEmptyChunk(lines: seq<string>, parse: string -> Option<Json>)
    ensures forall c :: c in Chunks(lines, parse).chunks ==> Truthy(c)
  {
    var steps := Steps(lines, line => StreamStep(line, parse));
    ChunksComeFromSteps(steps);
    forall c | c in Chunks(lines, parse).chunks ensures Truthy(c) {
      var i :| 0 <= i < |steps| && (steps[i] == Emit(c) || steps[i] == EmitThenStop(c));
      assert steps[i] == StreamStep(lines[i], parse);
    }
  }

  /** Lines after `data: [DONE]` are never read. */
  lemma DoneEndsStream(before: seq<string>, after: seq<string>, parse: string -> Option<Json>)
    ensures Chunks(before + [DoneLine] + after, parse) == Then(Chunks(before, parse), Streamed([], Stopped))
  {
    var step := line => StreamStep(line, parse);
    assert step(DoneLine) == Stop;
    EndingLine(before, DoneLine, after, step);
    assert Run([Stop]) == Streamed([], Stopped);
  }
}
