/** The Anthropic adapter (models/claude_model.py): how its key, model and
    URL are resolved, the request it posts, the text it extracts from a
    reply, and what its stream does with each line. */
module ClaudeModel {
  import opened Wrappers
  import opened Text
  import opened Json
  import Config
  import opened AIModel

  const DefaultUrl := "https://api.anthropic.com/v1/messages"
  const DefaultModel := "claude-3-opus-20240229"
  const ApiVersion := "2023-06-01"

  /** A constructed `ClaudeModel`. */
  datatype ClaudeModel = ClaudeModel(proxy: Option<Config.Proxy>, apiKey: Json, modelName: Json, apiUrl: Json)

  /** The key before the emptiness check: the instance's `api_key` when it
      has one, else the stored `claude_api_key`. */
  function KeyChoice(config: InstanceConfig, sections: Config.Sections): Json {
    if Has(config, "api_key") then Lookup(config, "api_key") else FromManager(Config.ApiKey(sections, "claude"))
  }

  function ModelChoice(config: InstanceConfig, sections: Config.Sections): Json {
    if Has(config, "model_name") then Lookup(config, "model_name") else FromManager(Config.ModelName(sections, "claude"))
  }

  /** The URL: a truthy instance `base_url` (an `api_url` is not looked
      at), else a truthy `CLAUDE.api_url`, else Anthropic's. */
  function UrlChoice(config: InstanceConfig, sections: Config.Sections): (r: Json)
    ensures Truthy(Lookup(config, "base_url")) ==> r == Lookup(config, "base_url")
    ensures !Truthy(Lookup(config, "base_url")) && Truthy(FromManager(Config.GetConfig(sections, "CLAUDE", "api_url", None))) ==>
      r == FromManager(Config.GetConfig(sections, "CLAUDE", "api_url", None))
    ensures r == Lookup(config, "base_url") || r == FromManager(Config.GetConfig(sections, "CLAUDE", "api_url", None)) || r == JStr(DefaultUrl)
    ensures Truthy(r)
  {
    Or(Lookup(config, "base_url"), Or(FromManager(Config.GetConfig(sections, "CLAUDE", "api_url", None)), JStr(DefaultUrl)))
  }

  /** What `ClaudeModel(config, config_manager)` settles on: construction
      fails only for a malformed proxy setting or a falsy key; a falsy model
      falls back to `CLAUDE.default_model_name`, else
      `claude-3-opus-20240229`. */
  function Resolve(config: InstanceConfig, sections: Config.Sections): (r: Py<ClaudeModel>)
    ensures r.Raise? <==> Config.ProxySettings(sections).Raise? || !Truthy(KeyChoice(config, sections))
    ensures r.Ok? ==> r.value.proxy == Config.ProxySettings(sections).value
    ensures r.Ok? && Has(config, "api_key") ==> r.value.apiKey == Lookup(config, "api_key")
    ensures r.Ok? && !Has(config, "api_key") ==> r.value.apiKey == JStr(Config.ApiKey(sections, "claude").value)
    ensures r.Ok? ==> r.value.modelName == Or(ModelChoice(config, sections), ConfigOr(sections, "CLAUDE", "default_model_name", DefaultModel))
    ensures r.Ok? ==> r.value.apiUrl == UrlChoice(config, sections)
  {
    var proxy := Config.ProxySettings(sections);
    var key := KeyChoice(config, sections);
    if proxy.Raise? || !Truthy(key) then Raise
    else Ok(ClaudeModel(proxy.value, key,
                        Or(ModelChoice(config, sections), ConfigOr(sections, "CLAUDE", "default_model_name", DefaultModel)),
                        UrlChoice(config, sections)))
  }

  /** `ClaudeModel.__init__`, step by step; None for no config manager,
      where the base class raises. */
  method New(config: InstanceConfig, manager: Option<Config.Sections>) returns (r: Py<ClaudeModel>)
    ensures manager.None? ==> r.Raise?
    ensures manager.Some? ==> r == Resolve(config, manager.value)
  {
    if manager.None? {
      return Raise;
    }
    var sections := manager.value;
    var proxy := Config.ProxySettings(sections);
    if proxy.Raise? {
      return Raise;
    }
    var apiKey := if Has(config, "api_key") then Lookup(config, "api_key")
                  else FromManager(Config.ApiKey(sections, "claude"));
    var modelName := if Has(config, "model_name") then Lookup(config, "model_name")
                     else FromManager(Config.ModelName(sections, "claude"));
    var apiUrl := Lookup(config, "base_url");
    if !Truthy(apiUrl) {
      apiUrl := FromManager(Config.GetConfig(sections, "CLAUDE", "api_url", None));
    }
    if !Truthy(apiUrl) {
      apiUrl := JStr(DefaultUrl);
    }
    if !Truthy(apiKey) {
      if !Has(config, "api_key") {
        apiKey := FromManager(Config.ApiKey(sections, "claude"));
      }
      if !Truthy(apiKey) {
        return Raise;
      }
    }
    if !Truthy(modelName) {
      if !Has(config, "model_name") {
        modelName := FromManager(Config.ModelName(sections, "claude"));
      }
      if !Truthy(modelName) {
        modelName := ConfigOr(sections, "CLAUDE", "default_model_name", DefaultModel);
      }
    }
    r := Ok(ClaudeModel(proxy.value, apiKey, modelName, apiUrl));
  }

  /** The request: the key goes in `x-api-key`, with the API version. */
  function Request(m: ClaudeModel, prompt: string, stream: bool): (r: AIModel.Request)
    ensures r.url == m.apiUrl && r.body == ChatBody(m.modelName, prompt, stream) && r.proxy == ProxyUrl(m.proxy)
    ensures r.headers == [("Content-Type", JStr("application/json")), ("x-api-key", m.apiKey), ("anthropic-version", JStr(ApiVersion))]
  {
    AIModel.Request(m.apiUrl,
      [("Content-Type", JStr("application/json")), ("x-api-key", m.apiKey), ("anthropic-version", JStr(ApiVersion))],
      ChatBody(m.modelName, prompt, stream), ProxyUrl(m.proxy))
  }

  /** `result["content"][0]["text"]`. */
  function Content(result: Json): Py<Json> {
    match Field(result, "content")
    case Raise => Raise
    case Ok(blocks) =>
      match At(blocks, 0)
      case Raise => Raise
      case Ok(block) => Field(block, "text")
  }

  lemma ContentOfReply(text: Json)
    ensures Content(JObj([("content", JArr([JObj([("type", JStr("text")), ("text", text)])]))])) == Ok(text)
  {
    var block := JObj([("type", JStr("text")), ("text", text)]);
    assert block.fields[1..] == [("text", text)];
  }

  /** `generate`. */
  function Generate(status: int, body: string, json: Option<Json>): (r: Reply)
    ensures status != 200 ==> r == HttpError(status, body)
    ensures status == 200 && json.None? ==> r == Reply.Raised
    ensures status == 200 && json.Some? ==> r == Extracted(Content(json.value))
  {
    if status != 200 then HttpError(status, body)
    else if json.None? then Reply.Raised
    else Extracted(Content(json.value))
  }

  const DataPrefix := "data: "
  const DoneLine := "data: [DONE]"

  /** The text of a `text_delta` event, None for any other event. */
  function DeltaText(data: Json): Py<Option<Json>> {
    match GetOr(data, "delta", JObj([]))
    case Raise => Raise
    case Ok(delta) =>
      match GetOr(delta, "type", JNull)
      case Raise => Raise
      case Ok(kind) =>
        if kind == JStr("text_delta") then
          match GetOr(delta, "text", JStr("")) case Raise => Raise case Ok(t) => Ok(Some(t))
        else Ok(None)
  }

  /** What `generate_stream` does with one line: empty lines and
      `data: [DONE]` are skipped without ending the stream; only `data: `
      lines are read; malformed JSON is skipped; the text of a
      `text_delta` event is yielded, even an empty one. */
  function StreamStep(line: string, parse: string -> Option<Json>): (r: Step)
    ensures Strip(line) == "" || Strip(line) == DoneLine ==> r == Skip
    ensures !StartsWith(Strip(line), DataPrefix) ==> r == Skip
    ensures r.Emit? ==> exists data :: parse(Strip(line)[6..]) == Some(data) && DeltaText(data) == Ok(Some(r.chunk))
    ensures !r.Stop? && !r.EmitThenStop?
  {
    var l := Strip(line);
    if l == "" || l == DoneLine then Skip
    else if !StartsWith(l, DataPrefix) then Skip
    else match parse(l[6..])
      case None => Skip
      case Some(data) =>
        match DeltaText(data)
        case Raise => Fail
        case Ok(None) => Skip
        case Ok(Some(t)) => Emit(t)
  }

  function Chunks(lines: seq<string>, parse: string -> Option<Json>): Streamed {
    Run(Steps(lines, line => StreamStep(line, parse)))
  }

  /** `generate_stream`. */
  method GenerateStream(status: int, body: string, lines: seq<string>, parse: string -> Option<Json>)
    returns (r: StreamReply)
    ensures status != 200 ==> r == Refused(status, body)
    ensures status == 200 ==> r == Delivered(Trace(Chunks(lines, parse).chunks, false), Chunks(lines, parse).end)
  {
    r := Stream(status, body, lines, line => StreamStep(line, parse), false);
  }

  /** `data: [DONE]` does not end this stream: the lines after it are read
      as if it were absent. */
  lemma DoneIsSkipped(before: seq<string>, after: seq<string>, parse: string -> Option<Json>)
    ensures Chunks(before + [DoneLine] + after, parse) == Chunks(before + after, parse)
  {
    var step := line => StreamStep(line, parse);
    assert step(DoneLine) == Skip;
    SkippedLine(before, DoneLine, after, step);
  }

  /** The loop never breaks: the stream ends when the lines run out or an
      event has an unexpected shape. */
  lemma {:induction false} NeverStops(steps: seq<Step>)
    requires forall i :: 0 <= i < |steps| ==> !steps[i].Stop? && !steps[i].EmitThenStop?
    ensures Run(steps).end != Stopped
    decreases |steps|
  {
    if steps != [] {
      NeverStops(steps[1..]);
    }
  }

  lemma StreamNeverStops(lines: seq<string>, parse: string -> Option<Json>)
    ensures Chunks(lines, parse).end != Stopped
  {
    NeverStops(Steps(lines, line => StreamStep(line, parse)));
  }
}
