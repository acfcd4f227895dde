/** The Ollama adapter (models/ollama_model.py): a local server, no key,
    one JSON record per streamed line. */
module OllamaModel {
  import opened Wrappers
  import opened Text
  import opened Json
  import Config
  import opened AIModel

  const DefaultName := "Ollama"
  const DefaultModel := "llama3"
  const DefaultUrl := "http://localhost:11434/api/chat"
  const Section := "OLLAMA"

  /** A constructed `OllamaModel`. */
  datatype OllamaModel = OllamaModel(proxy: Option<Config.Proxy>, name: Json, modelName: Json, apiUrl: Json)

  /** The name: the instance's, else `OLLAMA.default_name`, else the
      built-in one. */
  function NameChoice(config: InstanceConfig, sections: Config.Sections): Json {
    if Has(config, "name") then Lookup(config, "name") else ConfigOr(sections, Section, "default_name", DefaultName)
  }

  /** The model: the instance's, else `ollama_model`; when that is falsy,
      `OLLAMA.default_model_name`, else the built-in model. */
  function ModelChoice(config: InstanceConfig, sections: Config.Sections): Json {
    var chosen := if Has(config, "model_name") then Lookup(config, "model_name") else FromManager(Config.ModelName(sections, "ollama"));
    Or(chosen, ConfigOr(sections, Section, "default_model_name", DefaultModel))
  }

  /** What `OllamaModel(config, config_manager)` settles on: only a falsy
      URL (or a malformed proxy setting) makes it fail. */
  function Resolve(config: InstanceConfig, sections: Config.Sections): (r: Py<OllamaModel>)
    ensures r.Raise? <==>
      Config.ProxySettings(sections).Raise? || !Truthy(InstanceUrlFirst(config, sections, Section, DefaultUrl))
    ensures r.Ok? ==>
      r.value.name == NameChoice(config, sections) && r.value.modelName == ModelChoice(config, sections) &&
      r.value.apiUrl == InstanceUrlFirst(config, sections, Section, DefaultUrl) && Truthy(r.value.apiUrl)
    ensures r.Ok? ==> r.value.proxy == Config.ProxySettings(sections).value
  {
    var proxy := Config.ProxySettings(sections);
    var url := InstanceUrlFirst(config, sections, Section, DefaultUrl);
    if proxy.Raise? || !Truthy(url) then Raise
    else Ok(OllamaModel(proxy.value, NameChoice(config, sections), ModelChoice(config, sections), url))
  }

  /** With nothing configured, the adapter talks to the local default
      server. */
  lemma LocalDefaults(config: InstanceConfig)
    requires !Has(config, "name") && !Has(config, "model_name") && !Has(config, "api_url") && !Has(config, "base_url")
    ensures Resolve(config, map[]) == Ok(OllamaModel(None, JStr(DefaultName), JStr(DefaultModel), JStr(DefaultUrl)))
  {
  }

  /** `OllamaModel.__init__`, step by step; None for no config manager,
      where the base class raises. */
  method New(config: InstanceConfig, manager: Option<Config.Sections>) returns (r: Py<OllamaModel>)
    ensures manager.None? ==> r.Raise?
    ensures manager.Some? ==> r == Resolve(config, manager.value)
  {
    if manager.None? {
      return Raise;
    }
    var sections := manager.value;
    var proxy := Config.ProxySettings(sections);
    if proxy.Raise? {
      return Raise;
    }
    var name := if Has(config, "name") then Lookup(config, "name")
                else ConfigOr(sections, Section, "default_name", DefaultName);
    var modelName := if Has(config, "model_name") then Lookup(config, "model_name")
                     else FromManager(Config.ModelName(sections, "ollama"));
    var apiUrl := if Has(config, "api_url") || Has(config, "base_url") then Or(Lookup(config, "api_url"), Lookup(config, "base_url"))
                  else ConfigOr(sections, Section, "api_url", DefaultUrl);
    if !Truthy(modelName) {
      if !Has(config, "model_name") {
        modelName := FromManager(Config.ModelName(sections, "ollama"));
      }
      if !Truthy(modelName) {
        modelName := ConfigOr(sections, Section, "default_model_name", DefaultModel);
      }
    }
    if !Truthy(apiUrl) {
      return Raise;
    }
    r := Ok(OllamaModel(proxy.value, name, modelName, apiUrl));
  }

  /** The request: no headers of its own. */
  function Request(m: OllamaModel, prompt: string, stream: bool): (r: AIModel.Request)
    ensures r.url == m.apiUrl && r.body == ChatBody(m.modelName, prompt, stream) && r.proxy == ProxyUrl(m.proxy)
    ensures r.headers == []
  {
    AIModel.Request(m.apiUrl, [], ChatBody(m.modelName, prompt, stream), ProxyUrl(m.proxy))
  }

  /** `data.get("message", {}).get("content", default)`. */
  function MessageContent(data: Json, default: Json): (r: Py<Json>)
    ensures !data.JObj? ==> r.Raise?
  {
    match GetOr(data, "message", JObj([]))
    case Raise => Raise
    case Ok(message) => GetOr(message, "content", default)
  }

  /** A record without a message has empty content. */
  lemma NoMessageNoContent(data: Json, default: Json)
    requires data.JObj? && !Dicts.HasKey(data.fields, "message")
    ensures MessageContent(data, default) == Ok(default)
  {
  }

  /** `generate`: the reply is the message content (empty when
      absent), and a callback receives it once. */
  function Generate(status: int, body: string, json: Option<Json>, callback: bool): (r: (Reply, seq<Json>))
    ensures status != 200 ==> r == (HttpError(status, body), [])
    ensures status == 200 && json.None? ==> r == (Reply.Raised, [])
    ensures status == 200 && json.Some? ==> r.0 == Extracted(MessageContent(json.value, JStr("")))
    ensures r.1 == (if callback && r.0.Text? then [r.0.value] else [])
  {
    if status != 200 then (HttpError(status, body), [])
    else if json.None? then (Reply.Raised, [])
    else
      var reply := Extracted(MessageContent(json.value, JStr("")));
      (reply, if callback && reply.Text? then [reply.value] else [])
  }

  /** What one decoded record does: a record marked done ends the stream,
      after yielding its content when it has some; other records yield
      their content when it is truthy. */
  function RecordStep(data: Json): (r: Step)
    ensures r.Emit? || r.EmitThenStop? ==> Truthy(r.chunk)
    ensures GetOr(data, "done", JBool(false)).Ok? && Truthy(GetOr(data, "done", JBool(false)).value) ==>
      r.Stop? || r.EmitThenStop? || r.Fail?
    ensures GetOr(data, "done", JBool(false)).Ok? && !Truthy(GetOr(data, "done", JBool(false)).value) ==>
      r.Emit? || r.Skip? || r.Fail?
  {
    match GetOr(data, "done", JBool(false))
    case Raise => Fail
    case Ok(done) =>
      if Truthy(done) && MessageContent(data, JNull).Raise? then Fail
      else if Truthy(done) && !Truthy(MessageContent(data, JNull).value) then Stop
      else match MessageContent(data, JStr(""))
        case Raise => Fail
        case Ok(piece) =>
          if Truthy(piece) then (if Truthy(done) then EmitThenStop(piece) else Emit(piece))
          else if Truthy(done) then Stop
          else Skip
  }

  /** What `generate_stream` does with one line: empty lines and malformed
      JSON are skipped; anything else is a record. */
  function StreamStep(line: string, parse: string -> Option<Json>): (r: Step)
    ensures Strip(line) == "" ==> r == Skip
    ensures Strip(line) != "" && parse(Strip(line)).None? ==> r == Skip
    ensures Strip(line) != "" && parse(Strip(line)).Some? ==> r == RecordStep(parse(Strip(line)).value)
  {
    var l := Strip(line);
    if l == "" then Skip
    else match parse(l)
      case None => Skip
      case Some(data) => RecordStep(data)
  }

  function Chunks(lines: seq<string>, parse: string -> Option<Json>): Streamed {
    Run(Steps(lines, line => StreamStep(line, parse)))
  }

  /** `generate_stream`: with a callback, each chunk is passed
      to it right before it is yielded. */
  method GenerateStream(status: int, body: string, lines: seq<string>, parse: string -> Option<Json>, callback: bool)
    returns (r: StreamReply)
    ensures status != 200 ==> r == Refused(status, body)
    ensures status == 200 ==> r == Delivered(Trace(Chunks(lines, parse).chunks, callback), Chunks(lines, parse).end)
  {
    r := Stream(status, body, lines, line => StreamStep(line, parse), callback);
  }

  /** The stream never yields an empty chunk. */
  lemma NoEmptyChunk(lines: seq<string>, parse: string -> Option<Json>)
    ensures forall c :: c in Chunks(lines, parse).chunks ==> Truthy(c)
  {
    var steps := Steps(lines, line => StreamStep(line, parse));
    ChunksComeFromSteps(steps);
    forall c | c in Chunks(lines, parse).chunks ensures Truthy(c) {
      var i :| 0 <= i < |steps| && (steps[i] == Emit(c) || steps[i] == EmitThenStop(c));
      assert steps[i] == StreamStep(lines[i], parse);
    }
  }

  /** Nothing after a record marked done is read. */
  lemma DoneEndsStream(before: seq<string>, line: string, after: seq<string>, parse: string -> Option<Json>)
    requires Strip(line) != "" && parse(Strip(line)).Some?
    requires GetOr(parse(Strip(line)).value, "done", JBool(false)) == Ok(JBool(true))
    ensures Chunks(before + [line] + after, parse).end != Exhausted
    ensures Chunks(before + [line] + after, parse) == Then(Chunks(before, parse), Run([StreamStep(line, parse)]))
  {
    var step := line => StreamStep(line, parse);
    EndingLine(before, line, after, step);
  }

  /** A record that is not done lets the loop read on: its
      content (if any) is followed by the rest of the stream. */
  lemma RecordsContinue(line: string, rest: seq<string>, parse: string -> Option<Json>)
    requires Strip(line) != "" && parse(Strip(line)).Some?
    requires StreamStep(line, parse).Emit?
    ensures Chunks([line] + rest, parse) ==
      Streamed([StreamStep(line, parse).chunk] + Chunks(rest, parse).chunks, Chunks(rest, parse).end)
  {
    var step := line => StreamStep(line, parse);
    StepsAppend([line], rest, step);
  }
}
