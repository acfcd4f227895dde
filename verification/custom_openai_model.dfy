/** The adapter for OpenAI-compatible services (models/custom_openai_model.py):
    its fallback chain for name, key, model and URL, the text it extracts
    from a reply, and what its stream does with each line. */
module CustomOpenAIModel {
  import opened Wrappers
  import opened Text
  import opened Json
  import Config
  import opened AIModel

  const DefaultName := "自定义OpenAI模型"
  const Section := "CUSTOM_OPENAI"
  const Generic := "custom_openai"

  /** A constructed `CustomOpenAIModel`. */
  datatype CustomOpenAIModel = CustomOpenAIModel(proxy: Option<Config.Proxy>, name: Json, apiKey: Json, modelName: Json, apiUrl: Json)

  /** The name: the instance's, else `CUSTOM_OPENAI.default_name`, else the
      built-in one. */
  function NameChoice(config: InstanceConfig, sections: Config.Sections): Json {
    if Has(config, "name") then Lookup(config, "name") else ConfigOr(sections, Section, "default_name", DefaultName)
  }

  /** The key: the instance's when it has one; otherwise the stored
      `custom_openai_api_key`, else the key stored under the model's name,
      else `custom_openai_api_key` again. */
  function KeyChoice(config: InstanceConfig, sections: Config.Sections, name: Json): Json {
    if Has(config, "api_key") then Lookup(config, "api_key")
    else
      var generic := FromManager(Config.ApiKey(sections, Generic));
      Or(generic, Or(FromManager(Config.ApiKey(sections, Str(name))), generic))
  }

  /** The model, by the same chain as the key. */
  function ModelChoice(config: InstanceConfig, sections: Config.Sections, name: Json): Json {
    if Has(config, "model_name") then Lookup(config, "model_name")
    else
      var generic := FromManager(Config.ModelName(sections, Generic));
      Or(generic, Or(FromManager(Config.ModelName(sections, Str(name))), generic))
  }

  /** `get_config(self.name, 'api_url', fallback=None)`: a string name is a
      section name; any other hashable name finds no section; a list or
      dict name cannot be looked up and raises. */
  function NamedSectionUrl(sections: Config.Sections, name: Json): (r: Py<Json>)
    ensures r.Raise? <==> name.JArr? || name.JObj?
  {
    if name.JStr? then Ok(FromManager(Config.GetConfig(sections, name.s, "api_url", None)))
    else if name.JArr? || name.JObj? then Raise
    else Ok(JNull)
  }

  /** The URL: the instance's `api_url` or `base_url` when it has either
      (the first truthy, else `base_url`'s value); otherwise
      `CUSTOM_OPENAI.api_url`, else the `api_url` of the section named
      after the model, else `CUSTOM_OPENAI.api_url` again. */
  function UrlChoice(config: InstanceConfig, sections: Config.Sections, name: Json): Py<Json> {
    if Has(config, "api_url") || Has(config, "base_url") then Ok(Or(Lookup(config, "api_url"), Lookup(config, "base_url")))
    else
      var generic := FromManager(Config.GetConfig(sections, Section, "api_url", None));
      if Truthy(generic) then Ok(generic)
      else match NamedSectionUrl(sections, name)
        case Raise => Raise
        case Ok(named) => Ok(Or(named, generic))
  }

  /** What `CustomOpenAIModel(config, config_manager)` settles on: there is
      no built-in model or URL, so construction fails unless a key, a model
      and a URL are all found (or the proxy setting is malformed). */
  function Resolve(config: InstanceConfig, sections: Config.Sections): (r: Py<CustomOpenAIModel>)
    ensures r.Raise? <==>
      Config.ProxySettings(sections).Raise? ||
      !Truthy(KeyChoice(config, sections, NameChoice(config, sections))) ||
      !Truthy(ModelChoice(config, sections, NameChoice(config, sections))) ||
      UrlChoice(config, sections, NameChoice(config, sections)).Raise? ||
      !Truthy(UrlChoice(config, sections, NameChoice(config, sections)).value)
    ensures r.Ok? ==>
      Truthy(r.value.apiKey) && Truthy(r.value.modelName) && Truthy(r.value.apiUrl) &&
      r.value.name == NameChoice(config, sections)
    ensures r.Ok? && Has(config, "api_key") ==> r.value.apiKey == Lookup(config, "api_key")
    ensures r.Ok? && Has(config, "model_name") ==> r.value.modelName == Lookup(config, "model_name")
    ensures r.Ok? ==>
      r.value.proxy == Config.ProxySettings(sections).value &&
      r.value.apiKey == KeyChoice(config, sections, NameChoice(config, sections)) &&
      r.value.modelName == ModelChoice(config, sections, NameChoice(config, sections)) &&
      r.value.apiUrl == UrlChoice(config, sections, NameChoice(config, sections)).value
  {
    var proxy := Config.ProxySettings(sections);
    var name := NameChoice(config, sections);
    var key := KeyChoice(config, sections, name);
    var model := ModelChoice(config, sections, name);
    var url := UrlChoice(config, sections, name);
    if proxy.Raise? || !Truthy(key) || !Truthy(model) || url.Raise? || !Truthy(url.value) then Raise
    else Ok(CustomOpenAIModel(proxy.value, name, key, model, url.value))
  }

  /** `CustomOpenAIModel.__init__`, step by step; None for no config
      manager, where the base class raises. */
  method New(config: InstanceConfig, manager: Option<Config.Sections>) returns (r: Py<CustomOpenAIModel>)
    ensures manager.None? ==> r.Raise?
    ensures manager.Some? ==> r == Resolve(config, manager.value)
  {
    if manager.None? {
      return Raise;
    }
    var sections := manager.value;
    var proxy := Config.ProxySettings(sections);
    if proxy.Raise? {
      return Raise;
    }
    var name := if Has(config, "name") then Lookup(config, "name")
                else ConfigOr(sections, Section, "default_name", DefaultName);
    var apiKey := if Has(config, "api_key") then Lookup(config, "api_key")
                  else FromManager(Config.ApiKey(sections, Generic));
    var modelName := if Has(config, "model_name") then Lookup(config, "model_name")
                     else FromManager(Config.ModelName(sections, Generic));
    var instanceUrl := Has(config, "api_url") || Has(config, "base_url");
    var apiUrl := if instanceUrl then Or(Lookup(config, "api_url"), Lookup(config, "base_url"))
                  else FromManager(Config.GetConfig(sections, Section, "api_url", None));
    if !Truthy(apiKey) {
      if !Has(config, "api_key") {
        apiKey := FromManager(Config.ApiKey(sections, Str(name)));
        if !Truthy(apiKey) {
          apiKey := FromManager(Config.ApiKey(sections, Generic));
        }
      }
      if !Truthy(apiKey) {
        return Raise;
      }
    }
    if !Truthy(modelName) {
      if !Has(config, "model_name") {
        modelName := FromManager(Config.ModelName(sections, Str(name)));
        if !Truthy(modelName) {
          modelName := FromManager(Config.ModelName(sections, Generic));
        }
      }
      if !Truthy(modelName) {
        return Raise;
      }
    }
    if !Truthy(apiUrl) {
      if !instanceUrl {
        var named := NamedSectionUrl(sections, name);
        if named.Raise? {
          return Raise;
        }
        apiUrl := named.value;
        if !Truthy(apiUrl) {
          apiUrl := FromManager(Config.GetConfig(sections, Section, "api_url", None));
        }
      }
      if !Truthy(apiUrl) {
        return Raise;
      }
    }
    r := Ok(CustomOpenAIModel(proxy.value, name, apiKey, modelName, apiUrl));
  }

  /** A key stored under the model's own name is used when no generic key
      is stored and the instance supplies none. */
  lemma NamedKeyFallback(config: InstanceConfig, sections: Config.Sections)
    requires !Has(config, "api_key")
    requires !Truthy(FromManager(Config.ApiKey(sections, Generic)))
    requires Truthy(FromManager(Config.ApiKey(sections, Str(NameChoice(config, sections)))))
    requires Resolve(config, sections).Ok?
    ensures Resolve(config, sections).value.apiKey == FromManager(Config.ApiKey(sections, Str(NameChoice(config, sections))))
  {
  }

  /** The URL's order: a truthy instance `api_url`, else the instance's
      `base_url`; without either, a non-empty `CUSTOM_OPENAI.api_url`;
      failing that, the model's name must be a section with a non-empty
      `api_url`, and that is the URL. */
  lemma UrlOrder(config: InstanceConfig, sections: Config.Sections)
    requires Resolve(config, sections).Ok?
    ensures Has(config, "api_url") && Truthy(Lookup(config, "api_url")) ==>
      Resolve(config, sections).value.apiUrl == Lookup(config, "api_url")
    ensures (Has(config, "api_url") || Has(config, "base_url")) && !Truthy(Lookup(config, "api_url")) ==>
      Resolve(config, sections).value.apiUrl == Lookup(config, "base_url")
    ensures (!Has(config, "api_url") && !Has(config, "base_url") &&
             Section in sections && "api_url" in sections[Section] && sections[Section]["api_url"] != "") ==>
      Resolve(config, sections).value.apiUrl == JStr(sections[Section]["api_url"])
    ensures (!Has(config, "api_url") && !Has(config, "base_url") &&
             !(Section in sections && "api_url" in sections[Section] && sections[Section]["api_url"] != "")) ==>
      var name := NameChoice(config, sections);
      name.JStr? && name.s in sections && "api_url" in sections[name.s] && sections[name.s]["api_url"] != "" &&
      Resolve(config, sections).value.apiUrl == JStr(sections[name.s]["api_url"])
  {
    var name := NameChoice(config, sections);
    if !Has(config, "api_url") && !Has(config, "base_url") {
      var generic := FromManager(Config.GetConfig(sections, Section, "api_url", None));
      if !Truthy(generic) {
        assert UrlChoice(config, sections, name) == Ok(Or(NamedSectionUrl(sections, name).value, generic));
      }
    }
  }

  /** The key's order: the instance's `api_key` when it has one; otherwise
      a non-empty stored `custom_openai_api_key`, else the one stored under
      the model's name. */
  lemma KeyOrder(config: InstanceConfig, sections: Config.Sections)
    requires Resolve(config, sections).Ok?
    ensures Has(config, "api_key") ==> Resolve(config, sections).value.apiKey == Lookup(config, "api_key")
    ensures !Has(config, "api_key") && Truthy(FromManager(Config.ApiKey(sections, Generic))) ==>
      Resolve(config, sections).value.apiKey == FromManager(Config.ApiKey(sections, Generic))
    ensures !Has(config, "api_key") && !Truthy(FromManager(Config.ApiKey(sections, Generic))) ==>
      Resolve(config, sections).value.apiKey == FromManager(Config.ApiKey(sections, Str(NameChoice(config, sections))))
  {
  }

  /** The request: a Bearer key. */
  function Request(m: CustomOpenAIModel, prompt: string, stream: bool): (r: AIModel.Request)
    ensures r.url == m.apiUrl && r.body == ChatBody(m.modelName, prompt, stream) && r.proxy == ProxyUrl(m.proxy)
    ensures r.headers == [("Content-Type", JStr("application/json")), ("Authorization", JStr("Bearer " + Str(m.apiKey)))]
  {
    AIModel.Request(m.apiUrl,
      [("Content-Type", JStr("application/json")), ("Authorization", JStr("Bearer " + Str(m.apiKey)))],
      ChatBody(m.modelName, prompt, stream), ProxyUrl(m.proxy))
  }

  /** The reply text: the first choice's `message.content`, else its
      `text`, else the whole reply rendered with `str`. */
  function Content(result: Json): (r: Py<Json>)
    ensures ContainsKey(result, "choices") == Ok(false) ==> r == Ok(JStr(Str(result)))
  {
    match ContainsKey(result, "choices")
    case Raise => Raise
    case Ok(hasChoices) =>
      if !hasChoices then Ok(JStr(Str(result)))
      else match Field(result, "choices")
        case Raise => Raise
        case Ok(choices) =>
          match Len(choices)
          case Raise => Raise
          case Ok(n) =>
            if n == 0 then Ok(JStr(Str(result)))
            else match At(choices, 0)
              case Raise => Raise
              case Ok(choice) =>
                match ContainsKey(choice, "message")
                case Raise => Raise
                case Ok(hasMessage) =>
                  if hasMessage then
                    match Field(choice, "message") case Raise => Raise case Ok(message) => Field(message, "content")
                  else match ContainsKey(choice, "text")
                    case Raise => Raise
                    case Ok(hasText) => if hasText then Field(choice, "text") else Ok(JStr(Str(result)))
  }

  /** A reply whose first choice is a completion text gives that text. */
  lemma TextOfCompletion(text: Json)
    ensures Content(JObj([("choices", JArr([JObj([("text", text)])]))])) == Ok(text)
  {
  }

  /** `generate`: every exception leaves wrapped, but an HTTP error still
      carries the status and body. */
  function Generate(status: int, body: string, json: Option<Json>): (r: Reply)
    ensures status != 200 ==> r == HttpError(status, body)
    ensures status == 200 && json.None? ==> r == Reply.Raised
    ensures status == 200 && json.Some? ==> r == Extracted(Content(json.value))
  {
    if status != 200 then HttpError(status, body)
    else if json.None? then Reply.Raised
    else Extracted(Content(json.value))
  }

  const DataPrefix := "data: "
  const DoneLine := "data: [DONE]"

  /** The text of one streamed record: the first choice's `delta.content`,
      else its `text`; None for a record with neither (or no choices). */
  function RecordText(data: Json): Py<Option<Json>> {
    match ContainsKey(data, "choices")
    case Raise => Raise
    case Ok(hasChoices) =>
      if !hasChoices then Ok(None)
      else match Field(data, "choices")
        case Raise => Raise
        case Ok(choices) =>
          match Len(choices)
          case Raise => Raise
          case Ok(n) =>
            if n == 0 then Ok(None)
            else match At(choices, 0)
              case Raise => Raise
              case Ok(choice) =>
                match ContainsKey(choice, "delta")
                case Raise => Raise
                case Ok(hasDelta) =>
                  var deltaContent :=
                    if !hasDelta then Ok(false)
                    else match Field(choice, "delta") case Raise => Raise case Ok(delta) => ContainsKey(delta, "content");
                  match deltaContent
                  case Raise => Raise
                  case Ok(true) =>
                    (match Field(choice, "delta")
                     case Raise => Raise
                     case Ok(delta) => match Field(delta, "content") case Raise => Raise case Ok(c) => Ok(Some(c)))
                  case Ok(false) =>
                    match ContainsKey(choice, "text")
                    case Raise => Raise
                    case Ok(hasText) =>
                      if hasText then (match Field(choice, "text") case Raise => Raise case Ok(t) => Ok(Some(t)))
                      else Ok(None)
  }

  /** The JSON text of a line: the line without its `data: ` prefix, or the
      whole line when it has none. */
  function Payload(l: string): (r: string)
    ensures StartsWith(l, DataPrefix) ==> l == DataPrefix + r
    ensures !StartsWith(l, DataPrefix) ==> r == l
  {
    if StartsWith(l, DataPrefix) then l[6..] else l
  }

  /** What `generate_stream` does with one line: empty lines and
      `data: [DONE]` are skipped; the `data: ` prefix is optional;
      malformed JSON and records without text are skipped; the text of any
      other record is yielded, even an empty one. */
  function StreamStep(line: string, parse: string -> Option<Json>): (r: Step)
    ensures Strip(line) == "" || Strip(line) == DoneLine ==> r == Skip
    ensures (Strip(line) != "" && Strip(line) != DoneLine && parse(Payload(Strip(line))).None?) ==> r == Skip
    ensures !r.Stop? && !r.EmitThenStop?
  {
    var l := Strip(line);
    if l == "" || l == DoneLine then Skip
    else match parse(Payload(l))
      case None => Skip
      case Some(data) =>
        match RecordText(data)
        case Raise => Fail
        case Ok(None) => Skip
        case Ok(Some(t)) => Emit(t)
  }

  /** A line without the `data: ` prefix is read like the same line with
      it (except `[DONE]`, which only ends the stream when prefixed). */
  lemma PrefixIsOptional(l: string, parse: string -> Option<Json>)
    requires l != "" && Strip(l) == l && !StartsWith(l, DataPrefix) && l != "[DONE]"
    ensures StreamStep(DataPrefix + l, parse) == StreamStep(l, parse)
  {
    var p := DataPrefix + l;
    assert p[0] == 'd';
    assert p[|p| - 1] == l[|l| - 1];
    StripNoSpace(p);
    assert StartsWith(p, DataPrefix);
    assert p[6..] == l;
  }

  function Chunks(lines: seq<string>, parse: string -> Option<Json>): Streamed {
    Run(Steps(lines, line => StreamStep(line, parse)))
  }

  /** `generate_stream`: with a callback, each chunk is passed to it right
      before it is yielded. */
  method GenerateStream(status: int, body: string, lines: seq<string>, parse: string -> Option<Json>, callback: bool)
    returns (r: StreamReply)
    ensures status != 200 ==> r == Refused(status, body)
    ensures status == 200 ==> r == Delivered(Trace(Chunks(lines, parse).chunks, callback), Chunks(lines, parse).end)
  {
    r := Stream(status, body, lines, line => StreamStep(line, parse), callback);
  }

  /** `data: [DONE]` is skipped, not a stop. */
  lemma DoneIsSkipped(before: seq<string>, after: seq<string>, parse: string -> Option<Json>)
    ensures Chunks(before + [DoneLine] + after, parse) == Chunks(before + after, parse)
  {
    var step := line => StreamStep(line, parse);
    assert step(DoneLine) == Skip;
    SkippedLine(before, DoneLine, after, step);
  }
}
