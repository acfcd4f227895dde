/** The configuration resolver (utils/config_manager.py): an INI-style
    configuration of sections of string options, read by the model adapters
    through key-name conventions, the proxy setting, and a list of custom
    OpenAI-compatible model profiles stored as JSON text in one option.

    Reading the INI file and `json.loads` / `json.dumps` are not modelled:
    the parsed sections are an input, and the two JSON functions are given
    to the manager (`parse` answers None where `json.loads` raises
    JSONDecodeError). */
module Config {
  import opened Wrappers
  import opened Text
  import opened Json

  /** The options of the configuration, section by section. */
  type Sections = map<string, map<string, string>>

  /** The section and option holding the custom model list. */
  const ModelsSection := "CUSTOM_OPENAI_MODELS"

  /** What `ConfigManager.__init__` is given: a path (with the sections the
      file holds, or None when no file exists there), a dict of sections,
      None, or a value of any other type. */
  datatype ConfigSource = FilePath(path: string, contents: Option<Sections>) | Mapping(sections: Sections) | NoSource | OtherValue

  /** The sections a new manager starts from; any other type of source is
      a TypeError. */
  function InitialSections(source: ConfigSource): (r: Py<Sections>)
    ensures r.Raise? <==> source.OtherValue?
    ensures source.NoSource? || (source.FilePath? && source.contents.None?) ==> r == Ok(map[])
    ensures source.Mapping? ==> r == Ok(source.sections)
  {
    match source
    case FilePath(_, contents) => Ok(if contents.Some? then contents.value else map[])
    case Mapping(sections) => Ok(sections)
    case NoSource => Ok(map[])
    case OtherValue => Raise
  }

  /** `section.get(option, fallback)`. */
  function OptionOr(sections: Sections, section: string, option: string, fallback: string): (r: string)
    requires section in sections
    ensures option in sections[section] ==> r == sections[section][option]
    ensures option !in sections[section] ==> r == fallback
  {
    if option in sections[section] then sections[section][option] else fallback
  }

  /** `get_config`: the option's value, or the fallback when the section or
      the option is missing. */
  function GetConfig(sections: Sections, section: string, option: string, fallback: Option<string>): (r: Option<string>)
    ensures section in sections && option in sections[section] ==> r == Some(sections[section][option])
    ensures section !in sections || option !in sections[section] ==> r == fallback
  {
    if section in sections && option in sections[section] then Some(sections[section][option]) else fallback
  }

  /** `get_api_key(t)`: option `{t}_api_key` of section API_KEYS. */
  function ApiKey(sections: Sections, modelType: string): (r: Option<string>)
    ensures "API_KEYS" !in sections ==> r.None?
    ensures "API_KEYS" in sections ==> r == GetConfig(sections, "API_KEYS", modelType + "_api_key", None)
  {
    if "API_KEYS" !in sections then None
    else GetConfig(sections, "API_KEYS", modelType + "_api_key", None)
  }

  /** `get_model_name(t)`: option `{t}_model` of section MODELS. */
  function ModelName(sections: Sections, modelType: string): (r: Option<string>)
    ensures "MODELS" !in sections ==> r.None?
    ensures "MODELS" in sections ==> r == GetConfig(sections, "MODELS", modelType + "_model", None)
  {
    if "MODELS" !in sections then None
    else GetConfig(sections, "MODELS", modelType + "_model", None)
  }

  /** `getboolean`: the words configparser accepts, compared in lower case;
      None is ValueError. */
  function BooleanValue(s: string): (r: Option<bool>)
    ensures r == Some(true) <==> LowerAscii(s) in ["1", "yes", "true", "on"]
    ensures r == Some(false) <==> LowerAscii(s) in ["0", "no", "false", "off"]
  {
    var w := LowerAscii(s);
    if w in ["1", "yes", "true", "on"] then Some(true)
    else if w in ["0", "no", "false", "off"] then Some(false)
    else None
  }

  /** The proxies handed to the HTTP client. */
  datatype Proxy = Proxy(http: string, https: string)

  /** The proxy URL for a host and port. */
  function ProxyUrl(host: string, port: int): string {
    "http://" + host + ":" + IntToString(port)
  }

  /** `get_proxy_settings`: None without a PROXY section or when it is
      disabled (enabled by default); otherwise both schemes go through
      `http://host:port`, with host 127.0.0.1 and port 10808 by default. A
      malformed `enabled` or `port` is a ValueError. */
  function ProxySettings(sections: Sections): (r: Py<Option<Proxy>>)
    ensures "PROXY" !in sections ==> r == Ok(None)
    ensures ("PROXY" in sections && "enabled" in sections["PROXY"] &&
             BooleanValue(sections["PROXY"]["enabled"]).None?) ==> r.Raise?
    ensures ("PROXY" in sections && "enabled" in sections["PROXY"] &&
             BooleanValue(sections["PROXY"]["enabled"]) == Some(false)) ==> r == Ok(None)
    ensures r.Ok? && r.value.Some? ==>
      "PROXY" in sections && r.value.value.http == r.value.value.https &&
      StartsWith(r.value.value.http, "http://" + OptionOr(sections, "PROXY", "host", "127.0.0.1") + ":")
    ensures ("PROXY" in sections &&
             ("enabled" !in sections["PROXY"] || BooleanValue(sections["PROXY"]["enabled"]) == Some(true))) ==>
      var host := OptionOr(sections, "PROXY", "host", "127.0.0.1");
      var port := if "port" in sections["PROXY"] then ParseInt(sections["PROXY"]["port"]) else Some(10808);
      (port.None? ==> r.Raise?) &&
      (port.Some? ==> r == Ok(Some(Proxy(ProxyUrl(host, port.value), ProxyUrl(host, port.value)))))
  {
    if "PROXY" !in sections then Ok(None)
    else
      var enabled := if "enabled" in sections["PROXY"] then BooleanValue(sections["PROXY"]["enabled"]) else Some(true);
      if enabled.None? then Raise
      else if !enabled.value then Ok(None)
      else
        var host := OptionOr(sections, "PROXY", "host", "127.0.0.1");
        var port := if "port" in sections["PROXY"] then ParseInt(sections["PROXY"]["port"]) else Some(10808);
        if port.None? then Raise
        else Ok(Some(Proxy(ProxyUrl(host, port.value), ProxyUrl(host, port.value))))
  }

  /** An empty PROXY section gives the default proxy. */
  lemma DefaultProxy(sections: Sections)
    requires "PROXY" in sections && sections["PROXY"] == map[]
    ensures ProxySettings(sections) == Ok(Some(Proxy("http://127.0.0.1:10808", "http://127.0.0.1:10808")))
  {
    DefaultPortText();
    assert ProxyUrl("127.0.0.1", 10808) == "http://127.0.0.1:10808";
  }

  lemma DefaultPortText()
    ensures IntToString(10808) == "10808"
  {
    assert DigitChar(8) == '8' && DigitChar(0) == '0' && DigitChar(1) == '1';
    assert NatToString(1) == "1";
    assert NatToString(10) == "10";
    assert NatToString(108) == "108";
    assert NatToString(1080) == "1080";
    assert NatToString(10808) == "10808";
  }

  /** The port read back from the proxy URL is the configured port: the
      text after `http://host:` parses to the same number as the `port`
      option. */
  lemma ProxyPortRoundTrip(sections: Sections)
    requires ProxySettings(sections).Ok? && ProxySettings(sections).value.Some?
    ensures var url := ProxySettings(sections).value.value.http;
            var prefix := "http://" + OptionOr(sections, "PROXY", "host", "127.0.0.1") + ":";
            ParseInt(url[|prefix|..]) ==
              (if "port" in sections["PROXY"] then ParseInt(sections["PROXY"]["port"]) else Some(10808))
  {
    var host := OptionOr(sections, "PROXY", "host", "127.0.0.1");
    var port := if "port" in sections["PROXY"] then ParseInt(sections["PROXY"]["port"]) else Some(10808);
    var prefix := "http://" + host + ":";
    assert ProxyUrl(host, port.value)[|prefix|..] == IntToString(port.value);
    ParseIntRoundTrip(port.value);
  }

  /** `model.get('name')`: only a dict has `.get`; a missing name is None. */
  function NameOf(m: Json): (r: Py<Json>)
    ensures r.Ok? <==> m.JObj?
  {
    GetOr(m, "name", JNull)
  }

  /** The position of the first profile named `name`, scanning in order;
      a profile that is not a dict raises when the scan reaches it. */
  function FirstNamed(items: seq<Json>, name: Json): (r: Py<Option<nat>>)
    ensures r.Ok? && r.value.Some? ==>
      r.value.value < |items| && NameOf(items[r.value.value]) == Ok(name)
    ensures r.Ok? ==> forall j :: 0 <= j < (if r.value.Some? then r.value.value else |items|) ==>
      NameOf(items[j]).Ok? && NameOf(items[j]).value != name
    ensures r.Raise? ==> exists j :: 0 <= j < |items| && !items[j].JObj? &&
                                     (forall k :: 0 <= k < j ==> NameOf(items[k]).Ok? && NameOf(items[k]).value != name)
    decreases |items|
  {
    if items == [] then Ok(None)
    else match NameOf(items[0])
      case Raise => Raise
      case Ok(n) =>
        if n == name then Ok(Some(0))
        else match FirstNamed(items[1..], name)
          case Raise => Raise
          case Ok(None) => Ok(None)
          case Ok(Some(i)) => Ok(Some(i + 1))
  }

  /** The list comprehension of `delete_custom_openai_model`: the profiles
      not named `name`, in order. */
  function WithoutNamed(items: seq<Json>, name: Json): (r: Py<seq<Json>>)
    ensures r.Raise? <==> exists j :: 0 <= j < |items| && !items[j].JObj?
    ensures r.Ok? ==> |r.value| <= |items|
    ensures r.Ok? ==> forall m :: m in r.value <==> m in items && NameOf(m) != Ok(name)
    ensures r.Ok? ==> (|r.value| < |items| <==> exists j :: 0 <= j < |items| && NameOf(items[j]) == Ok(name))
    decreases |items|
  {
    if items == [] then Ok([])
    else match (NameOf(items[0]), WithoutNamed(items[1..], name))
      case (Raise, _) => Raise
      case (_, Raise) => Raise
      case (Ok(n), Ok(rest)) =>
        assert forall j :: 0 < j < |items| ==> items[j] == items[1..][j - 1];
        if n == name then Ok(rest) else Ok([items[0]] + rest)
  }

  /** `get_custom_openai_models`: the parsed `models` option (default
      `[]`), or `[]` without the section or when the text is not JSON. */
  function StoredModels(sections: Sections, parse: string -> Option<Json>): (r: Json)
    ensures ModelsSection !in sections ==> r == JArr([])
    ensures ModelsSection in sections && parse(OptionOr(sections, ModelsSection, "models", "[]")).None? ==> r == JArr([])
  {
    if ModelsSection !in sections then JArr([])
    else match parse(OptionOr(sections, ModelsSection, "models", "[]"))
      case None => JArr([])
      case Some(j) => j
  }

  /** `get_custom_openai_model`: the first profile named `name`, None when
      there is none; iterating a value that is not a container, or reaching
      a profile that is not a dict, raises. */
  function ProfileNamed(models: Json, name: string): (r: Py<Option<Json>>)
    ensures models.JArr? && r.Ok? && r.value.Some? ==>
      r.value.value in models.items && NameOf(r.value.value) == Ok(JStr(name))
    ensures models.JArr? && r == Ok(None) ==>
      forall m :: m in models.items ==> NameOf(m).Ok? && NameOf(m).value != JStr(name)
  {
    match Iterate(models)
    case Raise => Raise
    case Ok(items) =>
      match FirstNamed(items, JStr(name))
      case Raise => Raise
      case Ok(None) => Ok(None)
      case Ok(Some(i)) => Ok(Some(items[i]))
  }

  /** The duplicate check of `add_custom_openai_model`: the position of a
      stored profile with the new profile's name. The new profile's
      `.get('name')` is evaluated only when some profile is compared. */
  function Duplicate(items: seq<Json>, config: Json): (r: Py<Option<nat>>)
    ensures items == [] ==> r == Ok(None)
    ensures items != [] && !config.JObj? ==> r.Raise?
    ensures items != [] && config.JObj? ==> r == FirstNamed(items, NameOf(config).value)
  {
    if items == [] then Ok(None)
    else if !config.JObj? then Raise
    else FirstNamed(items, NameOf(config).value)
  }

  /** Appending a profile whose name no stored profile has makes it the
      profile found by that name. */
  lemma {:induction false} AddedIsFound(items: seq<Json>, config: Json)
    requires config.JObj? && FirstNamed(items, NameOf(config).value) == Ok(None)
    ensures FirstNamed(items + [config], NameOf(config).value) == Ok(Some(|items|))
    decreases |items|
  {
    if items != [] {
      assert (items + [config])[1..] == items[1..] + [config];
      AddedIsFound(items[1..], config);
    }
  }

  /** After deleting a name, no profile of that name is found. */
  lemma DeletedIsGone(items: seq<Json>, name: Json)
    requires WithoutNamed(items, name).Ok?
    ensures FirstNamed(WithoutNamed(items, name).value, name) == Ok(None)
  {
  }

  /** With `json.loads` inverting `json.dumps` on lists, the list written
      back is the list read next. */
  lemma WrittenIsRead(sections: Sections, parse: string -> Option<Json>, dump: seq<Json> -> string, items: seq<Json>)
    requires forall l :: parse(dump(l)) == Some(JArr(l))
    requires ModelsSection in sections && "models" in sections[ModelsSection] &&
             sections[ModelsSection]["models"] == dump(items)
    ensures StoredModels(sections, parse) == JArr(items)
  {
    assert parse(dump(items)) == Some(JArr(items));
  }

  /** `ConfigManager`: the parsed configuration, edited in memory. */
  class ConfigManager {
    var sections: Sections
    /** The path given to `__init__`, if it was given one. */
    const configPath: Option<string>
    /** `json.loads`, None for a JSONDecodeError. */
    const parse: string -> Option<Json>
    /** `json.dumps` of a list. */
    const dump: seq<Json> -> string

    constructor (sections: Sections, configPath: Option<string>, parse: string -> Option<Json>, dump: seq<Json> -> string)
      ensures this.sections == sections && this.configPath == configPath
      ensures this.parse == parse && this.dump == dump
    {
      this.sections := sections;
      this.configPath := configPath;
      this.parse := parse;
      this.dump := dump;
    }

    /** `ConfigManager(config_source)`: TypeError for a source of another
        type; otherwise the file's or the dict's sections (none for None or
        a missing file), the path kept only for a path. */
    static method Create(source: ConfigSource, parse: string -> Option<Json>, dump: seq<Json> -> string)
      returns (r: Py<ConfigManager>)
      ensures r.Raise? <==> source.OtherValue?
      ensures r.Ok? ==> fresh(r.value) && r.value.sections == InitialSections(source).value
      ensures r.Ok? ==> r.value.configPath == (if source.FilePath? then Some(source.path) else None)
      ensures r.Ok? ==> r.value.parse == parse && r.value.dump == dump
    {
      var initial := InitialSections(source);
      if initial.Raise? {
        return Raise;
      }
      var m := new ConfigManager(initial.value, if source.FilePath? then Some(source.path) else None, parse, dump);
      r := Ok(m);
    }

    /** `set_config`: the option is set, creating the section if needed;
        nothing else changes. */
    method SetConfig(section: string, option: string, value: string)
      modifies this
      ensures section in sections && option in sections[section] && sections[section][option] == value
      ensures forall o :: o != option && section in old(sections) && o in old(sections)[section] ==>
        o in sections[section] && sections[section][o] == old(sections)[section][o]
      ensures sections == old(sections)[section :=
        (if section in old(sections) then old(sections)[section] else map[])[option := value]]
    {
      var current := if section in sections then sections[section] else map[];
      sections := sections[section := current[option := value]];
    }

    /** `get_custom_openai_model`, with its loop. */
    method GetCustomModel(name: string) returns (r: Py<Option<Json>>)
      ensures r == ProfileNamed(StoredModels(sections, parse), name)
    {
      var models := StoredModels(sections, parse);
      var listed := Iterate(models);
      if listed.Raise? {
        return Raise;
      }
      var found := FindNamed(listed.value, JStr(name));
      r := match found
        case Raise => Raise
        case Ok(None) => Ok(None)
        case Ok(Some(i)) => Ok(Some(listed.value[i]));
    }

    /** `add_custom_openai_model`: the section is created (with an empty
        list) if missing; then a profile whose name is already stored is
        refused, and otherwise the profile is appended and the list written
        back, with `enabled` set. */
    method AddCustomModel(config: Json) returns (r: Py<bool>)
      modifies this
      ensures var start := if ModelsSection in old(sections) then old(sections)
                           else old(sections)[ModelsSection := map["models" := "[]"]];
        var models := StoredModels(start, parse);
        var listed := Iterate(models);
        (r.Raise? <==> listed.Raise? || Duplicate(listed.value, config).Raise? ||
                       (Duplicate(listed.value, config) == Ok(None) && !models.JArr?)) &&
        (r == Ok(false) <==> listed.Ok? && Duplicate(listed.value, config).Ok? && Duplicate(listed.value, config).value.Some?) &&
        (r == Ok(true) ==> (models.JArr? &&
          sections == start[ModelsSection := start[ModelsSection]["models" := dump(models.items + [config])]["enabled" := "true"]])) &&
        (r != Ok(true) ==> sections == start)
    {
      if ModelsSection !in sections {
        sections := sections[ModelsSection := map["models" := "[]"]];
      }
      var models := StoredModels(sections, parse);
      var listed := Iterate(models);
      if listed.Raise? {
        return Raise;
      }
      var dup := Ok(None);
      if listed.value != [] {
        if !config.JObj? {
          return Raise;
        }
        dup := FindNamed(listed.value, NameOf(config).value);
      }
      if dup.Raise? {
        return Raise;
      }
      if dup.value.Some? {
        return Ok(false);
      }
      if !models.JArr? {
        return Raise;
      }
      var section := sections[ModelsSection]["models" := dump(models.items + [config])]["enabled" := "true"];
      sections := sections[ModelsSection := section];
      r := Ok(true);
    }

    /** `update_custom_openai_model`: false without the section or when no
        profile has the name; otherwise the first profile with the name is
        replaced and the list written back. */
    method UpdateCustomModel(name: string, config: Json) returns (r: Py<bool>)
      modifies this
      ensures ModelsSection !in old(sections) ==> r == Ok(false) && sections == old(sections)
      ensures ModelsSection in old(sections) ==>
        var listed := Iterate(StoredModels(old(sections), parse));
        (r.Raise? <==> listed.Raise? || FirstNamed(listed.value, JStr(name)).Raise?) &&
        (r == Ok(false) <==> listed.Ok? && FirstNamed(listed.value, JStr(name)) == Ok(None)) &&
        (r == Ok(true) ==>
          var i := FirstNamed(listed.value, JStr(name)).value.value;
          sections == old(sections)[ModelsSection := old(sections)[ModelsSection]["models" := dump(listed.value[i := config])]])
      ensures r != Ok(true) ==> sections == old(sections)
    {
      if ModelsSection !in sections {
        return Ok(false);
      }
      var listed := Iterate(StoredModels(sections, parse));
      if listed.Raise? {
        return Raise;
      }
      var found := FindNamed(listed.value, JStr(name));
      if found.Raise? {
        return Raise;
      }
      if found.value.None? {
        return Ok(false);
      }
      SetConfig(ModelsSection, "models", dump(listed.value[found.value.value := config]));
      r := Ok(true);
    }

    /** `delete_custom_openai_model`: false without the section; otherwise
        every profile with the name is dropped, and the list is written back
        and true returned when at least one was. */
    method DeleteCustomModel(name: string) returns (r: Py<bool>)
      modifies this
      ensures ModelsSection !in old(sections) ==> r == Ok(false) && sections == old(sections)
      ensures ModelsSection in old(sections) ==>
        var models := StoredModels(old(sections), parse);
        var listed := Iterate(models);
        (r.Raise? <==> Len(models).Raise? || WithoutNamed(listed.value, JStr(name)).Raise?) &&
        (r == Ok(true) ==> (|WithoutNamed(listed.value, JStr(name)).value| < Len(models).value &&
          sections == old(sections)[ModelsSection := old(sections)[ModelsSection]["models" := dump(WithoutNamed(listed.value, JStr(name)).value)]])) &&
        (r.Ok? ==> (r.value <==> |WithoutNamed(listed.value, JStr(name)).value| < Len(models).value))
      ensures r != Ok(true) ==> sections == old(sections)
    {
      if ModelsSection !in sections {
        return Ok(false);
      }
      var models := StoredModels(sections, parse);
      var originalLen := Len(models);
      if originalLen.Raise? {
        return Raise;
      }
      var listed := Iterate(models);
      var kept := WithoutNamed(listed.value, JStr(name));
      if kept.Raise? {
        return Raise;
      }
      if |kept.value| < originalLen.value {
        SetConfig(ModelsSection, "models", dump(kept.value));
        return Ok(true);
      }
      r := Ok(false);
    }
  }

  /** The scan shared by the three loops over the profiles: stops at the
      first profile named `name`, raises at a profile that is not a dict. */
  method FindNamed(items: seq<Json>, name: Json) returns (r: Py<Option<nat>>)
    ensures r == FirstNamed(items, name)
  {
    var i := 0;
    assert items[0..] == items;
    while i < |items|
      invariant 0 <= i <= |items|
      invariant FirstNamed(items, name) == Shifted(FirstNamed(items[i..], name), i)
    {
      ScanStep(items, name, i);
      var n := NameOf(items[i]);
      if n.Raise? {
        return Raise;
      }
      if n.value == name {
        return Ok(Some(i));
      }
      i := i + 1;
    }
    assert items[i..] == [];
    r := Ok(None);
  }

  /** One step of the scan, on the suffix from `i`. */
  lemma FirstNamedStep(items: seq<Json>, name: Json, i: nat)
    requires i < |items|
    ensures FirstNamed(items[i..], name) ==
      match NameOf(items[i])
      case Raise => Raise
      case Ok(n) => if n == name then Ok(Some(0)) else Shifted(FirstNamed(items[i + 1..], name), 1)
  {
    assert items[i..][1..] == items[i + 1..];
  }

  /** One step of the scan, as a position in the whole sequence. */
  lemma ScanStep(items: seq<Json>, name: Json, i: nat)
    requires i < |items|
    ensures NameOf(items[i]).Raise? ==> Shifted(FirstNamed(items[i..], name), i) == Raise
    ensures NameOf(items[i]) == Ok(name) ==> Shifted(FirstNamed(items[i..], name), i) == Ok(Some(i))
    ensures NameOf(items[i]).Ok? && NameOf(items[i]).value != name ==>
      Shifted(FirstNamed(items[i..], name), i) == Shifted(FirstNamed(items[i + 1..], name), i + 1)
  {
    FirstNamedStep(items, name, i);
    ShiftedTwice(FirstNamed(items[i + 1..], name), 1, i);
  }

  lemma ShiftedTwice(r: Py<Option<nat>>, a: nat, b: nat)
    ensures Shifted(Shifted(r, a), b) == Shifted(r, a + b)
  {
  }

  /** A position found in a suffix starting at `offset`, as a position in
      the whole sequence. */
  function Shifted(r: Py<Option<nat>>, offset: nat): Py<Option<nat>> {
    match r
    case Raise => Raise
    case Ok(None) => Ok(None)
    case Ok(Some(i)) => Ok(Some(i + offset))
  }
}
