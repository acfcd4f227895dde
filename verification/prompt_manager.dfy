/** Prompt templates (utils/prompt_manager.py): `PromptTemplate` records,
    their dictionary form, and `PromptManager`, a dictionary of templates
    keyed by name that is loaded from a parsed JSON file and edited in
    memory.

    A template read from a file may hold any JSON value in any field, so the
    fields are `Json`; templates made by `add_template` hold strings. The
    template dictionary is keyed by the template's name, which must be
    hashable: a list or dict name raises TypeError. */
module PromptManager {
  import opened Wrappers
  import Dicts
  import opened Json

  /** `PromptTemplate`: name, content, category, description and creation
      time. */
  datatype Template = Template(name: Json, content: Json, category: Json, description: Json, createdAt: Json)

  /** `created_at or time.time()`: a missing or falsy time becomes the
      current time. */
  function Stamp(createdAt: Json, now: int): (r: Json)
    ensures Truthy(createdAt) ==> r == createdAt
    ensures !Truthy(createdAt) ==> r == JNum(now)
  {
    if Truthy(createdAt) then createdAt else JNum(now)
  }

  /** `PromptTemplate.to_dict`. */
  function ToDict(t: Template): seq<(string, Json)> {
    [("name", t.name), ("content", t.content), ("category", t.category),
     ("description", t.description), ("created_at", t.createdAt)]
  }

  function GetOrDefault(d: seq<(string, Json)>, k: string, default: Json): (r: Json)
    ensures Dicts.HasKey(d, k) ==> Some(r) == Dicts.Get(d, k)
    ensures !Dicts.HasKey(d, k) ==> r == default
  {
    match Dicts.Get(d, k) case Some(v) => v case None => default
  }

  /** `PromptTemplate.from_dict`: each field from the dict, with the
      defaults "", "", "general", "" and the current time. */
  function FromDict(d: seq<(string, Json)>, now: int): Template {
    Template(GetOrDefault(d, "name", JStr("")), GetOrDefault(d, "content", JStr("")),
             GetOrDefault(d, "category", JStr("general")), GetOrDefault(d, "description", JStr("")),
             Stamp(GetOrDefault(d, "created_at", JNum(now)), now))
  }

  /** `from_dict(to_dict(t))` gives `t` back; the creation time survives as
      long as it is truthy, which a real timestamp is. */
  lemma FromDictToDict(t: Template, now: int)
    requires Truthy(t.createdAt)
    ensures FromDict(ToDict(t), now) == t
  {
    ToDictLeading(t);
    ToDictTrailing(t);
  }

  lemma ToDictLeading(t: Template)
    ensures Dicts.Get(ToDict(t), "name") == Some(t.name)
    ensures Dicts.Get(ToDict(t), "content") == Some(t.content)
    ensures Dicts.Get(ToDict(t), "category") == Some(t.category)
  {
  }

  lemma ToDictTrailing(t: Template)
    ensures Dicts.Get(ToDict(t), "description") == Some(t.description)
    ensures Dicts.Get(ToDict(t), "created_at") == Some(t.createdAt)
  {
    var d := ToDict(t);
    assert d[3..] == [("description", t.description), ("created_at", t.createdAt)];
    assert d[3..][1..] == [("created_at", t.createdAt)];
    assert Dicts.Get(d, "description") == Dicts.Get(d[3..], "description");
    assert Dicts.Get(d, "created_at") == Dicts.Get(d[3..][1..], "created_at");
  }

  /** A dict with none of the fields gives the defaults. */
  lemma FromDictDefaults(now: int)
    ensures FromDict([], now) == Template(JStr(""), JStr(""), JStr("general"), JStr(""), Stamp(JNum(now), now))
  {
  }

  /** Python can use the value as a dict key. */
  predicate Hashable(j: Json) {
    !j.JArr? && !j.JObj?
  }

  /** The template dictionary, keyed by name. */
  type Templates = seq<(Json, Template)>

  /** Every template is stored under its own name. */
  predicate KeyedByName(d: Templates) {
    forall i :: 0 <= i < |d| ==> d[i].1.name == d[i].0
  }

  /** `templates[template.name] = template`. */
  function Store(d: Py<Templates>, t: Option<Template>): (r: Py<Templates>)
    ensures d.Raise? ==> r.Raise?
  {
    match d
    case Raise => Raise
    case Ok(m) =>
      match t
      case None => Ok(m)
      case Some(tt) => if Hashable(tt.name) then Ok(Dicts.Put(m, tt.name, tt)) else Raise
  }

  /** Storing templates one by one, in order, from `start`. */
  function StoreAll(start: Templates, ts: seq<Option<Template>>): Py<Templates>
    decreases |ts|
  {
    if ts == [] then Ok(start) else Store(StoreAll(start, ts[..|ts| - 1]), ts[|ts| - 1])
  }

  /** The template a list entry gives: a dict becomes a template, anything
      else is skipped. */
  function ListEntry(item: Json, now: int): Option<Template> {
    if item.JObj? then Some(FromDict(item.fields, now)) else None
  }

  /** The template a dict entry gives: as for a list entry, the key being
      the name when the entry has none. */
  function DictEntry(key: string, item: Json, now: int): Option<Template> {
    if item.JObj? then
      Some(FromDict(if Dicts.HasKey(item.fields, "name") then item.fields
                    else Dicts.Put(item.fields, "name", JStr(key)), now))
    else None
  }

  function ListEntries(items: seq<Json>, now: int): (r: seq<Option<Template>>)
    ensures |r| == |items|
  {
    seq(|items|, i requires 0 <= i < |items| => ListEntry(items[i], now))
  }

  function DictEntries(fields: seq<(string, Json)>, now: int): (r: seq<Option<Template>>)
    ensures |r| == |fields|
  {
    seq(|fields|, i requires 0 <= i < |fields| => DictEntry(fields[i].0, fields[i].1, now))
  }

  /** The templates `_load_templates` adds to `start` for a parsed file: a
      list of template dicts, or a dict of them keyed by name; any other
      value adds nothing. */
  function Loaded(start: Templates, data: Json, now: int): Py<Templates> {
    match data
    case JArr(items) => StoreAll(start, ListEntries(items, now))
    case JObj(fields) => StoreAll(start, DictEntries(fields, now))
    case _ => Ok(start)
  }

  /** Storing keeps the dictionary keyed by name, with distinct keys. */
  lemma {:induction false} StoreAllKeyed(start: Templates, ts: seq<Option<Template>>)
    requires Dicts.DistinctKeys(start) && KeyedByName(start)
    ensures StoreAll(start, ts).Ok? ==>
      Dicts.DistinctKeys(StoreAll(start, ts).value) && KeyedByName(StoreAll(start, ts).value)
    decreases |ts|
  {
    if ts != [] {
      StoreAllKeyed(start, ts[..|ts| - 1]);
      var before := StoreAll(start, ts[..|ts| - 1]);
      var t := ts[|ts| - 1];
      if before.Ok? && t.Some? && Hashable(t.value.name) {
        Dicts.PutDistinct(before.value, t.value.name, t.value);
        PutKeyed(before.value, t.value);
      }
    }
  }

  lemma {:induction false} PutKeyed(d: Templates, t: Template)
    requires KeyedByName(d)
    ensures KeyedByName(Dicts.Put(d, t.name, t))
    decreases |d|
  {
    if d != [] && d[0].0 != t.name {
      PutKeyed(d[1..], t);
      assert Dicts.Put(d, t.name, t) == [d[0]] + Dicts.Put(d[1..], t.name, t);
    }
  }

  lemma {:induction false} RemoveKeyed(d: Templates, k: Json)
    requires KeyedByName(d)
    ensures KeyedByName(Dicts.Remove(d, k))
    decreases |d|
  {
    if d != [] {
      RemoveKeyed(d[1..], k);
      if d[0].0 != k {
        assert Dicts.Remove(d, k) == [d[0]] + Dicts.Remove(d[1..], k);
      }
    }
  }

  /** A later template with the same name replaces an earlier one: the
      template stored under a name is the last one loaded with that name. */
  lemma {:induction false} StoreAllLastWins(start: Templates, ts: seq<Option<Template>>, i: nat)
    requires i < |ts| && ts[i].Some?
    requires forall j :: i < j < |ts| && ts[j].Some? ==> ts[j].value.name != ts[i].value.name
    requires StoreAll(start, ts).Ok?
    ensures Dicts.Get(StoreAll(start, ts).value, ts[i].value.name) == ts[i]
    decreases |ts|
  {
    var init := ts[..|ts| - 1];
    var last := ts[|ts| - 1];
    var before := StoreAll(start, init);
    assert before.Ok?;
    if i == |ts| - 1 {
    } else {
      StoreAllLastWins(start, init, i);
      if last.Some? {
        Dicts.PutOther(before.value, last.value.name, last.value, ts[i].value.name);
      }
    }
  }

  /** An entry that is not a dict adds nothing. */
  lemma SkipsNonDicts(start: Templates, ts: seq<Option<Template>>)
    ensures StoreAll(start, ts + [None]) == StoreAll(start, ts)
  {
    assert (ts + [None])[..|ts|] == ts;
  }

  /** What `_save_templates` writes: the list of `to_dict` forms, in order. */
  function SavedList(d: Templates): (r: seq<Json>)
    ensures |r| == |d|
  {
    seq(|d|, i requires 0 <= i < |d| => JObj(ToDict(d[i].1)))
  }

  /** Saving the templates and loading the saved list into an empty manager
      reproduces the templates, in order, when every template is stored
      under its own hashable name with a real creation time. */
  lemma SaveLoadRoundTrip(d: Templates, now: int)
    requires Dicts.DistinctKeys(d) && KeyedByName(d)
    requires forall i :: 0 <= i < |d| ==> Hashable(d[i].0) && Truthy(d[i].1.createdAt)
    ensures Loaded([], JArr(SavedList(d)), now) == Ok(d)
  {
    var ts := ListEntries(SavedList(d), now);
    StoreAllPrefix(d, now, |d|);
    assert d[..|d|] == d;
    assert ts[..|d|] == ts;
  }

  lemma {:induction false} StoreAllPrefix(d: Templates, now: int, n: nat)
    requires Dicts.DistinctKeys(d) && KeyedByName(d) && n <= |d|
    requires forall i :: 0 <= i < |d| ==> Hashable(d[i].0) && Truthy(d[i].1.createdAt)
    ensures StoreAll([], ListEntries(SavedList(d), now)[..n]) == Ok(d[..n])
    decreases n
  {
    if n > 0 {
      StoreAllPrefix(d, now, n - 1);
      FromDictToDict(d[n - 1].1, now);
      NotInPrefix(d, n - 1);
      StoreAllPrefixStep(d, now, n);
    }
  }

  /** Loading one more saved entry, new and stored under its own name,
      appends it. */
  lemma StoreAllPrefixStep(d: Templates, now: int, n: nat)
    requires 0 < n <= |d|
    requires StoreAll([], ListEntries(SavedList(d), now)[..n - 1]) == Ok(d[..n - 1])
    requires FromDict(ToDict(d[n - 1].1), now) == d[n - 1].1
    requires d[n - 1].1.name == d[n - 1].0 && Hashable(d[n - 1].0)
    requires !Dicts.HasKey(d[..n - 1], d[n - 1].0)
    ensures StoreAll([], ListEntries(SavedList(d), now)[..n]) == Ok(d[..n])
  {
    var ts := ListEntries(SavedList(d), now);
    assert ts[n - 1] == Some(d[n - 1].1);
    Dicts.PrefixSnoc(ts, n);
    Dicts.PutNew(d[..n - 1], d[n - 1].0, d[n - 1].1);
    Dicts.PrefixSnoc(d, n);
  }

  /** In a dictionary with distinct keys, a key does not occur before its
      own position. */
  lemma NotInPrefix(d: Templates, n: nat)
    requires Dicts.DistinctKeys(d) && n < |d|
    ensures !Dicts.HasKey(d[..n], d[n].0)
  {
    assert d == d[..n] + d[n..];
    Dicts.KeysAppend(d[..n], d[n..]);
    Dicts.KeysAt(d, n);
    if Dicts.HasKey(d[..n], d[n].0) {
      var j :| 0 <= j < n && Dicts.Keys(d[..n])[j] == d[n].0;
      Dicts.KeysAt(d[..n], j);
      Dicts.KeysAt(d, j);
      DistinctAt(d, j, n);
    }
  }

  lemma {:induction false} DistinctAt(d: Templates, i: nat, j: nat)
    requires Dicts.DistinctKeys(d) && i < j < |d|
    ensures d[i].0 != d[j].0
    decreases i
  {
    if i == 0 {
      Dicts.KeysAt(d[1..], j - 1);
    } else {
      DistinctAt(d[1..], i - 1, j - 1);
    }
  }


  /** `update_template`: the fields passed (not None) replace the
      template's. */
  function Updated(t: Template, content: Option<string>, category: Option<string>, description: Option<string>): (r: Template)
    ensures r.name == t.name && r.createdAt == t.createdAt
    ensures r.content == (if content.Some? then JStr(content.value) else t.content)
    ensures r.category == (if category.Some? then JStr(category.value) else t.category)
    ensures r.description == (if description.Some? then JStr(description.value) else t.description)
  {
    var t1 := if content.Some? then t.(content := JStr(content.value)) else t;
    var t2 := if category.Some? then t1.(category := JStr(category.value)) else t1;
    if description.Some? then t2.(description := JStr(description.value)) else t2
  }

  /** Templates whose category is `category`, in dictionary order. */
  function Filter(d: Templates, category: Json): (r: seq<Template>)
    ensures forall t :: t in r ==> t.category == category
    ensures forall e :: e in d ==> (e.1 in r <==> e.1.category == category)
    decreases |d|
  {
    if d == [] then []
    else if d[0].1.category == category then [d[0].1] + Filter(d[1..], category)
    else Filter(d[1..], category)
  }

  /** The filter keeps dictionary order: the templates chosen from a
      joined dictionary are those chosen from its front, then those from
      its back, and a single entry is chosen iff its category matches. */
  lemma {:induction false} FilterInOrder(a: Templates, b: Templates, category: Json)
    ensures Filter(a + b, category) == Filter(a, category) + Filter(b, category)
    ensures forall e :: Filter([e], category) == (if e.1.category == category then [e.1] else [])
    decreases |a|
  {
    if a == [] {
      assert a + b == b;
    } else {
      assert (a + b)[0] == a[0];
      assert (a + b)[1..] == a[1..] + b;
      FilterInOrder(a[1..], b, category);
    }
    forall e ensures Filter([e], category) == (if e.1.category == category then [e.1] else []) {
      assert [e][1..] == [];
    }
  }

  /** What `str.format` did with the keyword arguments: the formatted text,
      or an exception (a missing key or any other). */
  datatype FormatOutcome = Formatted(text: string) | FormatFailed

  /** Where `__init__` gets the templates from: no file (or an empty path),
      a file that could not be read or parsed, or the parsed contents. */
  datatype TemplateSource = NoFile | Unreadable | ParsedFile(data: Json)

  /** `PromptManager`: the templates, keyed by name. */
  class PromptManager {
    var templates: Templates

    /** The names are distinct, hashable, and each is its template's name. */
    predicate Valid()
      reads this
    {
      Dicts.DistinctKeys(templates) && KeyedByName(templates) &&
      forall i :: 0 <= i < |templates| ==> Hashable(templates[i].0)
    }

    /** `__init__` up to `_load_templates`: no templates yet. */
    constructor ()
      ensures Valid() && templates == []
    {
      templates := [];
    }

    /** `_load_templates`: templates from the parsed file are added in
        order, later names overriding earlier ones. It returns false when a
        template name is unhashable, where Python raises TypeError out of
        `__init__`; the templates stored until then stay. */
    method LoadTemplates(source: TemplateSource, now: int) returns (ok: bool)
      requires Valid()
      modifies this
      ensures Valid()
      ensures source.ParsedFile? ==> (ok <==> Loaded(old(templates), source.data, now).Ok?)
      ensures source.ParsedFile? && ok ==> templates == Loaded(old(templates), source.data, now).value
      ensures !source.ParsedFile? ==> ok && templates == old(templates)
    {
      if !source.ParsedFile? || !(source.data.JArr? || source.data.JObj?) {
        return true;
      }
      var ts := if source.data.JArr? then ListEntries(source.data.items, now)
                else DictEntries(source.data.fields, now);
      ok := StoreTemplates(ts);
    }

    /** The loop of `_load_templates`. */
    method StoreTemplates(ts: seq<Option<Template>>) returns (ok: bool)
      requires Valid()
      modifies this
      ensures Valid()
      ensures ok <==> StoreAll(old(templates), ts).Ok?
      ensures ok ==> templates == StoreAll(old(templates), ts).value
    {
      ghost var start := templates;
      var i := 0;
      while i < |ts|
        invariant 0 <= i <= |ts| && Valid()
        invariant StoreAll(start, ts[..i]) == Ok(templates)
      {
        assert ts[..i + 1][..i] == ts[..i];
        if ts[i].Some? {
          var t := ts[i].value;
          if !Hashable(t.name) {
            StoreAllRaised(start, ts, i + 1);
            return false;
          }
          Dicts.PutDistinct(templates, t.name, t);
          PutKeyed(templates, t);
          PutHashable(templates, t.name, t);
          templates := Dicts.Put(templates, t.name, t);
        }
        i := i + 1;
      }
      assert ts[..i] == ts;
      ok := true;
    }

    /** `add_template`: refused for an existing name, otherwise the new
        template goes to the end. */
    method AddTemplate(name: string, content: string, category: string, description: string, now: int)
      returns (ok: bool)
      requires Valid()
      modifies this
      ensures Valid()
      ensures ok <==> !Dicts.HasKey(old(templates), JStr(name))
      ensures ok ==> templates == old(templates) + [(JStr(name), Template(JStr(name), JStr(content), JStr(category), JStr(description), Stamp(JNull, now)))]
      ensures !ok ==> templates == old(templates)
    {
      if Dicts.HasKey(templates, JStr(name)) {
        return false;
      }
      var t := Template(JStr(name), JStr(content), JStr(category), JStr(description), Stamp(JNull, now));
      Dicts.PutDistinct(templates, JStr(name), t);
      PutKeyed(templates, t);
      PutHashable(templates, JStr(name), t);
      Dicts.PutNew(templates, JStr(name), t);
      templates := Dicts.Put(templates, JStr(name), t);
      ok := true;
    }

    /** `update_template`: false for an unknown name; otherwise the fields
        passed replace the template's, and the result says whether any
        field was passed. */
    method UpdateTemplate(name: string, content: Option<string>, category: Option<string>, description: Option<string>)
      returns (updated: bool)
      requires Valid()
      modifies this
      ensures Valid()
      ensures updated <==> Dicts.HasKey(old(templates), JStr(name)) && (content.Some? || category.Some? || description.Some?)
      ensures Dicts.HasKey(old(templates), JStr(name)) ==>
        templates == Dicts.Put(old(templates), JStr(name),
          Updated(Dicts.Get(old(templates), JStr(name)).value, content, category, description))
      ensures !Dicts.HasKey(old(templates), JStr(name)) ==> templates == old(templates)
    {
      var key := JStr(name);
      var found := Dicts.Get(templates, key);
      if found.None? {
        return false;
      }
      var t := Updated(found.value, content, category, description);
      GetKeyed(templates, key);
      Dicts.PutDistinct(templates, key, t);
      PutKeyed(templates, t);
      PutHashable(templates, key, t);
      templates := Dicts.Put(templates, key, t);
      updated := content.Some? || category.Some? || description.Some?;
    }

    /** `delete_template`: false for an unknown name; otherwise that entry
        alone is removed. */
    method DeleteTemplate(name: string) returns (ok: bool)
      requires Valid()
      modifies this
      ensures Valid()
      ensures ok <==> Dicts.HasKey(old(templates), JStr(name))
      ensures templates == Dicts.Remove(old(templates), JStr(name))
    {
      ok := Dicts.HasKey(templates, JStr(name));
      Dicts.RemoveDistinct(templates, JStr(name));
      RemoveKeyed(templates, JStr(name));
      RemoveHashable(templates, JStr(name));
      if ok {
        templates := Dicts.Remove(templates, JStr(name));
      }
    }

    /** `get_template`: the template of that name, or None. */
    function GetTemplate(name: string): (r: Option<Template>)
      requires Valid()
      reads this
      ensures r.None? <==> !Dicts.HasKey(templates, JStr(name))
      ensures r.Some? ==> r.value.name == JStr(name) && (JStr(name), r.value) in templates
    {
      if Dicts.HasKey(templates, JStr(name)) then
        GetKeyed(templates, JStr(name));
        Dicts.Get(templates, JStr(name))
      else None
    }

    /** `get_templates_by_category`: exactly the templates of that category,
        in dictionary order. */
    function TemplatesByCategory(category: string): (r: seq<Template>)
      reads this
      ensures forall t :: t in r ==> t.category == JStr(category)
      ensures forall e :: e in templates ==> (e.1 in r <==> e.1.category == JStr(category))
    {
      Filter(templates, JStr(category))
    }

    /** `get_all_templates`: the templates in dictionary order, each being
        the one stored under its own name. */
    function AllTemplates(): (r: seq<Template>)
      requires Valid()
      reads this
      ensures |r| == |templates|
      ensures forall i :: 0 <= i < |r| ==> Dicts.Get(templates, r[i].name) == Some(r[i])
      ensures forall i :: 0 <= i < |r| ==> r[i] == templates[i].1
    {
      AllStored(templates);
      Dicts.Values(templates)
    }

    /** `format_prompt`: None for an unknown template; the formatted text
        when `str.format` succeeds on a string content; otherwise the
        content unchanged. */
    function FormatPrompt(name: string, outcome: FormatOutcome): (r: Option<Json>)
      requires Valid()
      reads this
      ensures r.None? <==> !Dicts.HasKey(templates, JStr(name))
      ensures r.Some? && (outcome.FormatFailed? || !GetTemplate(name).value.content.JStr?) ==>
        r.value == GetTemplate(name).value.content
      ensures r.Some? && outcome.Formatted? && GetTemplate(name).value.content.JStr? ==>
        r.value == JStr(outcome.text)
    {
      match GetTemplate(name)
      case None => None
      case Some(t) =>
        if t.content.JStr? && outcome.Formatted? then Some(JStr(outcome.text)) else Some(t.content)
    }
  }

  lemma AllStored(d: Templates)
    requires Dicts.DistinctKeys(d) && KeyedByName(d)
    ensures forall i :: 0 <= i < |d| ==> Dicts.Get(d, Dicts.Values(d)[i].name) == Some(Dicts.Values(d)[i])
  {
    forall i | 0 <= i < |d| ensures Dicts.Get(d, Dicts.Values(d)[i].name) == Some(Dicts.Values(d)[i]) {
      Dicts.GetAt(d, i);
    }
  }

  lemma {:induction false} StoreAllRaised(start: Templates, ts: seq<Option<Template>>, i: nat)
    requires i <= |ts| && StoreAll(start, ts[..i]).Raise?
    ensures StoreAll(start, ts).Raise?
    decreases |ts| - i
  {
    if i < |ts| {
      assert ts[..i + 1][..i] == ts[..i];
      StoreAllRaised(start, ts, i + 1);
    } else {
      assert ts[..i] == ts;
    }
  }

  lemma {:induction false} GetKeyed(d: Templates, k: Json)
    requires KeyedByName(d) && Dicts.HasKey(d, k)
    ensures Dicts.Get(d, k).value.name == k
    decreases |d|
  {
    if d[0].0 != k {
      GetKeyed(d[1..], k);
    }
  }

  lemma {:induction false} PutHashable(d: Templates, k: Json, t: Template)
    requires Hashable(k) && forall i :: 0 <= i < |d| ==> Hashable(d[i].0)
    ensures forall i :: 0 <= i < |Dicts.Put(d, k, t)| ==> Hashable(Dicts.Put(d, k, t)[i].0)
    decreases |d|
  {
    if d != [] && d[0].0 != k {
      PutHashable(d[1..], k, t);
      assert Dicts.Put(d, k, t) == [d[0]] + Dicts.Put(d[1..], k, t);
    }
  }

  lemma {:induction false} RemoveHashable(d: Templates, k: Json)
    requires forall i :: 0 <= i < |d| ==> Hashable(d[i].0)
    ensures forall i :: 0 <= i < |Dicts.Remove(d, k)| ==> Hashable(Dicts.Remove(d, k)[i].0)
    decreases |d|
  {
    if d != [] {
      RemoveHashable(d[1..], k);
      if d[0].0 != k {
        assert Dicts.Remove(d, k) == [d[0]] + Dicts.Remove(d[1..], k);
      }
    }
  }
}
