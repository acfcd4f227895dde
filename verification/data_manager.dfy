/** `NovelDataManager` (utils/data_manager.py): the project document of one
    novel, a dictionary of well-known top-level keys plus whatever a loaded
    file adds, with a cache of the whole document and of separately stored
    chapter texts, a "modified" flag and the path of the current file.

    Python's shallow copies are modelled as follows. The cached copy of the
    whole document (`novel_data_full`) shares the dictionaries under
    "metadata" and "chapters" with the live document (they are only ever
    changed in place), so a read of the cached copy sees their current
    contents; every other key of the copy keeps the value it had when the
    copy was made (`SharedView`). */
module DataManager {
  import opened Wrappers
  import opened Text
  import Dicts
  import opened Json
  import DataCache

  /** The project document: a Python dict with string keys. */
  type NovelData = seq<(string, Json)>

  /** How many keys `__init__` and `clear_data` create. */
  const SchemaSize := 17

  /** The keys `__init__` and `clear_data` create, in their order. */
  function SchemaKey(i: nat): string
    requires i < SchemaSize
  {
    ["title", "genre", "theme", "style", "synopsis", "volume_count",
     "chapters_per_volume", "words_per_chapter", "new_character_count", "selected_characters",
     "characters", "worldbuilding", "outline", "volumes", "chapters", "metadata", "relationships"][i]
  }

  /** The values `__init__` and `clear_data` give the keys, position by
      position. */
  function DefaultValue(i: nat): Json
    requires i < SchemaSize
  {
    [JStr(""), JStr(""), JStr(""), JStr(""), JStr(""), JNum(0), JNum(0),
     JNum(0), JNum(0), JArr([]), JArr([]), JStr(""), JNull, JArr([]), JObj([]), JObj([]), JObj([])][i]
  }

  /** The document of a new or cleared project. */
  function DefaultData(): (d: NovelData)
    ensures |d| == SchemaSize && Dicts.DistinctKeys(d)
  {
    var d := seq(SchemaSize, i requires 0 <= i < SchemaSize => (SchemaKey(i), DefaultValue(i)));
    SchemaKeysDistinct();
    Dicts.DistinctByIndex(d);
    d
  }

  /** The default document holds the schema keys in their order, each with
      its default value. */
  lemma DefaultKeys(i: nat)
    requires i < SchemaSize
    ensures DefaultData()[i] == (SchemaKey(i), DefaultValue(i))
  {
  }

  lemma SchemaKeysDistinct()
    ensures forall i, j :: 0 <= i < j < SchemaSize ==> SchemaKey(i) != SchemaKey(j)
  {
  }

  /** Every key of the default document is present. */
  predicate HasSchema(d: NovelData) {
    forall i :: 0 <= i < SchemaSize ==> Dicts.HasKey(d, SchemaKey(i))
  }

  /** The cache key of the whole document. */
  const FullKey: string := "novel_data_full"

  /** Prefix of the cache key of a chapter text. */
  const ChapterPrefix: string := "chapter_content_"

  /** `f"content_{volume_index}_{chapter_index}"`: where a chapter's text is
      stored in the "chapters" dictionary. */
  function ContentKey(v: int, c: int): string {
    "content_" + IntToString(v) + "_" + IntToString(c)
  }

  /** Different chapters are stored under different keys. */
  lemma ContentKeyInjective(v: int, c: int, v': int, c': int)
    requires ContentKey(v, c) == ContentKey(v', c')
    ensures v == v' && c == c'
  {
    var a, b := IntToString(v), IntToString(c);
    var a', b' := IntToString(v'), IntToString(c');
    NoUnderscore(v);
    NoUnderscore(v');
    assert ContentKey(v, c)[8..] == a + "_" + b;
    assert ContentKey(v', c')[8..] == a' + "_" + b';
    SplitAtSeparator(a, b, a', b', '_');
    IntToStringInjective(v, v');
    IntToStringInjective(c, c');
  }

  lemma NoUnderscore(i: int)
    ensures '_' !in IntToString(i)
  {
    var s := IntToString(i);
    if i < 0 {
      assert s == "-" + NatToString(-i);
    }
  }

  /** What the cache holds: a copy of the whole document, or a chapter text. */
  datatype Cached = FullData(snapshot: NovelData) | Content(text: Json)

  /** The keys whose dictionaries a shallow copy shares with the live
      document because they are only ever changed in place. */
  predicate IsShared(k: string) {
    k == "metadata" || k == "chapters"
  }

  function ViewEntry(e: (string, Json), live: NovelData): (string, Json) {
    if IsShared(e.0) && Dicts.HasKey(live, e.0) then (e.0, Dicts.Get(live, e.0).value) else e
  }

  /** What a cached shallow copy of the document shows now. */
  function SharedView(snapshot: NovelData, live: NovelData): (r: NovelData)
    ensures |r| == |snapshot|
    ensures forall i :: 0 <= i < |r| ==> r[i] == ViewEntry(snapshot[i], live)
  {
    seq(|snapshot|, i requires 0 <= i < |snapshot| => ViewEntry(snapshot[i], live))
  }

  /** A copy taken of the live document shows the live document. */
  lemma SharedViewSelf(live: NovelData)
    requires Dicts.DistinctKeys(live)
    ensures SharedView(live, live) == live
  {
    forall i | 0 <= i < |live| ensures SharedView(live, live)[i] == live[i] {
      Dicts.GetAt(live, i);
    }
  }

  /** Writing one of the shared dictionaries keeps an up-to-date copy up to
      date. */
  lemma {:induction false} SharedViewPut(s: NovelData, live: NovelData, k: string, v: Json)
    requires IsShared(k) && Dicts.DistinctKeys(live) && Dicts.HasKey(live, k)
    requires SharedView(s, live) == live
    ensures SharedView(s, Dicts.Put(live, k, v)) == Dicts.Put(live, k, v)
  {
    var live' := Dicts.Put(live, k, v);
    Dicts.PutDistinct(live, k, v);
    forall i | 0 <= i < |s| ensures SharedView(s, live')[i] == live'[i] {
      assert ViewEntry(s[i], live) == live[i];
      Dicts.PutAt(live, k, v, i);
      if IsShared(s[i].0) {
        Dicts.GetAt(live', i);
        Dicts.KeysAt(live', i);
      }
    }
    Dicts.PutLength(live, k, v);
  }

  /** `novel_data["chapters"].get(key)`, with Python's None as JNull. */
  function ChapterContentOf(live: NovelData, ck: string): (r: Py<Json>)
    ensures r.Ok? <==> Dicts.Get(live, "chapters").Some? && Dicts.Get(live, "chapters").value.JObj?
  {
    match Dicts.Get(live, "chapters")
    case None => Raise
    case Some(ch) => GetOr(ch, ck, JNull)
  }

  /** Each cache entry has the kind of value its key calls for. */
  predicate EntryTyped(key: string, value: Cached) {
    (key == FullKey <==> value.FullData?) && (value.Content? ==> value.text != JNull)
  }

  /** A cache entry agrees with the live document: the whole-document copy
      shows the live document, a chapter text is the one stored now. */
  predicate EntryCoherent(key: string, value: Cached, live: NovelData) {
    if key == FullKey then value.FullData? && SharedView(value.snapshot, live) == live
    else
      value.Content? && value.text != JNull && StartsWith(key, ChapterPrefix) &&
      ChapterContentOf(live, key[|ChapterPrefix|..]) == Ok(value.text)
  }

  /** The first loop of `set_outline` and of `load_project`: each key the
      document already has takes the value `src` gives it, if any. */
  function OverwriteEntry(e: (string, Json), src: NovelData): (string, Json) {
    if Dicts.HasKey(src, e.0) then (e.0, Dicts.Get(src, e.0).value) else e
  }

  function Overwrite(cur: NovelData, src: NovelData): (r: NovelData)
    ensures |r| == |cur|
    ensures forall i :: 0 <= i < |r| ==> r[i] == OverwriteEntry(cur[i], src)
  {
    seq(|cur|, i requires 0 <= i < |cur| => OverwriteEntry(cur[i], src))
  }

  /** Overwriting keeps the keys and their order, and each key reads the
      source's value when the source has it. */
  lemma OverwriteProps(cur: NovelData, src: NovelData, k: string)
    requires Dicts.DistinctKeys(cur)
    ensures Dicts.Keys(Overwrite(cur, src)) == Dicts.Keys(cur)
    ensures Dicts.DistinctKeys(Overwrite(cur, src))
    ensures Dicts.Get(Overwrite(cur, src), k) ==
      if Dicts.HasKey(cur, k) && Dicts.HasKey(src, k) then Dicts.Get(src, k) else Dicts.Get(cur, k)
  {
    var r := Overwrite(cur, src);
    forall i | 0 <= i < |r| ensures Dicts.Keys(r)[i] == Dicts.Keys(cur)[i] {
      Dicts.KeysAt(r, i);
      Dicts.KeysAt(cur, i);
    }
    Dicts.DistinctKeysByKeys(cur, r);
    if Dicts.HasKey(cur, k) {
      var i :| 0 <= i < |cur| && Dicts.Keys(cur)[i] == k;
      Dicts.KeysAt(cur, i);
      Dicts.GetAt(cur, i);
      Dicts.GetAt(r, i);
    } else {
      assert !Dicts.HasKey(r, k);
    }
  }

  /** What `set_outline` does to the document. */
  function OutlineApplied(cur: NovelData, outline: NovelData): NovelData {
    var d := Overwrite(cur, outline);
    if Dicts.HasKey(outline, "outline") then
      Dicts.Put(d, "outline", Dicts.Get(outline, "outline").value)
    else if Dicts.HasKey(outline, "volumes") then
      Dicts.Put(d, "outline", OutlineFromVolumes(outline))
    else d
  }

  /** `{"volumes": outline.get("volumes", []), "characters":
      outline.get("characters", [])}`. */
  function OutlineFromVolumes(outline: NovelData): Json {
    var vols := match Dicts.Get(outline, "volumes") case Some(v) => v case None => JArr([]);
    var chars := match Dicts.Get(outline, "characters") case Some(c) => c case None => JArr([]);
    JObj([("volumes", vols), ("characters", chars)])
  }

  /** `set_outline` never adds or drops a key, copies every known key the
      input has, and derives "outline" from the input's "outline" or, failing
      that, its "volumes" and "characters". */
  lemma OutlineAppliedProps(cur: NovelData, outline: NovelData, k: string)
    requires Dicts.DistinctKeys(cur) && HasSchema(cur)
    ensures Dicts.Keys(OutlineApplied(cur, outline)) == Dicts.Keys(cur)
    ensures Dicts.DistinctKeys(OutlineApplied(cur, outline))
    ensures Dicts.Get(OutlineApplied(cur, outline), k) ==
      if k == "outline" && Dicts.HasKey(outline, "outline") then Dicts.Get(outline, "outline")
      else if k == "outline" && Dicts.HasKey(outline, "volumes") then Some(OutlineFromVolumes(outline))
      else if Dicts.HasKey(cur, k) && Dicts.HasKey(outline, k) then Dicts.Get(outline, k)
      else Dicts.Get(cur, k)
  {
    var d := Overwrite(cur, outline);
    OverwriteProps(cur, outline, k);
    assert Dicts.HasKey(cur, "outline") by { assert SchemaKey(12) == "outline"; }
    assert Dicts.HasKey(d, "outline");
    if Dicts.HasKey(outline, "outline") || Dicts.HasKey(outline, "volumes") {
      var v := if Dicts.HasKey(outline, "outline") then Dicts.Get(outline, "outline").value
               else OutlineFromVolumes(outline);
      Dicts.PutDistinct(d, "outline", v);
      if k != "outline" {
        Dicts.PutOther(d, "outline", v, k);
      }
    }
  }

  /** What the second loop of `load_project` does: each loaded key the
      document lacks is appended, in the loaded order. */
  function AddMissing(d: NovelData, loaded: NovelData): NovelData
    decreases |loaded|
  {
    if loaded == [] then d
    else
      var before := AddMissing(d, loaded[..|loaded| - 1]);
      var last := loaded[|loaded| - 1];
      if Dicts.HasKey(before, last.0) then before else Dicts.Put(before, last.0, last.1)
  }

  /** What `load_project` makes of the document. */
  function Merge(cur: NovelData, loaded: NovelData): NovelData {
    AddMissing(Overwrite(cur, loaded), loaded)
  }

  /** Appending missing keys keeps keys distinct and adds exactly the
      loaded keys. */
  lemma {:induction false} AddMissingKeys(d: NovelData, loaded: NovelData, k: string)
    requires Dicts.DistinctKeys(d)
    ensures Dicts.DistinctKeys(AddMissing(d, loaded))
    ensures Dicts.HasKey(AddMissing(d, loaded), k) <==> Dicts.HasKey(d, k) || Dicts.HasKey(loaded, k)
    decreases |loaded|
  {
    if loaded != [] {
      var init := loaded[..|loaded| - 1];
      var last := loaded[|loaded| - 1];
      var before := AddMissing(d, init);
      AddMissingKeys(d, init, k);
      Dicts.HasKeyFrontLast(loaded, k);
      if !Dicts.HasKey(before, last.0) {
        Dicts.PutDistinct(before, last.0, last.1);
      }
    }
  }

  /** A key the document already had keeps its value. */
  lemma {:induction false} AddMissingKeeps(d: NovelData, loaded: NovelData, k: string)
    requires Dicts.DistinctKeys(d) && Dicts.HasKey(d, k)
    ensures Dicts.Get(AddMissing(d, loaded), k) == Dicts.Get(d, k)
    decreases |loaded|
  {
    if loaded != [] {
      var init := loaded[..|loaded| - 1];
      var last := loaded[|loaded| - 1];
      var before := AddMissing(d, init);
      AddMissingKeeps(d, init, k);
      AddMissingKeys(d, init, k);
      if !Dicts.HasKey(before, last.0) {
        Dicts.PutOther(before, last.0, last.1, k);
      }
    }
  }

  /** A key only the loaded document has reads the loaded value. */
  lemma {:induction false} AddMissingLoaded(d: NovelData, loaded: NovelData, k: string)
    requires Dicts.DistinctKeys(d) && Dicts.DistinctKeys(loaded)
    requires !Dicts.HasKey(d, k) && Dicts.HasKey(loaded, k)
    ensures Dicts.Get(AddMissing(d, loaded), k) == Dicts.Get(loaded, k)
    decreases |loaded|
  {
    var init := loaded[..|loaded| - 1];
    var last := loaded[|loaded| - 1];
    var before := AddMissing(d, init);
    Dicts.FrontLast(loaded);
    Dicts.HasKeyFrontLast(loaded, k);
    DistinctLast(init, last);
    AddMissingKeys(d, init, k);
    AddMissingKeys(d, init, last.0);
    if k == last.0 {
      LastGet(init, last);
    } else {
      LastGetOther(init, last, k);
      AddMissingLoaded(d, init, k);
      if !Dicts.HasKey(before, last.0) {
        Dicts.PutOther(before, last.0, last.1, k);
      }
    }
  }

  lemma {:induction false} DistinctLast(init: NovelData, last: (string, Json))
    requires Dicts.DistinctKeys(init + [last])
    ensures !Dicts.HasKey(init, last.0) && Dicts.DistinctKeys(init)
    decreases |init|
  {
    if init != [] {
      assert (init + [last])[1..] == init[1..] + [last];
      DistinctLast(init[1..], last);
      Dicts.KeysAppend(init[1..], [last]);
    }
  }

  lemma LastGet(init: NovelData, last: (string, Json))
    requires Dicts.DistinctKeys(init + [last])
    ensures Dicts.Get(init + [last], last.0) == Some(last.1)
  {
    Dicts.GetAt(init + [last], |init|);
  }

  lemma {:induction false} LastGetOther(init: NovelData, last: (string, Json), k: string)
    requires k != last.0
    ensures Dicts.Get(init + [last], k) == Dicts.Get(init, k)
    decreases |init|
  {
    if init != [] {
      assert (init + [last])[1..] == init[1..] + [last];
      LastGetOther(init[1..], last, k);
    }
  }

  /** After `load_project` every loaded key reads the loaded value, and every
      other key keeps the value it had. */
  lemma MergeGet(cur: NovelData, loaded: NovelData, k: string)
    requires Dicts.DistinctKeys(cur) && Dicts.DistinctKeys(loaded)
    ensures Dicts.DistinctKeys(Merge(cur, loaded))
    ensures Dicts.HasKey(Merge(cur, loaded), k) <==> Dicts.HasKey(cur, k) || Dicts.HasKey(loaded, k)
    ensures Dicts.Get(Merge(cur, loaded), k) ==
      if Dicts.HasKey(loaded, k) then Dicts.Get(loaded, k) else Dicts.Get(cur, k)
  {
    var d := Overwrite(cur, loaded);
    OverwriteProps(cur, loaded, k);
    AddMissingKeys(d, loaded, k);
    if Dicts.HasKey(d, k) {
      AddMissingKeeps(d, loaded, k);
    } else if Dicts.HasKey(loaded, k) {
      AddMissingLoaded(d, loaded, k);
    }
  }

  /** Saving a document that has every default key and loading it into a
      cleared manager gives back the saved document's contents. */
  lemma LoadRestoresSaved(saved: NovelData, k: string)
    requires Dicts.DistinctKeys(saved) && HasSchema(saved)
    ensures Dicts.HasKey(Merge(DefaultData(), saved), k) <==> Dicts.HasKey(saved, k)
    ensures Dicts.Get(Merge(DefaultData(), saved), k) == Dicts.Get(saved, k)
  {
    MergeGet(DefaultData(), saved, k);
    if Dicts.HasKey(DefaultData(), k) {
      Dicts.KeyIndex(DefaultData(), k);
      var i :| 0 <= i < SchemaSize && DefaultData()[i].0 == k;
      DefaultKeys(i);
      assert Dicts.HasKey(saved, SchemaKey(i));
    }
  }

  /** `get_chapter_summary`: `novel_data["volumes"][v]["chapters"][c]["summary"]`,
      with every IndexError, KeyError and TypeError turned into None. */
  function ChapterSummary(data: NovelData, v: int, c: int): (r: Option<Json>)
    ensures !Dicts.HasKey(data, "volumes") ==> r.None?
    ensures (Dicts.Get(data, "volumes").Some? && !Dicts.Get(data, "volumes").value.JArr? &&
             !Dicts.Get(data, "volumes").value.JStr?) ==> r.None?
  {
    match Field(JObj(data), "volumes")
    case Raise => None
    case Ok(vols) =>
      match At(vols, v)
      case Raise => None
      case Ok(vol) =>
        match Field(vol, "chapters")
        case Raise => None
        case Ok(chs) =>
          match At(chs, c)
          case Raise => None
          case Ok(ch) =>
            match Field(ch, "summary")
            case Raise => None
            case Ok(s) => Some(s)
  }

  /** The summary is found exactly where the outline has one, and negative
      indices count from the end as in Python. */
  lemma ChapterSummaryFound(data: NovelData, v: int, c: int, vols: seq<Json>, chs: seq<Json>, summary: Json)
    requires Dicts.Get(data, "volumes") == Some(JArr(vols))
    requires -|vols| <= v < |vols|
    requires vols[if v < 0 then v + |vols| else v].JObj?
    requires Dicts.Get(vols[if v < 0 then v + |vols| else v].fields, "chapters") == Some(JArr(chs))
    requires -|chs| <= c < |chs|
    requires chs[if c < 0 then c + |chs| else c].JObj?
    requires Dicts.Get(chs[if c < 0 then c + |chs| else c].fields, "summary") == Some(summary)
    ensures ChapterSummary(data, v, c) == Some(summary)
  {
    var vol := vols[if v < 0 then v + |vols| else v];
    var ch := chs[if c < 0 then c + |chs| else c];
    assert Field(JObj(data), "volumes") == Ok(JArr(vols));
    assert At(JArr(vols), v) == Ok(vol);
    assert Field(vol, "chapters") == Ok(JArr(chs));
    assert At(JArr(chs), c) == Ok(ch);
    assert Field(ch, "summary") == Ok(summary);
  }

  /** An index past the end of the volumes or chapters gives None instead
      of an error. */
  lemma ChapterSummaryOutOfRange(data: NovelData, v: int, c: int, vols: seq<Json>)
    requires Dicts.Get(data, "volumes") == Some(JArr(vols))
    requires v >= |vols| || v < -|vols|
    ensures ChapterSummary(data, v, c) == None
  {
  }

  /** `x > 0` for the "words_per_chapter" value; comparing None, a string or
      a container with 0 raises TypeError. */
  function PositiveCount(w: Json): (r: Py<int>)
    ensures r.Ok? <==> w.JNum? || w.JBool?
  {
    match w
    case JNum(n) => Ok(if n > 0 then n else 0)
    case JBool(b) => Ok(if b then 1 else 0)
    case _ => Raise
  }

  /** The amount one chapter adds to `get_total_word_count_estimate`: the
      per-chapter figure when it is positive, otherwise the number of
      whitespace-separated words of the chapter's summary. */
  function ChapterEstimate(chap: Json, wpc: Json): Py<int> {
    match PositiveCount(wpc)
    case Raise => Raise
    case Ok(p) =>
      if p > 0 then Ok(p)
      else
        match GetOr(chap, "summary", JStr(""))
        case Raise => Raise
        case Ok(s) => if s.JStr? then Ok(WordCount(s.s)) else Raise
  }

  /** Python's running sum over parts that may raise: the first raise ends
      the loop. */
  function PySum(parts: seq<Py<int>>): Py<int>
    decreases |parts|
  {
    if parts == [] then Ok(0)
    else
      match PySum(parts[..|parts| - 1])
      case Raise => Raise
      case Ok(a) =>
        match parts[|parts| - 1]
        case Raise => Raise
        case Ok(b) => Ok(a + b)
  }

  /** Once the running sum has raised, the whole sum raises. */
  lemma {:induction false} PySumRaised(parts: seq<Py<int>>, i: nat)
    requires i <= |parts| && PySum(parts[..i]) == Raise
    ensures PySum(parts) == Raise
    decreases |parts| - i
  {
    if i < |parts| {
      assert parts[..i + 1][..i] == parts[..i];
      PySumRaised(parts, i + 1);
    } else {
      assert parts[..i] == parts;
    }
  }

  /** One more part of the running sum: a part that raises makes the whole
      sum raise, any other adds its value. */
  lemma PySumStep(parts: seq<Py<int>>, i: nat, x: int)
    requires i < |parts| && PySum(parts[..i]) == Ok(x)
    ensures parts[i].Raise? ==> PySum(parts) == Raise
    ensures parts[i].Ok? ==> PySum(parts[..i + 1]) == Ok(x + parts[i].value)
  {
    assert parts[..i + 1][..i] == parts[..i];
    if parts[i].Raise? {
      PySumRaised(parts, i + 1);
    }
  }

  function ChapterParts(chs: seq<Json>, wpc: Json): (r: seq<Py<int>>)
    ensures |r| == |chs|
  {
    seq(|chs|, i requires 0 <= i < |chs| => ChapterEstimate(chs[i], wpc))
  }

  /** One volume's share of the estimate: its "chapters" (default `[]`) must
      be iterable, and the volume itself a dict. */
  function VolumeEstimate(vol: Json, wpc: Json): Py<int> {
    match GetOr(vol, "chapters", JArr([]))
    case Raise => Raise
    case Ok(chs) =>
      match Iterate(chs)
      case Raise => Raise
      case Ok(items) => PySum(ChapterParts(items, wpc))
  }

  function VolumeParts(vols: seq<Json>, wpc: Json): (r: seq<Py<int>>)
    ensures |r| == |vols|
  {
    seq(|vols|, i requires 0 <= i < |vols| => VolumeEstimate(vols[i], wpc))
  }

  /** `get_total_word_count_estimate`. */
  function WordEstimate(data: NovelData): Py<int> {
    if !Dicts.HasKey(data, "volumes") then Ok(0)
    else
      var wpc := match Dicts.Get(data, "words_per_chapter") case Some(w) => w case None => JNum(0);
      match Iterate(Dicts.Get(data, "volumes").value)
      case Raise => Raise
      case Ok(vols) => PySum(VolumeParts(vols, wpc))
  }

  /** The total number of chapters of a well-formed outline. */
  function ChapterTotal(vols: seq<Json>): nat {
    if vols == [] then 0
    else ChapterTotal(vols[..|vols| - 1]) + |VolumeChapters(vols[|vols| - 1])|
  }

  function VolumeChapters(vol: Json): seq<Json> {
    if vol.JObj? then
      var chs := Dicts.Get(vol.fields, "chapters");
      if chs.Some? && chs.value.JArr? then chs.value.items else []
    else []
  }

  /** Each volume is a dict whose "chapters", if present, is a list. */
  predicate WellFormedVolumes(vols: seq<Json>) {
    forall i :: 0 <= i < |vols| ==>
      vols[i].JObj? &&
      (Dicts.HasKey(vols[i].fields, "chapters") ==> Dicts.Get(vols[i].fields, "chapters").value.JArr?)
  }

  /** With a positive per-chapter figure, the estimate is that figure times
      the number of chapters. */
  lemma {:induction false} UniformEstimate(vols: seq<Json>, w: int)
    requires w > 0 && WellFormedVolumes(vols)
    ensures PySum(VolumeParts(vols, JNum(w))) == Ok(w * ChapterTotal(vols))
    decreases |vols|
  {
    if vols != [] {
      var n := |vols| - 1;
      WellFormedPrefix(vols, vols[..n]);
      UniformEstimate(vols[..n], w);
      UniformVolume(vols[n], w);
      UniformEstimateStep(vols, w);
    }
  }

  lemma WellFormedPrefix(vols: seq<Json>, init: seq<Json>)
    requires vols != [] && init == vols[..|vols| - 1]
    ensures WellFormedVolumes(vols) ==> WellFormedVolumes(init)
  {
    assert forall i :: 0 <= i < |init| ==> init[i] == vols[i];
  }

  /** One more volume adds its chapters' share to the estimate. */
  lemma UniformEstimateStep(vols: seq<Json>, w: int)
    requires vols != []
    requires PySum(VolumeParts(vols[..|vols| - 1], JNum(w))) == Ok(w * ChapterTotal(vols[..|vols| - 1]))
    requires VolumeEstimate(vols[|vols| - 1], JNum(w)) == Ok(w * |VolumeChapters(vols[|vols| - 1])|)
    ensures PySum(VolumeParts(vols, JNum(w))) == Ok(w * ChapterTotal(vols))
  {
    var n := |vols| - 1;
    var parts := VolumeParts(vols, JNum(w));
    assert parts[..n] == VolumeParts(vols[..n], JNum(w));
    var a, b := ChapterTotal(vols[..n]), |VolumeChapters(vols[n])|;
    PySumSnoc(parts, w * a, w * b);
    assert ChapterTotal(vols) == a + b;
    Distribute(w, a, b, ChapterTotal(vols));
  }

  /** The running sum after one more part that does not raise. */
  lemma PySumSnoc(parts: seq<Py<int>>, x: int, y: int)
    requires parts != [] && PySum(parts[..|parts| - 1]) == Ok(x) && parts[|parts| - 1] == Ok(y)
    ensures PySum(parts) == Ok(x + y)
  {
  }

  lemma Distribute(w: int, a: int, b: int, c: int)
    requires c == a + b
    ensures w * a + w * b == w * c
  {
  }

  lemma UniformVolume(vol: Json, w: int)
    requires w > 0 && vol.JObj?
    requires Dicts.HasKey(vol.fields, "chapters") ==> Dicts.Get(vol.fields, "chapters").value.JArr?
    ensures VolumeEstimate(vol, JNum(w)) == Ok(w * |VolumeChapters(vol)|)
  {
    var chs := VolumeChapters(vol);
    assert GetOr(vol, "chapters", JArr([])) == Ok(JArr(chs));
    UniformChapters(chs, w);
  }

  lemma {:induction false} UniformChapters(chs: seq<Json>, w: int)
    requires w > 0
    ensures PySum(ChapterParts(chs, JNum(w))) == Ok(w * |chs|)
    decreases |chs|
  {
    if chs != [] {
      var n := |chs| - 1;
      var parts := ChapterParts(chs, JNum(w));
      UniformChapters(chs[..n], w);
      assert parts[..n] == ChapterParts(chs[..n], JNum(w));
      assert parts[n] == Ok(w);
      PySumSnoc(parts, w * n, w);
      Distribute(w, n, 1, |chs|);
    }
  }

  /** `clear_data` and `__init__` give a document with every default key. */
  lemma DefaultHasSchema()
    ensures HasSchema(DefaultData())
  {
    var d := DefaultData();
    forall i | 0 <= i < SchemaSize ensures Dicts.HasKey(d, SchemaKey(i)) {
      DefaultKeys(i);
      Dicts.KeysAt(d, i);
    }
  }

  /** Keys that stay keys keep the default keys present. */
  lemma SchemaByKeys(d: NovelData, d': NovelData)
    requires HasSchema(d)
    requires forall k :: Dicts.HasKey(d, k) ==> Dicts.HasKey(d', k)
    ensures HasSchema(d')
  {
  }

  /** The cache entries of a manager. */
  type Entries = seq<(string, DataCache.Item<Cached>)>

  predicate AllTyped(entries: Entries) {
    forall e :: e in entries ==> EntryTyped(e.0, e.1.value)
  }

  predicate AllCoherent(entries: Entries, live: NovelData) {
    forall e :: e in entries ==> EntryCoherent(e.0, e.1.value, live)
  }

  /** `get` keeps what the entries say, since it changes only access times. */
  lemma EntriesAfterGet(entries: Entries, key: string, now: int, live: NovelData)
    ensures AllTyped(entries) ==> AllTyped(DataCache.AfterGet(entries, key, now))
    ensures AllCoherent(entries, live) ==> AllCoherent(DataCache.AfterGet(entries, key, now), live)
  {
    DataCache.AfterGetEntries(entries, key, now);
  }

  /** `set` keeps what the entries say when the new entry says it too. */
  lemma EntriesAfterSet(entries: Entries, key: string, value: Cached, ttl: Option<int>, now: int, live: NovelData)
    ensures AllTyped(entries) && EntryTyped(key, value) ==>
      AllTyped(DataCache.AfterSet(entries, 100, Some(3600), key, value, ttl, now))
    ensures AllCoherent(entries, live) && EntryCoherent(key, value, live) ==>
      AllCoherent(DataCache.AfterSet(entries, 100, Some(3600), key, value, ttl, now), live)
  {
    DataCache.AfterSetEntries(entries, 100, Some(3600), key, value, ttl, now);
  }

  /** `delete` keeps what the entries say and drops the key. */
  lemma EntriesAfterRemove(entries: Entries, key: string, live: NovelData)
    ensures AllTyped(entries) ==> AllTyped(Dicts.Remove(entries, key))
    ensures AllCoherent(entries, live) ==> AllCoherent(Dicts.Remove(entries, key), live)
    ensures forall e :: e in Dicts.Remove(entries, key) ==> e.0 != key
  {
    Dicts.RemovedEntries(entries, key);
  }

  /** A cached value is the value of an entry under the key looked up. */
  lemma LookupEntry(entries: Entries, key: string, now: int)
    requires DataCache.Lookup(entries, key, now).Some?
    ensures exists e :: e in entries && e.0 == key && e.1.value == DataCache.Lookup(entries, key, now).value
  {
    var e := (key, Dicts.Get(entries, key).value);
    assert e in entries;
  }

  /** Writing a top-level key other than "chapters" keeps the cache coherent
      when the key is one of the shared dictionaries, or when no copy of the
      whole document is cached. */
  lemma CoherentAfterTopWrite(entries: Entries, live: NovelData, k: string, v: Json)
    requires Dicts.DistinctKeys(live) && Dicts.HasKey(live, k) && k != "chapters"
    requires AllCoherent(entries, live)
    requires IsShared(k) || forall e :: e in entries ==> e.0 != FullKey
    ensures AllCoherent(entries, Dicts.Put(live, k, v))
  {
    var live' := Dicts.Put(live, k, v);
    Dicts.PutOther(live, k, v, "chapters");
    forall e | e in entries ensures EntryCoherent(e.0, e.1.value, live') {
      if e.0 == FullKey {
        SharedViewPut(e.1.value.snapshot, live, k, v);
      } else {
        assert ChapterContentOf(live', e.0[|ChapterPrefix|..]) == ChapterContentOf(live, e.0[|ChapterPrefix|..]);
      }
    }
  }

  /** Writing a chapter text into a dict "chapters" keeps the document's
      keys, and the text is then the one stored under its key. */
  lemma ChapterWritten(live: NovelData, ck: string, content: string)
    requires Dicts.DistinctKeys(live) && HasSchema(live) && DictAt(live, "chapters")
    ensures var live' := Dicts.Put(live, "chapters",
        JObj(Dicts.Put(Dicts.Get(live, "chapters").value.fields, ck, JStr(content))));
      Dicts.DistinctKeys(live') && HasSchema(live') && ChapterContentOf(live', ck) == Ok(JStr(content))
  {
    var chapters' := JObj(Dicts.Put(Dicts.Get(live, "chapters").value.fields, ck, JStr(content)));
    var live' := Dicts.Put(live, "chapters", chapters');
    Dicts.PutDistinct(live, "chapters", chapters');
    SchemaByKeys(live, live');
    assert Dicts.Get(live', "chapters") == Some(chapters');
  }

  /** Storing a chapter text keeps the cache coherent once the cached copy of
      that text is gone: the whole-document copy shares "chapters", and the
      other chapter texts are unchanged. */
  lemma CoherentAfterChapterWrite(entries: Entries, live: NovelData, ck: string, content: string)
    requires Dicts.DistinctKeys(live) && Dicts.HasKey(live, "chapters")
    requires Dicts.Get(live, "chapters").value.JObj?
    requires AllCoherent(entries, live)
    requires forall e :: e in entries ==> e.0 != ChapterPrefix + ck
    ensures AllCoherent(entries, Dicts.Put(live, "chapters",
      JObj(Dicts.Put(Dicts.Get(live, "chapters").value.fields, ck, JStr(content)))))
  {
    var chapters' := JObj(Dicts.Put(Dicts.Get(live, "chapters").value.fields, ck, JStr(content)));
    forall e | e in entries ensures EntryCoherent(e.0, e.1.value, Dicts.Put(live, "chapters", chapters')) {
      EntryAfterChapterWrite(e.0, e.1.value, live, ck, content);
    }
  }

  /** One cache entry other than the stored text's stays coherent. */
  lemma EntryAfterChapterWrite(key: string, value: Cached, live: NovelData, ck: string, content: string)
    requires Dicts.DistinctKeys(live) && DictAt(live, "chapters")
    requires EntryCoherent(key, value, live) && key != ChapterPrefix + ck
    ensures EntryCoherent(key, value, Dicts.Put(live, "chapters",
      JObj(Dicts.Put(Dicts.Get(live, "chapters").value.fields, ck, JStr(content)))))
  {
    var chapters' := JObj(Dicts.Put(Dicts.Get(live, "chapters").value.fields, ck, JStr(content)));
    if key == FullKey {
      SharedViewPut(value.snapshot, live, "chapters", chapters');
    } else {
      var x := key[|ChapterPrefix|..];
      assert key == ChapterPrefix + x;
      OtherChapterAfterWrite(live, ck, content, x);
    }
  }

  /** Storing one chapter text leaves every other chapter text as it was. */
  lemma OtherChapterAfterWrite(live: NovelData, ck: string, content: string, x: string)
    requires DictAt(live, "chapters") && x != ck
    ensures ChapterContentOf(Dicts.Put(live, "chapters",
      JObj(Dicts.Put(Dicts.Get(live, "chapters").value.fields, ck, JStr(content)))), x) ==
      ChapterContentOf(live, x)
  {
    Dicts.PutOther(Dicts.Get(live, "chapters").value.fields, ck, JStr(content), x);
  }

  /** `get_metadata(key, default)`: `novel_data["metadata"].get(key, default)`. */
  function MetadataOf(data: NovelData, key: string, default: Json): (r: Py<Json>)
    ensures r.Ok? <==> Dicts.HasKey(data, "metadata") && Dicts.Get(data, "metadata").value.JObj?
  {
    match Dicts.Get(data, "metadata")
    case None => Raise
    case Some(m) => GetOr(m, key, default)
  }

  /** `get_relationships()`: a copy of the "relationships" value (default
      `{}`); only a dict or a list has `.copy()`. */
  function RelationshipsOf(data: NovelData): (r: Py<Json>)
    ensures r.Ok? ==> r.value.JObj? || r.value.JArr?
  {
    var rel := match Dicts.Get(data, "relationships") case Some(x) => x case None => JObj([]);
    if rel.JObj? || rel.JArr? then Ok(rel) else Raise
  }

  /** `set_metadata` followed by `get_metadata` reads back the value stored,
      and leaves every other metadata key alone. */
  lemma MetadataRoundTrip(data: NovelData, fields: seq<(string, Json)>, key: string, value: Json, other: string, default: Json)
    requires Dicts.Get(data, "metadata") == Some(JObj(fields))
    ensures MetadataOf(Dicts.Put(data, "metadata", JObj(Dicts.Put(fields, key, value))), key, default) == Ok(value)
    ensures other != key ==>
      MetadataOf(Dicts.Put(data, "metadata", JObj(Dicts.Put(fields, key, value))), other, default) ==
      MetadataOf(data, other, default)
  {
    if other != key {
      Dicts.PutOther(fields, key, value, other);
    }
  }

  /** `set_relationships` with a dict followed by `get_relationships` gives
      the dict back. */
  lemma RelationshipsRoundTrip(data: NovelData, rel: Json)
    requires rel.JObj?
    ensures RelationshipsOf(Dicts.Put(data, "relationships", rel)) == Ok(rel)
  {
  }

  /** The document holds a dict under `k`. */
  predicate DictAt(d: NovelData, k: string) {
    Dicts.Get(d, k).Some? && Dicts.Get(d, k).value.JObj?
  }

  /** What `get_outline` returns given what the cache returned for
      `novel_data_full`: the cached copy as it reads now, or the document. */
  function OutlineRead(hit: Option<Cached>, live: NovelData): NovelData {
    if hit.Some? && hit.value.FullData? then SharedView(hit.value.snapshot, live) else live
  }

  /** Where `load_project` gets the document from: the parsed contents of the
      file, or a failure to open or parse it (FileNotFoundError,
      JSONDecodeError and any other exception). */
  datatype LoadOutcome = Parsed(doc: Json) | ReadFailed

  /** What `save_project` is asked to save: the manager's own document (the
      very same dict object) or another one. */
  datatype SaveSource = OwnData | OtherData(doc: Json)

  /** `NovelDataManager`: the document, the cache (present exactly when
      caching is enabled), the modified flag and the current file. */
  class NovelDataManager {
    var novelData: NovelData
    const cacheEnabled: bool
    const cache: DataCache.Cache?<Cached>
    var modified: bool
    var currentFile: Option<string>

    /** The document never repeats a key and keeps every default key; the
        cache has the default bounds and holds a whole-document copy under
        `novel_data_full` only. */
    predicate Valid()
      reads this, cache
    {
      Dicts.DistinctKeys(novelData) && HasSchema(novelData) &&
      (cacheEnabled <==> cache != null) &&
      (cache != null ==>
        cache.Valid() && cache.maxSize == 100 && cache.defaultTtl == Some(3600) && AllTyped(cache.entries))
    }

    /** Every cached entry agrees with the live document. */
    predicate Coherent()
      reads this, cache
    {
      Valid() && (cache != null ==> AllCoherent(cache.entries, novelData))
    }

    function CacheEntries(): Entries
      reads this, cache
    {
      if cache == null then [] else cache.entries
    }

    /** `NovelDataManager(cache_enabled)`. */
    constructor (cacheEnabled: bool)
      ensures Coherent()
      ensures novelData == DefaultData() && !modified && currentFile == None
      ensures this.cacheEnabled == cacheEnabled && CacheEntries() == []
      ensures cache != null ==> fresh(cache)
    {
      this.cacheEnabled := cacheEnabled;
      if cacheEnabled {
        cache := new DataCache.Cache(100, Some(3600));
      } else {
        cache := null;
      }
      new;
      ResetDocument();
      DefaultHasSchema();
    }

    /** `mark_modified`. */
    method MarkModified()
      modifies this
      ensures modified && novelData == old(novelData) && currentFile == old(currentFile)
      ensures old(Valid()) ==> Valid()
      ensures old(Coherent()) ==> Coherent()
    {
      modified := true;
    }

    /** The first loop of `set_outline` and `load_project`: every key of the
        document that `src` also has takes `src`'s value. Assigning to a key
        while iterating the keys writes the position being visited. */
    method OverwriteKnown(src: NovelData)
      modifies this
      ensures novelData == Overwrite(old(novelData), src)
      ensures modified == old(modified) && currentFile == old(currentFile)
    {
      ghost var cur := novelData;
      var i := 0;
      while i < |novelData|
        invariant |novelData| == |cur| && 0 <= i <= |cur|
        invariant forall j :: 0 <= j < i ==> novelData[j] == OverwriteEntry(cur[j], src)
        invariant forall j :: i <= j < |cur| ==> novelData[j] == cur[j]
        invariant modified == old(modified) && currentFile == old(currentFile)
      {
        var k := novelData[i].0;
        if Dicts.HasKey(src, k) {
          novelData := novelData[i := (k, Dicts.Get(src, k).value)];
        }
        i := i + 1;
      }
    }

    /** The document part of `set_outline`. */
    method ApplyOutline(outline: NovelData)
      requires Valid()
      modifies this
      ensures Valid()
      ensures novelData == OutlineApplied(old(novelData), outline)
      ensures modified && currentFile == old(currentFile)
    {
      ghost var cur := novelData;
      OverwriteKnown(outline);
      if Dicts.HasKey(outline, "outline") {
        novelData := Dicts.Put(novelData, "outline", Dicts.Get(outline, "outline").value);
      } else if Dicts.HasKey(outline, "volumes") {
        novelData := Dicts.Put(novelData, "outline", OutlineFromVolumes(outline));
      }
      modified := true;
      OutlineAppliedProps(cur, outline, "");
    }

    /** `set_outline`, emptying the cache: cached chapter texts may come from
        the "chapters" dictionary just replaced. */
    method SetOutline(outline: NovelData)
      requires Valid()
      modifies this, cache
      ensures Coherent()
      ensures novelData == OutlineApplied(old(novelData), outline)
      ensures modified && currentFile == old(currentFile)
      ensures CacheEntries() == []
    {
      ApplyOutline(outline);
      if cache != null {
        cache.Clear();
      }
    }

    /** `set_outline` as written: only the whole-document copy is dropped. */
    method SetOutlineAsWritten(outline: NovelData)
      requires Valid()
      modifies this, cache
      ensures Valid()
      ensures novelData == OutlineApplied(old(novelData), outline)
      ensures modified && currentFile == old(currentFile)
      ensures CacheEntries() == Dicts.Remove(old(CacheEntries()), FullKey)
    {
      ApplyOutline(outline);
      if cache != null {
        EntriesAfterRemove(cache.entries, FullKey, novelData);
        var _ := cache.Delete(FullKey);
      }
    }

    /** `get_outline`: the cached copy of the whole document if there is
        one, otherwise a fresh copy, which is then cached. On a coherent
        cache this is the live document. */
    method GetOutline(now: int) returns (r: NovelData)
      requires Valid()
      modifies cache
      ensures Valid()
      ensures r == OutlineRead(DataCache.Lookup(old(CacheEntries()), FullKey, now), novelData)
      ensures cache != null ==> (CacheEntries() ==
        var got := DataCache.AfterGet(old(CacheEntries()), FullKey, now);
        if DataCache.Lookup(old(CacheEntries()), FullKey, now).Some? then got
        else DataCache.AfterSet(got, 100, Some(3600), FullKey, FullData(novelData), None, now))
      ensures old(Coherent()) ==> Coherent() && r == novelData
    {
      if cache == null {
        r := novelData;
        return;
      }
      ghost var before := cache.entries;
      EntriesAfterGet(cache.entries, FullKey, now, novelData);
      var c := cache.Get(FullKey, now);
      match c
      case Some(v) =>
        LookupEntry(before, FullKey, now);
        r := SharedView(v.snapshot, novelData);
      case None =>
        SharedViewSelf(novelData);
        EntriesAfterSet(cache.entries, FullKey, FullData(novelData), None, now, novelData);
        cache.Set(FullKey, FullData(novelData), None, now);
        r := novelData;
    }

    /** `set_chapter_content`: store the text under
        `content_{volume}_{chapter}` in the "chapters" dictionary (raising
        when it is not a dict) and drop the cached copy of that text. */
    method SetChapterContent(v: int, c: int, content: string) returns (ok: bool)
      requires Valid()
      modifies this, cache
      ensures Valid()
      ensures ok <==> DictAt(old(novelData), "chapters")
      ensures ok ==>
        novelData == Dicts.Put(old(novelData), "chapters",
          JObj(Dicts.Put(Dicts.Get(old(novelData), "chapters").value.fields, ContentKey(v, c), JStr(content)))) &&
        modified &&
        CacheEntries() == Dicts.Remove(old(CacheEntries()), ChapterPrefix + ContentKey(v, c))
      ensures !ok ==> novelData == old(novelData) && modified == old(modified) && CacheEntries() == old(CacheEntries())
      ensures ok ==> ChapterContentOf(novelData, ContentKey(v, c)) == Ok(JStr(content))
      ensures currentFile == old(currentFile)
      ensures old(Coherent()) ==> Coherent()
    {
      assert Dicts.HasKey(novelData, "chapters") by { assert SchemaKey(14) == "chapters"; }
      var key := ContentKey(v, c);
      var chapters := Dicts.Get(novelData, "chapters").value;
      if !chapters.JObj? {
        ok := false;
        return;
      }
      StoreChapter(key, content);
      ok := true;
    }

    /** What `set_chapter_content` does once "chapters" holds a dict. */
    method StoreChapter(key: string, content: string)
      requires Valid() && DictAt(novelData, "chapters")
      modifies this, cache
      ensures Valid()
      ensures novelData == Dicts.Put(old(novelData), "chapters",
        JObj(Dicts.Put(Dicts.Get(old(novelData), "chapters").value.fields, key, JStr(content))))
      ensures modified && currentFile == old(currentFile)
      ensures CacheEntries() == Dicts.Remove(old(CacheEntries()), ChapterPrefix + key)
      ensures ChapterContentOf(novelData, key) == Ok(JStr(content))
      ensures old(Coherent()) ==> Coherent()
    {
      ghost var live := novelData;
      ChapterWritten(live, key, content);
      var chapters' := JObj(Dicts.Put(Dicts.Get(novelData, "chapters").value.fields, key, JStr(content)));
      novelData := Dicts.Put(novelData, "chapters", chapters');
      modified := true;
      if cache != null {
        EntriesAfterRemove(cache.entries, ChapterPrefix + key, live);
        var _ := cache.Delete(ChapterPrefix + key);
        if old(Coherent()) {
          CoherentAfterChapterWrite(cache.entries, live, key, content);
        }
      }
    }

    /** `get_chapter_content`: the cached text if present, otherwise the
        stored one (None as JNull), which is then cached unless it is None.
        On a coherent cache this is always the stored text. */
    method GetChapterContent(v: int, c: int, now: int) returns (r: Py<Json>)
      requires Valid()
      modifies cache
      ensures Valid()
      ensures var hit := DataCache.Lookup(old(CacheEntries()), ChapterPrefix + ContentKey(v, c), now);
        r == if hit.Some? then Ok(hit.value.text) else ChapterContentOf(novelData, ContentKey(v, c))
      ensures cache != null ==> (CacheEntries() ==
        var ck := ChapterPrefix + ContentKey(v, c);
        var got := DataCache.AfterGet(old(CacheEntries()), ck, now);
        if DataCache.Lookup(old(CacheEntries()), ck, now).Some? || !r.Ok? || r.value == JNull then got
        else DataCache.AfterSet(got, 100, Some(3600), ck, Content(r.value), None, now))
      ensures old(Coherent()) ==> Coherent() && r == ChapterContentOf(novelData, ContentKey(v, c))
    {
      var key := ContentKey(v, c);
      if cache == null {
        r := ChapterContentOf(novelData, key);
        return;
      }
      var ck := ChapterPrefix + key;
      assert ck[..|ChapterPrefix|] == ChapterPrefix && ck[|ChapterPrefix|..] == key;
      assert ck != FullKey by { assert ck[0] != FullKey[0]; }
      ghost var before := cache.entries;
      EntriesAfterGet(cache.entries, ck, now, novelData);
      var hit := cache.Get(ck, now);
      match hit
      case Some(cv) =>
        LookupEntry(before, ck, now);
        r := Ok(cv.text);
      case None =>
        r := ChapterContentOf(novelData, key);
        if r.Ok? && r.value != JNull {
          EntriesAfterSet(cache.entries, ck, Content(r.value), None, now, novelData);
          cache.Set(ck, Content(r.value), None, now);
        }
    }

    /** `set_metadata`: `novel_data["metadata"][key] = value`, raising when
        "metadata" is not a dict. */
    method SetMetadata(key: string, value: Json) returns (ok: bool)
      requires Valid()
      modifies this
      ensures Valid()
      ensures ok <==> DictAt(old(novelData), "metadata")
      ensures ok ==> modified && novelData == Dicts.Put(old(novelData), "metadata",
        JObj(Dicts.Put(Dicts.Get(old(novelData), "metadata").value.fields, key, value)))
      ensures !ok ==> novelData == old(novelData) && modified == old(modified)
      ensures currentFile == old(currentFile)
      ensures old(Coherent()) ==> Coherent()
    {
      assert Dicts.HasKey(novelData, "metadata") by { assert SchemaKey(15) == "metadata"; }
      var m := Dicts.Get(novelData, "metadata").value;
      if !m.JObj? {
        ok := false;
        return;
      }
      ghost var live := novelData;
      novelData := Dicts.Put(novelData, "metadata", JObj(Dicts.Put(m.fields, key, value)));
      Dicts.PutDistinct(live, "metadata", JObj(Dicts.Put(m.fields, key, value)));
      if cache != null && old(Coherent()) {
        CoherentAfterTopWrite(cache.entries, live, "metadata", JObj(Dicts.Put(m.fields, key, value)));
      }
      modified := true;
      ok := true;
    }

    /** `set_relationships`, dropping the cached copy of the whole document,
        which would otherwise keep the old relationships. */
    method SetRelationships(rel: Json)
      requires Valid()
      modifies this, cache
      ensures Valid()
      ensures novelData == Dicts.Put(old(novelData), "relationships", rel)
      ensures modified && currentFile == old(currentFile)
      ensures CacheEntries() == Dicts.Remove(old(CacheEntries()), FullKey)
      ensures old(Coherent()) ==> Coherent()
    {
      assert Dicts.HasKey(novelData, "relationships") by { assert SchemaKey(16) == "relationships"; }
      ghost var live := novelData;
      novelData := Dicts.Put(novelData, "relationships", rel);
      Dicts.PutDistinct(live, "relationships", rel);
      modified := true;
      if cache != null {
        EntriesAfterRemove(cache.entries, FullKey, live);
        var _ := cache.Delete(FullKey);
        if old(Coherent()) {
          CoherentAfterTopWrite(cache.entries, live, "relationships", rel);
        }
      }
    }

    /** `set_relationships` as written: the cache is left alone. */
    method SetRelationshipsAsWritten(rel: Json)
      requires Valid()
      modifies this
      ensures Valid() && CacheEntries() == old(CacheEntries())
      ensures novelData == Dicts.Put(old(novelData), "relationships", rel)
      ensures modified && currentFile == old(currentFile)
    {
      assert Dicts.HasKey(novelData, "relationships") by { assert SchemaKey(16) == "relationships"; }
      Dicts.PutDistinct(novelData, "relationships", rel);
      novelData := Dicts.Put(novelData, "relationships", rel);
      modified := true;
    }

    /** `save_project(data, filepath)`: `written` says whether creating the
        directory and writing the JSON file succeeded, `absPath` is
        `os.path.abspath(filepath)`. Saving the manager's own document
        clears the modified flag and records the file. */
    method SaveProject(source: SaveSource, absPath: string, written: bool) returns (ok: bool)
      requires Valid()
      modifies this
      ensures Valid()
      ensures ok == written
      ensures novelData == old(novelData)
      ensures ok && source.OwnData? ==> !modified && currentFile == Some(absPath)
      ensures !(ok && source.OwnData?) ==> modified == old(modified) && currentFile == old(currentFile)
    {
      if !written {
        return false;
      }
      if source.OwnData? {
        modified := false;
        currentFile := Some(absPath);
      }
      return true;
    }

    /** The second loop of `load_project`: every loaded key the document
        lacks is added, in the loaded order. */
    method AddMissingKeys(loaded: NovelData)
      modifies this
      ensures novelData == AddMissing(old(novelData), loaded)
      ensures modified == old(modified) && currentFile == old(currentFile)
    {
      ghost var start := novelData;
      var i := 0;
      while i < |loaded|
        invariant 0 <= i <= |loaded|
        invariant novelData == AddMissing(start, loaded[..i])
        invariant modified == old(modified) && currentFile == old(currentFile)
      {
        assert loaded[..i + 1][..i] == loaded[..i];
        var (k, v) := loaded[i];
        if !Dicts.HasKey(novelData, k) {
          novelData := Dicts.Put(novelData, k, v);
        }
        i := i + 1;
      }
      assert loaded[..i] == loaded;
    }

    /** `load_project`: a parsed dict is merged into the document, the
        modified flag is cleared, the file recorded, and the cache emptied
        and given a copy of the merged document; a failure to read or a
        value that is not a dict returns None and changes nothing. */
    method LoadProject(outcome: LoadOutcome, absPath: string, now: int) returns (r: Option<NovelData>)
      requires Valid()
      requires outcome.Parsed? && outcome.doc.JObj? ==> Dicts.DistinctKeys(outcome.doc.fields)
      modifies this, cache
      ensures Valid()
      ensures r.Some? <==> outcome.Parsed? && outcome.doc.JObj?
      ensures r.Some? ==>
        novelData == Merge(old(novelData), outcome.doc.fields) && r.value == novelData &&
        !modified && currentFile == Some(absPath) &&
        (cache != null ==> CacheEntries() == [(FullKey, DataCache.Item(FullKey, FullData(novelData), Some(now + 3600), now, now))])
      ensures r.None? ==> (novelData == old(novelData) && modified == old(modified) &&
        currentFile == old(currentFile) && CacheEntries() == old(CacheEntries()))
      ensures r.Some? ==> Coherent()
      ensures r.None? && old(Coherent()) ==> Coherent()
    {
      if !outcome.Parsed? || !outcome.doc.JObj? {
        return None;
      }
      var loaded := outcome.doc.fields;
      ghost var cur := novelData;
      OverwriteKnown(loaded);
      AddMissingKeys(loaded);
      MergeGet(cur, loaded, "");
      forall k | Dicts.HasKey(cur, k) ensures Dicts.HasKey(novelData, k) {
        MergeGet(cur, loaded, k);
      }
      modified := false;
      currentFile := Some(absPath);
      if cache != null {
        cache.Clear();
        SharedViewSelf(novelData);
        EntriesAfterSet([], FullKey, FullData(novelData), None, now, novelData);
        cache.Set(FullKey, FullData(novelData), None, now);
      }
      r := Some(novelData);
    }

    /** `get_total_word_count_estimate`; Raise is the TypeError or
        AttributeError an unexpected value causes. */
    method GetTotalWordCountEstimate() returns (r: Py<int>)
      ensures r == WordEstimate(novelData)
    {
      if !Dicts.HasKey(novelData, "volumes") {
        return Ok(0);
      }
      var wpc := match Dicts.Get(novelData, "words_per_chapter") case Some(w) => w case None => JNum(0);
      var vs := Iterate(Dicts.Get(novelData, "volumes").value);
      if vs.Raise? {
        return Raise;
      }
      r := AddVolumeEstimates(vs.value, wpc);
    }

    /** The outer loop of `get_total_word_count_estimate`. */
    method AddVolumeEstimates(vols: seq<Json>, wpc: Json) returns (r: Py<int>)
      ensures r == PySum(VolumeParts(vols, wpc))
    {
      ghost var parts := VolumeParts(vols, wpc);
      var count := 0;
      var i := 0;
      while i < |vols|
        invariant 0 <= i <= |vols|
        invariant PySum(parts[..i]) == Ok(count)
      {
        PySumStep(parts, i, count);
        var chs := GetOr(vols[i], "chapters", JArr([]));
        var items := if chs.Ok? then Iterate(chs.value) else Raise;
        assert parts[i] == VolumeEstimate(vols[i], wpc);
        if items.Raise? {
          return Raise;
        }
        assert parts[i] == PySum(ChapterParts(items.value, wpc));
        var counted := AddChapterEstimates(items.value, wpc, count);
        if counted.Raise? {
          return Raise;
        }
        count := counted.value;
        i := i + 1;
      }
      assert parts[..i] == parts;
      r := Ok(count);
    }

    /** The inner loop of `get_total_word_count_estimate`: add each
        chapter's share to `count`. */
    method AddChapterEstimates(chapters: seq<Json>, wpc: Json, count: int) returns (r: Py<int>)
      ensures r == match PySum(ChapterParts(chapters, wpc)) case Ok(x) => Ok(count + x) case Raise => Raise
    {
      ghost var parts := ChapterParts(chapters, wpc);
      var total := count;
      var j := 0;
      while j < |chapters|
        invariant 0 <= j <= |chapters|
        invariant PySum(parts[..j]) == Ok(total - count)
      {
        PySumStep(parts, j, total - count);
        var p := PositiveCount(wpc);
        if p.Raise? {
          return Raise;
        }
        if p.value > 0 {
          total := total + p.value;
        } else {
          var summary := GetOr(chapters[j], "summary", JStr(""));
          if summary.Raise? || !summary.value.JStr? {
            return Raise;
          }
          total := total + WordCount(summary.value.s);
        }
        j := j + 1;
      }
      assert parts[..j] == parts;
      r := Ok(total);
    }

    /** `clear_data`: back to the default document, unmodified, with no
        current file and an empty cache. */
    method ClearData()
      requires Valid()
      modifies this, cache
      ensures Coherent()
      ensures novelData == DefaultData() && !modified && currentFile == None
      ensures CacheEntries() == []
    {
      ResetDocument();
      DefaultHasSchema();
      if cache != null {
        cache.Clear();
      }
    }

    /** The document part of `clear_data`: the default document, not
        modified, no file. */
    method ResetDocument()
      modifies this
      ensures novelData == DefaultData() && !modified && currentFile == None
    {
      novelData := DefaultData();
      modified := false;
      currentFile := None;
    }
  }

  /** Each default key reads its default value. */
  lemma DefaultGet(i: nat)
    requires i < SchemaSize
    ensures Dicts.Get(DefaultData(), SchemaKey(i)) == Some(DefaultValue(i))
  {
    DefaultKeys(i);
    Dicts.GetAt(DefaultData(), i);
  }

  /** A cached copy shows the keys of the copy, in their order. */
  lemma SharedViewKeys(snapshot: NovelData, live: NovelData)
    ensures Dicts.Keys(SharedView(snapshot, live)) == Dicts.Keys(snapshot)
  {
    var view := SharedView(snapshot, live);
    forall i | 0 <= i < |view| ensures Dicts.Keys(view)[i] == Dicts.Keys(snapshot)[i] {
      Dicts.KeysAt(view, i);
      Dicts.KeysAt(snapshot, i);
    }
  }

  /** A key that is not shared reads, in a cached copy, the value it had
      when the copy was taken. */
  lemma SharedViewUnshared(snapshot: NovelData, live: NovelData, k: string)
    requires Dicts.DistinctKeys(snapshot) && !IsShared(k)
    ensures Dicts.Get(SharedView(snapshot, live), k) == Dicts.Get(snapshot, k)
  {
    var view := SharedView(snapshot, live);
    SharedViewKeys(snapshot, live);
    Dicts.DistinctKeysByKeys(snapshot, view);
    if Dicts.HasKey(snapshot, k) {
      var i :| 0 <= i < |snapshot| && Dicts.Keys(snapshot)[i] == k;
      Dicts.KeysAt(snapshot, i);
      Dicts.GetAt(snapshot, i);
      Dicts.GetAt(view, i);
    }
  }

  /** As written, `set_relationships` leaves the cached copy of the whole
      document in place. That copy took "relationships" by value, so while
      it lives `get_outline` returns a document other than the live one:
      the relationships it shows are the old ones. */
  lemma RelationshipsLeaveStaleCopy(entries: Entries, live: NovelData, rel: Json, now: int)
    requires Dicts.DistinctKeys(live) && AllCoherent(entries, live)
    requires DataCache.Lookup(entries, FullKey, now).Some?
    requires Dicts.Get(live, "relationships") != Some(rel)
    ensures var live' := Dicts.Put(live, "relationships", rel);
      var shown := OutlineRead(DataCache.Lookup(entries, FullKey, now), live');
      shown != live' && Dicts.Get(shown, "relationships") == Dicts.Get(live, "relationships")
  {
    var live' := Dicts.Put(live, "relationships", rel);
    LookupEntry(entries, FullKey, now);
    var e :| e in entries && e.0 == FullKey && e.1.value == DataCache.Lookup(entries, FullKey, now).value;
    var snap := e.1.value.snapshot;
    assert SharedView(snap, live) == live;
    SharedViewKeys(snap, live);
    Dicts.DistinctKeysByKeys(live, snap);
    SharedViewUnshared(snap, live, "relationships");
    SharedViewUnshared(snap, live', "relationships");
  }

  /** As written, `set_outline` keeps the cached chapter texts. When the new
      outline changes the text stored for a chapter whose text is cached,
      the cache still answers with the old text. */
  lemma OutlineLeavesStaleChapter(entries: Entries, live: NovelData, outline: NovelData, v: int, c: int, now: int)
    requires AllCoherent(entries, live)
    requires DataCache.Lookup(entries, ChapterPrefix + ContentKey(v, c), now).Some?
    requires ChapterContentOf(OutlineApplied(live, outline), ContentKey(v, c)) != ChapterContentOf(live, ContentKey(v, c))
    ensures var hit := DataCache.Lookup(Dicts.Remove(entries, FullKey), ChapterPrefix + ContentKey(v, c), now);
      hit.Some? && hit.value.Content? &&
      Ok(hit.value.text) == ChapterContentOf(live, ContentKey(v, c)) &&
      Ok(hit.value.text) != ChapterContentOf(OutlineApplied(live, outline), ContentKey(v, c))
  {
    var key := ContentKey(v, c);
    var ck := ChapterPrefix + key;
    assert ck[|ChapterPrefix|..] == key;
    assert ck != FullKey by { assert ck[0] != FullKey[0]; }
    Dicts.RemoveOther(entries, FullKey, ck);
    LookupEntry(entries, ck, now);
  }
}
