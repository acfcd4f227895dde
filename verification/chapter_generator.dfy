/** Chapter prompt assembly (generators/chapter_generator.py): the
    parameters gathered from the novel data for one chapter, the error
    strings for a bad volume or chapter, the prompt text, and the guarded
    delegation of both generate methods to the adapter. */
module ChapterGenerator {
  import opened Wrappers
  import opened Text
  import opened Json
  import opened AIModel

  const DefaultTitle := "未命名小说"

  /** `d.get(k, default)` on a dict. */
  function Get(d: Json, k: string, default: Json): (r: Json)
    requires d.JObj?
    ensures !Dicts.HasKey(d.fields, k) ==> r == default
    ensures Dicts.HasKey(d.fields, k) ==> (k, r) in d.fields
  {
    GetOr(d, k, default).value
  }

  /** One roster line: `- name: identity, personality, background`, each
      part `""` when missing; a roster entry that is not a dict raises. */
  function CharacterLine(c: Json): (r: Py<string>)
    ensures r.Ok? <==> c.JObj?
    ensures r.Ok? ==> StartsWith(r.value, "- " + Str(Get(c, "name", JStr(""))) + ": ")
    ensures r.Ok? ==> r.value[|r.value| - 1] == '\n'
  {
    if !c.JObj? then Raise
    else
      var head := "- " + Str(Get(c, "name", JStr(""))) + ": ";
      var parts := Str(Get(c, "identity", JStr(""))) + ", " + Str(Get(c, "personality", JStr(""))) + ", " +
        Str(Get(c, "background", JStr("")));
      var tail := parts + "\n";
      assert tail[|tail| - 1] == '\n';
      var line := head + tail;
      assert line[..|head|] == head;
      assert line[|line| - 1] == tail[|tail| - 1];
      Ok(line)
  }

  /** A text followed by one more piece; an exception in either raises. */
  function Extend(acc: Py<string>, piece: Py<string>): (r: Py<string>)
    ensures r.Ok? <==> acc.Ok? && piece.Ok?
    ensures r.Ok? ==> r.value == acc.value + piece.value
  {
    if acc.Ok? && piece.Ok? then Ok(acc.value + piece.value) else Raise
  }

  /** The character block of a roster: its lines in order. */
  function Roster(cs: seq<Json>): (r: Py<string>)
    ensures cs == [] ==> r == Ok("")
    decreases |cs|
  {
    if cs == [] then Ok("") else Extend(Roster(cs[..|cs| - 1]), CharacterLine(cs[|cs| - 1]))
  }

  /** The block of one character is its line. */
  lemma RosterOne(c: Json)
    ensures Roster([c]) == CharacterLine(c)
  {
    assert [c][..0] == [];
    assert CharacterLine(c).Ok? ==> "" + CharacterLine(c).value == CharacterLine(c).value;
  }

  /** The block of two rosters is the first block followed by the second:
      one line per character, in roster order; any entry that is not a dict
      makes the whole block raise. */
  lemma {:induction false} RosterAppend(a: seq<Json>, b: seq<Json>)
    ensures Roster(a + b) == Extend(Roster(a), Roster(b))
    decreases |b|
  {
    if b == [] {
      assert a + b == a;
      assert Roster(a).Ok? ==> Roster(a).value + "" == Roster(a).value;
    } else {
      var b' := b[..|b| - 1];
      var last := b[|b| - 1];
      assert a + b == (a + b') + [last];
      assert b == b' + [last];
      RosterSnoc(a + b', last);
      RosterSnoc(b', last);
      RosterAppend(a, b');
      ExtendAssociative(Roster(a), Roster(b'), CharacterLine(last));
    }
  }

  lemma ExtendAssociative(x: Py<string>, y: Py<string>, z: Py<string>)
    ensures Extend(Extend(x, y), z) == Extend(x, Extend(y, z))
  {
    if x.Ok? && y.Ok? && z.Ok? {
      assert x.value + y.value + z.value == x.value + (y.value + z.value);
    }
  }

  lemma RosterSnoc(cs: seq<Json>, c: Json)
    ensures Roster(cs + [c]) == Extend(Roster(cs), CharacterLine(c))
  {
    assert (cs + [c])[..|cs|] == cs;
  }

  /** An entry that is not a dict makes the block raise, whatever follows. */
  lemma {:induction false} RosterRaiseStays(cs: seq<Json>, i: nat)
    requires i <= |cs| && Roster(cs[..i]).Raise?
    ensures Roster(cs).Raise?
  {
    assert cs[..i] + cs[i..] == cs;
    RosterAppend(cs[..i], cs[i..]);
  }

  /** The loop that accumulates the character block. */
  method CharactersInfo(cs: seq<Json>) returns (r: Py<string>)
    ensures r == Roster(cs)
  {
    var info := "";
    var i := 0;
    while i < |cs|
      invariant 0 <= i <= |cs|
      invariant Roster(cs[..i]) == Ok(info)
    {
      assert cs[..i + 1][..i] == cs[..i];
      var line := CharacterLine(cs[i]);
      if line.Raise? {
        RosterRaiseStays(cs, i + 1);
        return Raise;
      }
      info := info + line.value;
      i := i + 1;
    }
    assert cs[..i] == cs;
    r := Ok(info);
  }

  /** The parameters of one chapter prompt. */
  datatype Params = Params(
    title: Json, theme: Json, worldbuilding: Json, charactersInfo: string,
    volumeTitle: Json, volumeDescription: Json,
    chapterTitle: Json, chapterSummary: Json,
    previousSummary: Json, nextSummary: Json)

  /** `_prepare_prompt_params`: the parameters, or the error string it
      returns instead. */
  datatype Prepared = Ready(params: Params) | Invalid(message: string)

  function VolumeRangeError(v: nat): string { "错误：卷索引 " + NatToString(v) + " 超出范围或卷数据无效" }
  function VolumeShapeError(v: nat): string { "错误：卷数据格式不正确 (索引 " + NatToString(v) + ")" }
  function ChapterRangeError(c: nat): string { "错误：章节索引 " + NatToString(c) + " 超出范围或章节数据无效" }
  function ChapterShapeError(v: nat, c: nat): string {
    "错误：章节数据格式不正确 (卷 " + NatToString(v) + ", 章 " + NatToString(c) + ")"
  }

  /** The summary of a neighbouring chapter: `""` unless it is a dict. */
  function NeighbourSummary(ch: Json): Json {
    if ch.JObj? then Get(ch, "summary", JStr("")) else JStr("")
  }

  /** What `_prepare_prompt_params(novel, v, c)` gives. The character
      block is built first, so a bad roster raises before any index is
      checked. */
  function Prepare(novel: Json, v: nat, c: nat): (r: Py<Prepared>)
    ensures r.Raise? <==> (!novel.JObj? ||
      Iterate(Get(novel, "characters", JArr([]))).Raise? ||
      Roster(Iterate(Get(novel, "characters", JArr([]))).value).Raise?)
    ensures r.Ok? && r.value.Ready? ==>
      var vols := Get(novel, "volumes", JArr([]));
      vols.JArr? && v < |vols.items| && vols.items[v].JObj? &&
      var chs := Get(vols.items[v], "chapters", JArr([]));
      chs.JArr? && c < |chs.items| && chs.items[c].JObj?
    ensures r.Ok? && r.value.Ready? ==>
      (c == 0 ==> r.value.params.previousSummary == JStr("")) &&
      (c + 1 == |Get(Get(novel, "volumes", JArr([])).items[v], "chapters", JArr([])).items| ==>
         r.value.params.nextSummary == JStr(""))
  {
    if !novel.JObj? then Raise
    else match Iterate(Get(novel, "characters", JArr([])))
      case Raise => Raise
      case Ok(roster) =>
        match Roster(roster)
        case Raise => Raise
        case Ok(info) =>
          var vols := Get(novel, "volumes", JArr([]));
          if !vols.JArr? || v >= |vols.items| then Ok(Invalid(VolumeRangeError(v)))
          else
            var vol := vols.items[v];
            if !vol.JObj? then Ok(Invalid(VolumeShapeError(v)))
            else
              var chs := Get(vol, "chapters", JArr([]));
              if !chs.JArr? || c >= |chs.items| then Ok(Invalid(ChapterRangeError(c)))
              else
                var ch := chs.items[c];
                if !ch.JObj? then Ok(Invalid(ChapterShapeError(v, c)))
                else
                  var prev := if c > 0 then NeighbourSummary(chs.items[c - 1]) else JStr("");
                  var next := if c < |chs.items| - 1 then NeighbourSummary(chs.items[c + 1]) else JStr("");
                  Ok(Ready(Params(
                    Get(novel, "title", JStr(DefaultTitle)), Get(novel, "theme", JStr("")),
                    Get(novel, "worldbuilding", JStr("")), info,
                    Get(vol, "title", JStr("第" + NatToString(v + 1) + "卷")), Get(vol, "description", JStr("")),
                    Get(ch, "title", JStr("第" + NatToString(c + 1) + "章")), Get(ch, "summary", JStr("")),
                    prev, next)))
  }

  /** `_prepare_prompt_params`, accumulating the character block in its
      loop. */
  method PrepareParams(novel: Json, v: nat, c: nat) returns (r: Py<Prepared>)
    ensures r == Prepare(novel, v, c)
  {
    if !novel.JObj? {
      return Raise;
    }
    var roster := Iterate(Get(novel, "characters", JArr([])));
    if roster.Raise? {
      return Raise;
    }
    var info := CharactersInfo(roster.value);
    if info.Raise? {
      return Raise;
    }
    var vols := Get(novel, "volumes", JArr([]));
    if !vols.JArr? || v >= |vols.items| {
      return Ok(Invalid(VolumeRangeError(v)));
    }
    var vol := vols.items[v];
    if !vol.JObj? {
      return Ok(Invalid(VolumeShapeError(v)));
    }
    var chs := Get(vol, "chapters", JArr([]));
    if !chs.JArr? || c >= |chs.items| {
      return Ok(Invalid(ChapterRangeError(c)));
    }
    var ch := chs.items[c];
    if !ch.JObj? {
      return Ok(Invalid(ChapterShapeError(v, c)));
    }
    var prev := JStr("");
    if c > 0 {
      prev := NeighbourSummary(chs.items[c - 1]);
    }
    var next := JStr("");
    if c < |chs.items| - 1 {
      next := NeighbourSummary(chs.items[c + 1]);
    }
    r := Ok(Ready(Params(
      Get(novel, "title", JStr(DefaultTitle)), Get(novel, "theme", JStr("")),
      Get(novel, "worldbuilding", JStr("")), info.value,
      Get(vol, "title", JStr("第" + NatToString(v + 1) + "卷")), Get(vol, "description", JStr("")),
      Get(ch, "title", JStr("第" + NatToString(c + 1) + "章")), Get(ch, "summary", JStr("")),
      prev, next)));
  }

  /** A volume index past the end (or volumes that are not a list) gives the
      range error; a volume that is not a dict gives the format error. */
  lemma BadVolume(novel: Json, v: nat, c: nat)
    requires Prepare(novel, v, c).Ok?
    ensures var vols := Get(novel, "volumes", JArr([]));
      (!vols.JArr? || v >= |vols.items| ==> Prepare(novel, v, c) == Ok(Invalid(VolumeRangeError(v)))) &&
      (vols.JArr? && v < |vols.items| && !vols.items[v].JObj? ==> Prepare(novel, v, c) == Ok(Invalid(VolumeShapeError(v))))
  {
  }

  /** The same for the chapter within a valid volume. */
  lemma BadChapter(novel: Json, v: nat, c: nat)
    requires Prepare(novel, v, c).Ok?
    requires var vols := Get(novel, "volumes", JArr([])); vols.JArr? && v < |vols.items| && vols.items[v].JObj?
    ensures var chs := Get(Get(novel, "volumes", JArr([])).items[v], "chapters", JArr([]));
      (!chs.JArr? || c >= |chs.items| ==> Prepare(novel, v, c) == Ok(Invalid(ChapterRangeError(c)))) &&
      (chs.JArr? && c < |chs.items| && !chs.items[c].JObj? ==> Prepare(novel, v, c) == Ok(Invalid(ChapterShapeError(v, c))))
  {
  }

  /** The defaults: a novel, volume and chapter that give no title or
      summary get `未命名小说`, `第{v+1}卷`, `第{c+1}章` and `""`. */
  lemma Defaults(novel: Json, v: nat, c: nat)
    requires Prepare(novel, v, c).Ok? && Prepare(novel, v, c).value.Ready?
    ensures var p := Prepare(novel, v, c).value.params;
      var vol := Get(novel, "volumes", JArr([])).items[v];
      var ch := Get(vol, "chapters", JArr([])).items[c];
      (!Dicts.HasKey(novel.fields, "title") ==> p.title == JStr(DefaultTitle)) &&
      (!Dicts.HasKey(novel.fields, "theme") ==> p.theme == JStr("")) &&
      (!Dicts.HasKey(vol.fields, "title") ==> p.volumeTitle == JStr("第" + NatToString(v + 1) + "卷")) &&
      (!Dicts.HasKey(vol.fields, "description") ==> p.volumeDescription == JStr("")) &&
      (!Dicts.HasKey(ch.fields, "title") ==> p.chapterTitle == JStr("第" + NatToString(c + 1) + "章")) &&
      (!Dicts.HasKey(ch.fields, "summary") ==> p.chapterSummary == JStr(""))
  {
  }

  /** The neighbours' summaries come from chapters c-1 and c+1 when those
      exist and are dicts. */
  lemma Neighbours(novel: Json, v: nat, c: nat)
    requires Prepare(novel, v, c).Ok? && Prepare(novel, v, c).value.Ready?
    ensures var p := Prepare(novel, v, c).value.params;
      var chs := Get(Get(novel, "volumes", JArr([])).items[v], "chapters", JArr([])).items;
      (c > 0 && chs[c - 1].JObj? ==> p.previousSummary == Get(chs[c - 1], "summary", JStr(""))) &&
      (c > 0 && !chs[c - 1].JObj? ==> p.previousSummary == JStr("")) &&
      (c + 1 < |chs| && chs[c + 1].JObj? ==> p.nextSummary == Get(chs[c + 1], "summary", JStr(""))) &&
      (c + 1 < |chs| && !chs[c + 1].JObj? ==> p.nextSummary == JStr(""))
  {
  }

  const Indent := "        "

  /** `{tag + s if s else ""}`: nothing for a falsy value; a truthy value
      that is not a string cannot be added to the label and raises. */
  function Labelled(tag: string, s: Json): (r: Py<string>)
    ensures !Truthy(s) ==> r == Ok("")
    ensures Truthy(s) && s.JStr? ==> r == Ok(tag + s.s)
    ensures Truthy(s) && !s.JStr? ==> r.Raise?
  {
    if !Truthy(s) then Ok("")
    else if s.JStr? then Ok(tag + s.s)
    else Raise
  }

  /** The lines of the chapter prompt, without their line breaks. */
  function PromptLines(p: Params): (r: Py<seq<string>>)
    ensures r.Raise? <==> Labelled("前一章节摘要：", p.previousSummary).Raise? || Labelled("后一章节摘要：", p.nextSummary).Raise?
    ensures r.Ok? ==> |r.value| == 27
    ensures r.Ok? ==>
      r.value[3] == Indent + ("小说标题：" + Str(p.title)) &&
      r.value[10] == Indent + ("当前卷：" + Str(p.volumeTitle)) &&
      r.value[13] == Indent + ("当前章节：" + Str(p.chapterTitle)) &&
      r.value[14] == Indent + ("章节摘要：" + Str(p.chapterSummary))
    ensures r.Ok? ==> r.value[16] == if Truthy(p.previousSummary) then Indent + ("前一章节摘要：" + p.previousSummary.s) else Indent
    ensures r.Ok? ==> r.value[17] == if Truthy(p.nextSummary) then Indent + ("后一章节摘要：" + p.nextSummary.s) else Indent
  {
    var prev := Labelled("前一章节摘要：", p.previousSummary);
    var next := Labelled("后一章节摘要：", p.nextSummary);
    if prev.Raise? || next.Raise? then Raise
    else
      assert Indent + "" == Indent;
      Ok(SettingLines(p) + ChapterLines(p, prev.value, next.value) + RequestLines())
  }

  /** Prompt lines 0 to 8: the novel's setting and its characters. */
  function SettingLines(p: Params): (r: seq<string>)
    ensures |r| == 9 && r[3] == Indent + ("小说标题：" + Str(p.title))
  {
    [
      "",
      Indent + "请为以下小说生成一个完整的章节内容：",
      "",
      Indent + ("小说标题：" + Str(p.title)),
      Indent + "核心主题：" + Str(p.theme),
      Indent + "世界观设定：" + Str(p.worldbuilding),
      "",
      Indent + "主要人物：",
      Indent + p.charactersInfo
    ]
  }

  /** Prompt lines 9 to 18: the volume, the chapter and its neighbours. */
  function ChapterLines(p: Params, prev: string, next: string): (r: seq<string>)
    ensures |r| == 10
    ensures r[1] == Indent + ("当前卷：" + Str(p.volumeTitle)) &&
      r[4] == Indent + ("当前章节：" + Str(p.chapterTitle)) &&
      r[5] == Indent + ("章节摘要：" + Str(p.chapterSummary))
    ensures r[7] == Indent + prev && r[8] == Indent + next
  {
    [
      "",
      Indent + ("当前卷：" + Str(p.volumeTitle)),
      Indent + "卷简介：" + Str(p.volumeDescription),
      "",
      Indent + ("当前章节：" + Str(p.chapterTitle)),
      Indent + ("章节摘要：" + Str(p.chapterSummary)),
      "",
      Indent + prev,
      Indent + next,
      ""
    ]
  }

  /** Prompt lines 19 to 26: what the chapter should be. */
  function RequestLines(): (r: seq<string>)
    ensures |r| == 8
  {
    [
      Indent + "请根据以上信息，创作一个完整、连贯、生动的章节内容。内容应该：",
      Indent + "1. 符合章节摘要的描述",
      Indent + "2. 与前后章节保持连贯",
      Indent + "3. 展现人物性格和发展",
      Indent + "4. 符合小说的整体风格和主题",
      Indent + "5. 包含丰富的对话、描写和情节发展",
      "",
      Indent + "请直接返回章节内容，不要包含其他解释或说明。"
    ]
  }

  /** Lines, each followed by a line break. */
  function Render(lines: seq<string>): (r: string)
    ensures lines == [] ==> r == ""
    decreases |lines|
  {
    if lines == [] then "" else lines[0] + "\n" + Render(lines[1..])
  }

  /** Every line appears in the rendered text. */
  lemma {:induction false} RenderContains(lines: seq<string>, k: nat)
    requires k < |lines|
    ensures Contains(Render(lines), lines[k])
    decreases |lines|
  {
    var rest := Render(lines[1..]);
    if k == 0 {
      assert OccursAt(Render(lines), lines[0], 0) by {
        assert Render(lines) == lines[0] + ("\n" + rest);
        assert Render(lines)[..|lines[0]|] == lines[0];
      }
    } else {
      RenderContains(lines[1..], k - 1);
      var i :| 0 <= i <= |rest| && OccursAt(rest, lines[k], i);
      var off := |lines[0]| + 1;
      assert Render(lines) == (lines[0] + "\n") + rest;
      assert Render(lines)[off + i..off + i + |lines[k]|] == rest[i..i + |lines[k]|];
      assert OccursAt(Render(lines), lines[k], off + i);
    }
  }

  /** `_create_chapter_prompt_from_params`: the rendered lines followed by
      the closing indentation. */
  function Prompt(p: Params): (r: Py<string>)
    ensures r.Ok? <==> PromptLines(p).Ok?
  {
    match PromptLines(p) case Raise => Raise case Ok(lines) => Ok(Render(lines) + Indent)
  }

  /** Every line of the prompt appears in it. */
  lemma PromptHasLine(p: Params, k: nat)
    requires Prompt(p).Ok? && k < 27
    ensures Contains(Prompt(p).value, PromptLines(p).value[k])
  {
    var lines := PromptLines(p).value;
    var text := Prompt(p).value;
    RenderContains(lines, k);
    var i :| 0 <= i <= |Render(lines)| && OccursAt(Render(lines), lines[k], i);
    assert text[i..i + |lines[k]|] == Render(lines)[i..i + |lines[k]|];
    assert OccursAt(text, lines[k], i);
  }

  lemma DropIndent(x: string, y: string)
    requires Contains(x, Indent + y)
    ensures Contains(x, y)
  {
    var i :| 0 <= i <= |x| && OccursAt(x, Indent + y, i);
    assert x[i + 8..i + 8 + |y|] == (Indent + y)[8..];
    assert OccursAt(x, y, i + 8);
  }

  /** The prompt holds the title, the volume and chapter titles and the
      chapter summary verbatim, and a neighbour's summary line when that
      summary is non-empty (its line is blank otherwise). */
  lemma PromptContents(p: Params)
    requires Prompt(p).Ok?
    ensures var text := Prompt(p).value;
      Contains(text, "小说标题：" + Str(p.title)) && Contains(text, "当前卷：" + Str(p.volumeTitle)) &&
      Contains(text, "当前章节：" + Str(p.chapterTitle)) && Contains(text, "章节摘要：" + Str(p.chapterSummary))
    ensures Truthy(p.previousSummary) ==> Contains(Prompt(p).value, "前一章节摘要：" + p.previousSummary.s)
    ensures Truthy(p.nextSummary) ==> Contains(Prompt(p).value, "后一章节摘要：" + p.nextSummary.s)
  {
    var text := Prompt(p).value;
    PromptHasLine(p, 3);
    DropIndent(text, "小说标题：" + Str(p.title));
    PromptHasLine(p, 10);
    DropIndent(text, "当前卷：" + Str(p.volumeTitle));
    PromptHasLine(p, 13);
    DropIndent(text, "当前章节：" + Str(p.chapterTitle));
    PromptHasLine(p, 14);
    DropIndent(text, "章节摘要：" + Str(p.chapterSummary));
    if Truthy(p.previousSummary) {
      PromptHasLine(p, 16);
      DropIndent(text, "前一章节摘要：" + p.previousSummary.s);
    }
    if Truthy(p.nextSummary) {
      PromptHasLine(p, 17);
      DropIndent(text, "后一章节摘要：" + p.nextSummary.s);
    }
  }

  /** What a generate method does before calling the model: refuse an
      invalid index with a ValueError carrying the error string, or build
      the prompt. */
  datatype Outcome<T> = Rejected(message: string) | Crashed | Delegated(value: T)

  function ChapterPrompt(novel: Json, v: nat, c: nat): (r: Outcome<string>)
    ensures r.Rejected? <==> Prepare(novel, v, c).Ok? && Prepare(novel, v, c).value.Invalid?
    ensures r.Rejected? ==> r.message == Prepare(novel, v, c).value.message
    ensures r.Delegated? ==> (Prepare(novel, v, c).Ok? && Prepare(novel, v, c).value.Ready? &&
      Prompt(Prepare(novel, v, c).value.params) == Ok(r.value))
  {
    match Prepare(novel, v, c)
    case Raise => Crashed
    case Ok(Invalid(message)) => Rejected(message)
    case Ok(Ready(p)) => match Prompt(p) case Raise => Crashed case Ok(text) => Delegated(text)
  }

  /** `generate_chapter`: the model's answer to the chapter prompt; the
      model is never asked when the indices are invalid. */
  function GenerateChapter(novel: Json, v: nat, c: nat, generate: string -> Reply): (r: Outcome<Reply>)
    ensures ChapterPrompt(novel, v, c).Rejected? ==> r == Rejected(ChapterPrompt(novel, v, c).message)
    ensures ChapterPrompt(novel, v, c).Crashed? ==> r == Crashed
    ensures ChapterPrompt(novel, v, c).Delegated? ==> r == Delegated(generate(ChapterPrompt(novel, v, c).value))
  {
    match ChapterPrompt(novel, v, c)
    case Rejected(m) => Rejected(m)
    case Crashed => Crashed
    case Delegated(prompt) => Delegated(generate(prompt))
  }

  /** The re-yield loop: each chunk of the model's stream is passed to the
      callback (when there is one) and then yielded, unchanged and in
      order; the stream ends as the model's stream ended. */
  method ReYield(s: Streamed, callback: bool) returns (events: seq<Event>, end: End)
    ensures events == Trace(s.chunks, callback) && end == s.end
    ensures Yields(events) == s.chunks
  {
    events := [];
    var i := 0;
    while i < |s.chunks|
      invariant 0 <= i <= |s.chunks|
      invariant events == Trace(s.chunks[..i], callback)
    {
      TraceSnoc(s.chunks[..i], s.chunks[i], callback);
      assert s.chunks[..i + 1] == s.chunks[..i] + [s.chunks[i]];
      if callback {
        events := events + [Callback(s.chunks[i])];
      }
      events := events + [Yield(s.chunks[i])];
      i := i + 1;
    }
    assert s.chunks[..i] == s.chunks;
    TraceShape(s.chunks, callback);
    end := s.end;
  }

  /** `generate_chapter_stream`: refused before the model is asked when the
      indices are invalid; otherwise the model's stream, re-yielded. */
  method GenerateChapterStream(novel: Json, v: nat, c: nat, stream: string -> Streamed, callback: bool)
    returns (r: Outcome<(seq<Event>, End)>)
    ensures ChapterPrompt(novel, v, c).Rejected? ==> r == Rejected(ChapterPrompt(novel, v, c).message)
    ensures ChapterPrompt(novel, v, c).Crashed? ==> r == Crashed
    ensures ChapterPrompt(novel, v, c).Delegated? ==>
      var s := stream(ChapterPrompt(novel, v, c).value);
      r == Delegated((Trace(s.chunks, callback), s.end)) && Yields(r.value.0) == s.chunks
  {
    var prepared := PrepareParams(novel, v, c);
    if prepared.Raise? {
      return Crashed;
    }
    if prepared.value.Invalid? {
      return Rejected(prepared.value.message);
    }
    var prompt := Prompt(prepared.value.params);
    if prompt.Raise? {
      return Crashed;
    }
    var events, end := ReYield(stream(prompt.value), callback);
    r := Delegated((events, end));
  }
}
