/** The chapter-analysis tab's text handling: the prompt that asks a model to
    analyse chapters, and the extraction of one titled section from the
    model's answer. */
module ChapterAnalysis {
  import opened Wrappers
  import opened Text
  import opened Json
  import Dicts

  // Building the analysis prompt

  /** `d.get(k)` is truthy. */
  predicate Given(d: seq<(string, Json)>, k: string) {
    Dicts.Get(d, k).Some? && Truthy(Dicts.Get(d, k).value)
  }

  /** `d.get(k)`, None being `JNull`. */
  function ValueOf(d: seq<(string, Json)>, k: string): (r: Json)
    ensures Given(d, k) ==> Dicts.Get(d, k) == Some(r)
  {
    match Dicts.Get(d, k)
    case Some(v) => v
    case None => JNull
  }

  /** The texts `xs` written one after the other. */
  function Concat(xs: seq<string>): string
    decreases |xs|
  {
    if xs == [] then "" else Concat(xs[..|xs| - 1]) + xs[|xs| - 1]
  }

  /** The lines among the first `k` whose switch is on, in order. */
  function Pick(lines: seq<string>, on: seq<bool>, k: nat): (r: seq<string>)
    requires k <= |lines| == |on|
    ensures |r| <= k
    decreases k
  {
    if k == 0 then []
    else Pick(lines, on, k - 1) + (if on[k - 1] then [lines[k - 1]] else [])
  }

  /** Writing the picked lines grows by one line when its switch is on. */
  lemma PickConcat(lines: seq<string>, on: seq<bool>, k: nat)
    requires 0 < k <= |lines| == |on|
    ensures Concat(Pick(lines, on, k)) ==
      Concat(Pick(lines, on, k - 1)) + (if on[k - 1] then lines[k - 1] else "")
  {
    var before := Pick(lines, on, k - 1);
    if on[k - 1] {
      assert (before + [lines[k - 1]])[..|before|] == before;
    } else {
      assert Pick(lines, on, k) == before + [] == before;
    }
  }

  /** `acc` followed, one `+=` at a time, by the first `k` lines whose
      switch is on. */
  function Append(acc: string, lines: seq<string>, on: seq<bool>, k: nat): string
    requires k <= |lines| == |on|
    decreases k
  {
    if k == 0 then acc
    else Append(acc, lines, on, k - 1) + (if on[k - 1] then lines[k - 1] else "")
  }

  /** Appending line by line writes the picked lines after `acc`. */
  lemma {:induction false} AppendIsConcat(acc: string, lines: seq<string>, on: seq<bool>, k: nat)
    requires k <= |lines| == |on|
    ensures Append(acc, lines, on, k) == acc + Concat(Pick(lines, on, k))
    decreases k
  {
    if k > 0 {
      AppendIsConcat(acc, lines, on, k - 1);
      PickConcat(lines, on, k);
      var piece := if on[k - 1] then lines[k - 1] else "";
      assert (acc + Concat(Pick(lines, on, k - 1))) + piece == acc + (Concat(Pick(lines, on, k - 1)) + piece);
    }
  }

  /** Every picked line is a line whose switch is on. */
  lemma {:induction false} PickedAreOn(lines: seq<string>, on: seq<bool>, k: nat, x: string)
    requires k <= |lines| == |on|
    requires x in Pick(lines, on, k)
    ensures exists i :: 0 <= i < k && on[i] && x == lines[i]
    decreases k
  {
    if x in Pick(lines, on, k - 1) {
      PickedAreOn(lines, on, k - 1, x);
    }
  }

  /** Lines that begin with different characters are picked exactly when
      their switch is on. */
  lemma {:induction false} PickedIffOn(lines: seq<string>, on: seq<bool>, k: nat, j: nat)
    requires k <= |lines| == |on| && j < |lines|
    requires forall i :: 0 <= i < |lines| ==> lines[i] != ""
    requires forall i :: 0 <= i < |lines| && i != j ==> lines[i][0] != lines[j][0]
    ensures lines[j] in Pick(lines, on, k) <==> j < k && on[j]
    decreases k
  {
    if k > 0 {
      PickedIffOn(lines, on, k - 1, j);
    }
  }

  const Opening := "请对以下章节内容进行详细分析：\n\n"

  /** The outline fields shown to the model, with their labels. */
  const InfoKeys: seq<string> := ["title", "theme", "synopsis", "worldbuilding"]
  const InfoLabels: seq<string> := ["小说标题：", "中心思想：", "故事梗概：", "世界观设定："]

  /** The analysis options, with the request each one adds. */
  const OptionKeys: seq<string> := ["plot", "summary", "pros_cons", "character", "item", "improvement"]
  const Requirements: seq<string> := [
    "1. 核心剧情分析：提取章节中的核心剧情线索，分析情节发展和转折点。\n\n",
    "2. 故事梗概提取：简明扼要地总结章节内容，突出关键事件。\n\n",
    "3. 优缺点分析：分析章节写作的优点和不足之处。\n\n",
    "4. 角色标注：标注章节中出现的主要角色，分析其性格特点和行为动机。\n\n",
    "5. 物品标注：标注章节中出现的重要物品，分析其原本含义和在文本中的象征意义。\n\n",
    "6. 改进建议：提供具体的改进建议，包括情节、人物、对话、描写等方面。\n\n"
  ]

  const RequestHeader := "请进行以下分析：\n\n"
  const Closing := "请以Markdown格式输出分析结果，使用标题、列表等格式元素使结果清晰易读。每个分析部分请使用二级标题（##）标明。"

  /** One line per outline field, whether or not it is given. */
  function InfoLines(info: seq<(string, Json)>): (r: seq<string>)
    ensures |r| == 4
    ensures forall j :: 0 <= j < 4 ==> r[j] == InfoLabels[j] + Str(ValueOf(info, InfoKeys[j])) + "\n"
  {
    seq(4, j requires 0 <= j < 4 => InfoLabels[j] + Str(ValueOf(info, InfoKeys[j])) + "\n")
  }

  function InfoOn(info: seq<(string, Json)>): (r: seq<bool>)
    ensures |r| == 4
    ensures forall j :: 0 <= j < 4 ==> r[j] == Given(info, InfoKeys[j])
  {
    seq(4, j requires 0 <= j < 4 => Given(info, InfoKeys[j]))
  }

  function OptionsOn(options: seq<(string, Json)>): (r: seq<bool>)
    ensures |r| == 6
    ensures forall j :: 0 <= j < 6 ==> r[j] == Given(options, OptionKeys[j])
  {
    seq(6, j requires 0 <= j < 6 => Given(options, OptionKeys[j]))
  }

  /** The novel-information block: a line for each given outline field. */
  function InfoBlock(info: seq<(string, Json)>): seq<string> {
    Pick(InfoLines(info), InfoOn(info), 4)
  }

  /** The requests for the chosen options, in option order. */
  function RequestBlock(options: seq<(string, Json)>): seq<string> {
    Pick(Requirements, OptionsOn(options), 6)
  }

  /** The chapters' titles and contents. */
  function ChapterBlock(contents: seq<string>, titles: seq<string>): string {
    "\n要分析的章节：" + Join("、", titles) + "\n\n" +
    "章节内容：\n\n" + Join("\n\n---\n\n", contents) + "\n\n"
  }

  /** `_build_analysis_prompt`: the opening, a line for each given outline
      field, the chapters, a request for each chosen option and the
      output-format instruction. */
  function AnalysisPrompt(contents: seq<string>, titles: seq<string>,
                          info: seq<(string, Json)>, options: seq<(string, Json)>): (r: string)
    ensures EndsWith(r, Closing)
  {
    var head := Append(Opening, InfoLines(info), InfoOn(info), 4) + ChapterBlock(contents, titles) + RequestHeader;
    var body := Append(head, Requirements, OptionsOn(options), 6);
    assert (body + Closing)[|body|..] == Closing;
    body + Closing
  }

  /** The prompt is made of its blocks in order: the novel information, the
      chapters, the requests, the closing instruction. */
  lemma PromptShape(contents: seq<string>, titles: seq<string>,
                    info: seq<(string, Json)>, options: seq<(string, Json)>)
    ensures AnalysisPrompt(contents, titles, info, options) ==
      Opening + Concat(InfoBlock(info)) + ChapterBlock(contents, titles) +
      RequestHeader + Concat(RequestBlock(options)) + Closing
  {
    AppendIsConcat(Opening, InfoLines(info), InfoOn(info), 4);
    var head := Append(Opening, InfoLines(info), InfoOn(info), 4) + ChapterBlock(contents, titles) + RequestHeader;
    AppendIsConcat(head, Requirements, OptionsOn(options), 6);
  }

  /** The chapter lines written one `+=` at a time make up the chapter
      block. */
  lemma ChapterLines(p: string, contents: seq<string>, titles: seq<string>)
    ensures p + "\n要分析的章节：" + Join("、", titles) + "\n\n" + "章节内容：\n\n" +
      Join("\n\n---\n\n", contents) + "\n\n" == p + ChapterBlock(contents, titles)
  {
  }

  /** The outline labels begin with different characters. */
  lemma LabelHeads()
    ensures forall i :: 0 <= i < 4 ==> InfoLabels[i] != ""
    ensures forall i, j :: 0 <= i < 4 && 0 <= j < 4 && i != j ==> InfoLabels[i][0] != InfoLabels[j][0]
  {
    assert InfoLabels[0][0] == '小' && InfoLabels[1][0] == '中';
    assert InfoLabels[2][0] == '故' && InfoLabels[3][0] == '世';
  }

  lemma HeadOfAppend(a: string, b: string)
    requires a != []
    ensures a + b != [] && (a + b)[0] == a[0]
  {
  }

  /** The outline lines begin with their labels' different first characters. */
  lemma InfoLinesDistinct(info: seq<(string, Json)>)
    ensures forall i :: 0 <= i < 4 ==> InfoLines(info)[i] != "" && InfoLines(info)[i][0] == InfoLabels[i][0]
    ensures forall i, j :: 0 <= i < 4 && 0 <= j < 4 && i != j ==> InfoLabels[i][0] != InfoLabels[j][0]
  {
    LabelHeads();
    var lines := InfoLines(info);
    forall i | 0 <= i < 4 ensures lines[i] != "" && lines[i][0] == InfoLabels[i][0] {
      var v := Str(ValueOf(info, InfoKeys[i]));
      HeadOfAppend(InfoLabels[i], v);
      HeadOfAppend(InfoLabels[i] + v, "\n");
    }
  }

  /** A given outline field has its line written. */
  lemma InfoWhenGiven(info: seq<(string, Json)>, j: nat)
    requires j < 4
    ensures Given(info, InfoKeys[j]) <==>
      InfoLabels[j] + Str(ValueOf(info, InfoKeys[j])) + "\n" in InfoBlock(info)
  {
    InfoLinesDistinct(info);
    PickedIffOn(InfoLines(info), InfoOn(info), 4, j);
  }

  /** A line carrying an outline field's label is written only when that
      field is given. */
  lemma InfoOnlyWhenGiven(info: seq<(string, Json)>, j: nat, l: string)
    requires j < 4 && l in InfoBlock(info) && StartsWith(l, InfoLabels[j])
    ensures Given(info, InfoKeys[j])
  {
    InfoLinesDistinct(info);
    PickedAreOn(InfoLines(info), InfoOn(info), 4, l);
    var i :| 0 <= i < 4 && InfoOn(info)[i] && l == InfoLines(info)[i];
    assert l[0] == InfoLabels[j][0];
  }

  /** With every switch on the first `k` lines are all picked. */
  lemma {:induction false} PickAll(lines: seq<string>, on: seq<bool>, k: nat)
    requires k <= |lines| == |on|
    requires forall i :: 0 <= i < k ==> on[i]
    ensures Pick(lines, on, k) == lines[..k]
    decreases k
  {
    if k > 0 {
      PickAll(lines, on, k - 1);
      assert lines[..k - 1] + [lines[k - 1]] == lines[..k];
    }
  }

  /** With every switch off nothing is picked. */
  lemma {:induction false} PickNone(lines: seq<string>, on: seq<bool>, k: nat)
    requires k <= |lines| == |on|
    requires forall i :: 0 <= i < k ==> !on[i]
    ensures Pick(lines, on, k) == []
    decreases k
  {
    if k > 0 {
      PickNone(lines, on, k - 1);
    }
  }

  /** With every option set all six requests are made, in order; with none
      set, none is. */
  lemma AllOrNoRequests(options: seq<(string, Json)>)
    ensures (forall j :: 0 <= j < 6 ==> Given(options, OptionKeys[j])) ==> RequestBlock(options) == Requirements
    ensures (forall j :: 0 <= j < 6 ==> !Given(options, OptionKeys[j])) ==> RequestBlock(options) == []
  {
    var on := OptionsOn(options);
    if forall j :: 0 <= j < 6 ==> Given(options, OptionKeys[j]) {
      PickAll(Requirements, on, 6);
      assert Requirements[..6] == Requirements;
    }
    if forall j :: 0 <= j < 6 ==> !Given(options, OptionKeys[j]) {
      PickNone(Requirements, on, 6);
    }
  }

  /** Each request is written exactly when its option is chosen, whatever
      the other options are. */
  lemma RequestWhenChosen(options: seq<(string, Json)>, j: nat)
    requires j < 6
    ensures Requirements[j] in RequestBlock(options) <==> Given(options, OptionKeys[j])
  {
    RequirementHeads();
    PickedIffOn(Requirements, OptionsOn(options), 6, j);
  }

  /** The requests start with the distinct digits 1 to 6. */
  lemma RequirementHeads()
    ensures forall i :: 0 <= i < 6 ==> Requirements[i] != ""
    ensures forall i, j :: 0 <= i < 6 && 0 <= j < 6 && i != j ==> Requirements[i][0] != Requirements[j][0]
  {
    assert Requirements[0][0] == '1' && Requirements[1][0] == '2' && Requirements[2][0] == '3';
    assert Requirements[3][0] == '4' && Requirements[4][0] == '5' && Requirements[5][0] == '6';
  }

  /** `p + a + b + c` is `p` followed by the f-string `a + b + c`. */
  lemma Piece(p: string, a: string, b: string, c: string)
    ensures p + a + b + c == p + (a + b + c)
  {
  }

  /** The outline part of `_build_analysis_prompt`: a line for each given
      field, in field order. */
  method AddInfo(start: string, info: seq<(string, Json)>) returns (prompt: string)
    ensures prompt == Append(start, InfoLines(info), InfoOn(info), 4)
  {
    var lines, shown := InfoLines(info), InfoOn(info);
    prompt := start;
    if Given(info, "title") {
      Piece(prompt, "小说标题：", Str(ValueOf(info, "title")), "\n");
      prompt := prompt + "小说标题：" + Str(ValueOf(info, "title")) + "\n";
    }
    assert prompt == Append(start, lines, shown, 1);
    if Given(info, "theme") {
      Piece(prompt, "中心思想：", Str(ValueOf(info, "theme")), "\n");
      prompt := prompt + "中心思想：" + Str(ValueOf(info, "theme")) + "\n";
    }
    assert prompt == Append(start, lines, shown, 2);
    if Given(info, "synopsis") {
      Piece(prompt, "故事梗概：", Str(ValueOf(info, "synopsis")), "\n");
      prompt := prompt + "故事梗概：" + Str(ValueOf(info, "synopsis")) + "\n";
    }
    assert prompt == Append(start, lines, shown, 3);
    if Given(info, "worldbuilding") {
      Piece(prompt, "世界观设定：", Str(ValueOf(info, "worldbuilding")), "\n");
      prompt := prompt + "世界观设定：" + Str(ValueOf(info, "worldbuilding")) + "\n";
    }
  }

  /** The request part of `_build_analysis_prompt`: a request for each
      chosen option, in option order. */
  method AddRequests(start: string, options: seq<(string, Json)>) returns (prompt: string)
    ensures prompt == Append(start, Requirements, OptionsOn(options), 6)
  {
    var on := OptionsOn(options);
    prompt := start;
    if Given(options, OptionKeys[0]) {
      prompt := prompt + Requirements[0];
    }
    assert prompt == Append(start, Requirements, on, 1);
    if Given(options, OptionKeys[1]) {
      prompt := prompt + Requirements[1];
    }
    assert prompt == Append(start, Requirements, on, 2);
    if Given(options, OptionKeys[2]) {
      prompt := prompt + Requirements[2];
    }
    assert prompt == Append(start, Requirements, on, 3);
    if Given(options, OptionKeys[3]) {
      prompt := prompt + Requirements[3];
    }
    assert prompt == Append(start, Requirements, on, 4);
    if Given(options, OptionKeys[4]) {
      prompt := prompt + Requirements[4];
    }
    assert prompt == Append(start, Requirements, on, 5);
    if Given(options, OptionKeys[5]) {
      prompt := prompt + Requirements[5];
    }
  }

  /** `_build_analysis_prompt` as the source writes it: the prompt grows
      with `+=`, one guarded piece at a time. */
  method BuildAnalysisPrompt(contents: seq<string>, titles: seq<string>,
                             info: seq<(string, Json)>, options: seq<(string, Json)>)
    returns (prompt: string)
    ensures prompt == AnalysisPrompt(contents, titles, info, options)
  {
    prompt := AddInfo(Opening, info);
    ghost var info0 := prompt;
    prompt := prompt + "\n要分析的章节：" + Join("、", titles) + "\n\n";
    prompt := prompt + "章节内容：\n\n";
    prompt := prompt + Join("\n\n---\n\n", contents);
    prompt := prompt + "\n\n";
    ChapterLines(info0, contents, titles);
    prompt := prompt + RequestHeader;
    prompt := AddRequests(prompt, options);
    prompt := prompt + Closing;
  }

  // Extracting a section of the answer

  /** The title `t` as a level-2 heading, a level-1 heading, or bare text
      starts at `p`. */
  predicate TitleAt(text: string, t: string, p: int) {
    OccursAt(text, "## " + t, p) || OccursAt(text, "# " + t, p) || OccursAt(text, t, p)
  }

  /** A heading holds its title. */
  lemma HeadingHoldsTitle(text: string, h: string, t: string, p: int)
    requires OccursAt(text, h + t, p)
    ensures OccursAt(text, t, p + |h|)
  {
    assert text[p + |h|..p + |h| + |t|] == text[p..p + |h| + |t|][|h|..];
  }

  lemma HeadingsHoldTitle(text: string, t: string)
    ensures forall p :: OccursAt(text, "## " + t, p) ==> OccursAt(text, t, p + 3)
    ensures forall p :: OccursAt(text, "# " + t, p) ==> OccursAt(text, t, p + 2)
  {
    forall p | OccursAt(text, "## " + t, p) ensures OccursAt(text, t, p + 3) {
      HeadingHoldsTitle(text, "## ", t, p);
    }
    forall p | OccursAt(text, "# " + t, p) ensures OccursAt(text, t, p + 2) {
      HeadingHoldsTitle(text, "# ", t, p);
    }
  }

  /** Where the section titled `t` starts: the first `## t`, else the first
      `# t`, else the first `t`; None when `t` does not occur. */
  function SectionStart(text: string, t: string): (r: Option<nat>)
    ensures r.Some? <==> Contains(text, t)
    ensures r.Some? ==> r.value <= |text| && TitleAt(text, t, r.value)
    ensures OccursAt(text, "## " + t, 0) ==> r == Some(0)
  {
    var a := Find(text, "## " + t, 0);
    var b := Find(text, "# " + t, 0);
    var c := Find(text, t, 0);
    FindFindsContained(text, t);
    if a != -1 then
      HeadingHoldsTitle(text, "## ", t, a);
      Some(a)
    else if b != -1 then
      HeadingHoldsTitle(text, "# ", t, b);
      Some(b)
    else if c != -1 then Some(c)
    else None
  }

  /** One pass of the loop over the other titles: the first of `## t`, `# t`
      and `t` found from `from` that lies before `end` becomes the end. */
  function EndStep(text: string, from: nat, t: string, end: nat): (r: nat)
    ensures r <= end
    ensures r == end || (from <= r && TitleAt(text, t, r))
    ensures forall p :: from <= p < r ==> !OccursAt(text, "## " + t, p)
    ensures (forall p :: from <= p ==> !OccursAt(text, t, p)) ==> r == end
  {
    var a := Find(text, "## " + t, from);
    var b := Find(text, "# " + t, from);
    var c := Find(text, t, from);
    HeadingsHoldTitle(text, t);
    if a != -1 && a < end then a
    else if b != -1 && b < end then b
    else if c != -1 && c < end then c
    else end
  }

  /** Where the section ends: the other titles visited in order, starting
      from the end of the text. */
  function SectionEnd(text: string, from: nat, others: seq<string>): (r: nat)
    ensures r <= |text|
    decreases |others|
  {
    if others == [] then |text|
    else EndStep(text, from, others[|others| - 1], SectionEnd(text, from, others[..|others| - 1]))
  }

  /** The end is the end of the text or the place where another title
      starts, and no other title's level-2 heading starts before it. */
  lemma {:induction false} SectionEndIsNextTitle(text: string, from: nat, others: seq<string>)
    ensures var r := SectionEnd(text, from, others);
      r == |text| || (from <= r && exists k :: 0 <= k < |others| && TitleAt(text, others[k], r))
    ensures var r := SectionEnd(text, from, others);
      forall k, p :: 0 <= k < |others| && from <= p < r ==> !OccursAt(text, "## " + others[k], p)
    decreases |others|
  {
    if others != [] {
      var n := |others| - 1;
      var init := others[..n];
      SectionEndIsNextTitle(text, from, init);
      var before := SectionEnd(text, from, init);
      var r := SectionEnd(text, from, others);
      if r != |text| {
        if r == before {
          var k :| 0 <= k < n && TitleAt(text, init[k], r);
          assert others[k] == init[k];
        } else {
          assert TitleAt(text, others[n], r);
        }
      }
      forall k, p | 0 <= k < |others| && from <= p < r
        ensures !OccursAt(text, "## " + others[k], p)
      {
        if k < n {
          assert others[k] == init[k];
        }
      }
    }
  }

  /** When none of the other titles occurs from `from` on, the section runs
      to the end of the text. */
  lemma {:induction false} NoOtherTitle(text: string, from: nat, others: seq<string>)
    requires forall k, p :: 0 <= k < |others| && from <= p ==> !OccursAt(text, others[k], p)
    ensures SectionEnd(text, from, others) == |text|
    decreases |others|
  {
    if others != [] {
      var n := |others| - 1;
      assert forall k, p :: 0 <= k < n && from <= p ==> !OccursAt(text, others[..n][k], p) by {
        forall k | 0 <= k < n ensures others[..n][k] == others[k] { }
      }
      NoOtherTitle(text, from, others[..n]);
    }
  }

  /** The end never comes before the start. */
  lemma EndAfterStart(text: string, start: nat, others: seq<string>)
    requires start <= |text|
    ensures start <= SectionEnd(text, start + 1, others) <= |text|
  {
    SectionEndIsNextTitle(text, start + 1, others);
  }

  /** `_extract_section(text, section_title, *other_titles)`: the stripped
      text from the section's start to its end, or "" when the title does
      not occur. */
  function Section(text: string, t: string, others: seq<string>): (r: string)
    ensures SectionStart(text, t).None? ==> r == ""
  {
    match SectionStart(text, t)
    case None => ""
    case Some(start) => SectionFrom(text, start, others)
  }

  /** The stripped text from `start` to the section's end. */
  function SectionFrom(text: string, start: nat, others: seq<string>): (r: string)
    requires start <= |text|
    ensures Contains(text, r)
  {
    EndAfterStart(text, start, others);
    var slice := text[start..SectionEnd(text, start + 1, others)];
    StrippedSliceInText(text, start, SectionEnd(text, start + 1, others));
    Strip(slice)
  }

  /** Stripping a slice of the text leaves a piece of the text. */
  lemma StrippedSliceInText(text: string, lo: nat, hi: nat)
    requires lo <= hi <= |text|
    ensures Contains(text, Strip(text[lo..hi]))
  {
    var slice := text[lo..hi];
    StripIsSlice(slice);
    var a := StripStart(slice);
    var b := a + |Strip(slice)|;
    forall k | 0 <= k < b - a ensures text[lo + a..lo + b][k] == slice[a..b][k] {
      assert slice[a + k] == text[lo + a + k];
    }
    assert text[lo + a..lo + b] == slice[a..b];
    assert OccursAt(text, Strip(slice), lo + a);
  }

  /** The section is a piece of the text. */
  lemma SectionInText(text: string, t: string, others: seq<string>)
    ensures Contains(text, Section(text, t, others))
  {
    if SectionStart(text, t).None? {
      assert OccursAt(text, "", 0);
    }
  }

  /** A section with no other title after its start runs to the end of the
      text. */
  lemma SectionToEnd(text: string, t: string, others: seq<string>, start: nat)
    requires SectionStart(text, t) == Some(start)
    requires forall k, p :: 0 <= k < |others| && start < p ==> !OccursAt(text, others[k], p)
    ensures Section(text, t, others) == Strip(text[start..])
  {
    NoOtherTitle(text, start + 1, others);
    assert text[start..SectionEnd(text, start + 1, others)] == text[start..];
  }

  /** The start search of `_extract_section`: `## t`, then `# t`, then `t`. */
  method FindStart(text: string, t: string) returns (start: int)
    ensures start >= -1
    ensures start == -1 ==> SectionStart(text, t).None?
    ensures start >= 0 ==> SectionStart(text, t) == Some(start as nat)
  {
    start := Find(text, "## " + t, 0);
    if start == -1 {
      start := Find(text, "# " + t, 0);
    }
    if start == -1 {
      start := Find(text, t, 0);
    }
  }

  /** One pass of the loop over the other titles. */
  method LowerEnd(text: string, from: nat, title: string, end: nat) returns (r: nat)
    ensures r == EndStep(text, from, title, end)
  {
    r := end;
    var next := Find(text, "## " + title, from);
    if next != -1 && next < end {
      r := next;
    } else {
      next := Find(text, "# " + title, from);
      if next != -1 && next < end {
        r := next;
      } else {
        next := Find(text, title, from);
        if next != -1 && next < end {
          r := next;
        }
      }
    }
  }

  /** The end after one more title is one more pass over the end so far. */
  lemma SectionEndSnoc(text: string, from: nat, others: seq<string>, i: nat)
    requires i < |others|
    ensures SectionEnd(text, from, others[..i + 1]) == EndStep(text, from, others[i], SectionEnd(text, from, others[..i]))
  {
    assert others[..i + 1][..i] == others[..i];
  }

  /** `_extract_section` as the source writes it: the start is searched
      pattern by pattern, then the end is lowered title by title. */
  method ExtractSection(text: string, t: string, others: seq<string>) returns (r: string)
    ensures r == Section(text, t, others)
  {
    var start := FindStart(text, t);
    if start == -1 {
      return "";
    }
    var end: nat := |text|;
    var i := 0;
    while i < |others|
      invariant 0 <= i <= |others|
      invariant end == SectionEnd(text, start + 1, others[..i])
    {
      SectionEndSnoc(text, start + 1, others, i);
      end := LowerEnd(text, start + 1, others[i], end);
      i := i + 1;
    }
    assert others[..i] == others;
    EndAfterStart(text, start, others);
    r := Strip(text[start..end]);
  }
}
