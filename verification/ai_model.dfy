/** What the model adapters (the files under models/) share: the instance configuration
    and its resolution helpers, the chat request they send, the outcome of a
    non-streaming call, and the line loop of a streaming call.

    The transport is not modelled. A non-streaming call is given the HTTP
    status, the body text and the decoded JSON body (None where
    `response.json()` raises); a streaming call is given the status, the
    body text and the decoded lines. Each adapter maps one line to a `Step`,
    and `Pump` runs the shared loop over the lines. */
module AIModel {
  import opened Wrappers
  import opened Json
  import Dicts
  import Config

  /** The `config` dict an adapter is constructed with; None is the empty
      dict (both are falsy, so every `config and ...` test fails alike). */
  type InstanceConfig = seq<(string, Json)>

  /** `'k' in config`. */
  predicate Has(config: InstanceConfig, k: string) {
    Dicts.HasKey(config, k)
  }

  /** `config.get(k)`: None when missing. */
  function Lookup(config: InstanceConfig, k: string): (r: Json)
    ensures Has(config, k) ==> Some(r) == Dicts.Get(config, k)
    ensures !Has(config, k) ==> r == JNull
  {
    match Dicts.Get(config, k) case Some(v) => v case None => JNull
  }

  /** A string the config manager answers, or None, as a value. */
  function FromManager(o: Option<string>): (r: Json)
    ensures o.Some? ==> r == JStr(o.value)
    ensures o.None? ==> r == JNull
  {
    if o.Some? then JStr(o.value) else JNull
  }

  /** `a or b`. */
  function Or(a: Json, b: Json): (r: Json)
    ensures Truthy(a) ==> r == a
    ensures !Truthy(a) ==> r == b
  {
    if Truthy(a) then a else b
  }

  /** `config_manager.get_config(section, option, fallback=fallback)` with a
      string fallback, as a value. */
  function ConfigOr(sections: Config.Sections, section: string, option: string, fallback: string): (r: Json)
    ensures r.JStr?
    ensures section in sections && option in sections[section] ==> r == JStr(sections[section][option])
    ensures section !in sections || option !in sections[section] ==> r == JStr(fallback)
  {
    JStr(Config.GetConfig(sections, section, option, Some(fallback)).value)
  }

  /** The URL step shared by four adapters: an instance `api_url` or
      `base_url` (the first truthy one, else `base_url`'s value), otherwise
      the manager's `api_url` option of `section`, otherwise the default. */
  function InstanceUrlFirst(config: InstanceConfig, sections: Config.Sections, section: string, default: string): (r: Json)
    ensures (Has(config, "api_url") || Has(config, "base_url")) ==>
      r == Or(Lookup(config, "api_url"), Lookup(config, "base_url"))
    ensures !Has(config, "api_url") && !Has(config, "base_url") ==> r == ConfigOr(sections, section, "api_url", default)
  {
    if Has(config, "api_url") || Has(config, "base_url") then Or(Lookup(config, "api_url"), Lookup(config, "base_url"))
    else ConfigOr(sections, section, "api_url", default)
  }

  /** The proxy URL the adapters hand to the HTTP client: the `https` entry
      of the proxy settings, if any. */
  function ProxyUrl(proxy: Option<Config.Proxy>): (r: Option<string>)
    ensures r.Some? <==> proxy.Some?
    ensures proxy.Some? ==> r == Some(proxy.value.https)
  {
    if proxy.Some? then Some(proxy.value.https) else None
  }

  /** An HTTP POST: URL, headers, JSON body and proxy. */
  datatype Request = Request(url: Json, headers: seq<(string, Json)>, body: Json, proxy: Option<string>)

  /** The chat body every adapter posts: the model, one user message holding
      the prompt, and the stream flag. */
  function ChatBody(model: Json, prompt: string, stream: bool): (r: Json)
    ensures r.JObj? && Dicts.Get(r.fields, "model") == Some(model)
    ensures Dicts.Get(r.fields, "stream") == Some(JBool(stream))
    ensures Dicts.Get(r.fields, "messages") == Some(JArr([JObj([("role", JStr("user")), ("content", JStr(prompt))])]))
  {
    var fields := [("model", model), ("messages", JArr([JObj([("role", JStr("user")), ("content", JStr(prompt))])])), ("stream", JBool(stream))];
    assert fields[1..][1..] == [("stream", JBool(stream))];
    JObj(fields)
  }

  /** What a non-streaming call ends with: the generated text, an exception
      carrying the HTTP status and body text, or another exception. */
  datatype Reply = Text(value: Json) | HttpError(status: int, body: string) | Raised

  /** The outcome of an extraction, as a reply. */
  function Extracted(r: Py<Json>): (reply: Reply)
    ensures r.Ok? <==> reply.Text?
    ensures r.Ok? ==> reply == Text(r.value)
  {
    if r.Ok? then Text(r.value) else Raised
  }

  /** What a streaming call does with one line. */
  datatype Step =
    | Skip                    // nothing is yielded, the loop goes on
    | Emit(chunk: Json)       // the chunk is yielded, the loop goes on
    | EmitThenStop(chunk: Json) // the chunk is yielded, the loop ends
    | Stop                    // the loop ends
    | Fail                    // an exception leaves the generator

  /** How a stream ended: the lines ran out, the loop broke, or an
      exception was raised. */
  datatype End = Exhausted | Stopped | Failed

  /** The chunks a stream yields, in order, and how it ended. */
  datatype Streamed = Streamed(chunks: seq<Json>, end: End)

  /** The stream the steps give, line by line from the first. */
  function Run(steps: seq<Step>): (r: Streamed)
    ensures |r.chunks| <= |steps|
    decreases |steps|
  {
    if steps == [] then Streamed([], Exhausted)
    else match steps[0]
      case Skip => Run(steps[1..])
      case Emit(c) => var rest := Run(steps[1..]); Streamed([c] + rest.chunks, rest.end)
      case EmitThenStop(c) => Streamed([c], Stopped)
      case Stop => Streamed([], Stopped)
      case Fail => Streamed([], Failed)
  }

  /** Running one stream after another: the second runs only when the first
      ran out of lines. */
  function Then(a: Streamed, b: Streamed): (r: Streamed)
    ensures a.end == Exhausted ==> r == Streamed(a.chunks + b.chunks, b.end)
    ensures a.end != Exhausted ==> r == a
  {
    if a.end == Exhausted then Streamed(a.chunks + b.chunks, b.end) else a
  }

  /** The stream of a concatenation of lines is the stream of the first
      part followed, if it ran out, by the stream of the second. */
  lemma {:induction false} RunAppend(a: seq<Step>, b: seq<Step>)
    ensures Run(a + b) == Then(Run(a), Run(b))
    decreases |a|
  {
    if a != [] {
      assert (a + b)[0] == a[0];
      assert (a + b)[1..] == a[1..] + b;
      RunAppend(a[1..], b);
      var rest, rb := Run(a[1..]), Run(b);
      match a[0] {
        case Skip =>
          assert Run(a + b) == Run(a[1..] + b);
        case Emit(c) =>
          assert Run(a + b) == Streamed([c] + Run(a[1..] + b).chunks, Run(a[1..] + b).end);
          assert Run(a) == Streamed([c] + rest.chunks, rest.end);
          if rest.end == Exhausted {
            assert [c] + (rest.chunks + rb.chunks) == ([c] + rest.chunks) + rb.chunks;
          }
        case EmitThenStop(c) =>
        case Stop =>
        case Fail =>
      }
    } else {
      assert a + b == b;
      assert [] + Run(b).chunks == Run(b).chunks;
    }
  }

  /** A line that is skipped changes nothing: the stream with it is the
      stream without it. */
  lemma SkipChangesNothing(a: seq<Step>, b: seq<Step>)
    ensures Run(a + [Skip] + b) == Run(a + b)
  {
    RunAppend(a + [Skip], b);
    RunAppend(a, [Skip]);
    RunAppend(a, b);
    assert Run([Skip]) == Run([]);
  }

  /** Nothing after a line that ends the loop, by a break or an exception,
      matters. */
  lemma StopEndsStream(a: seq<Step>, s: Step, b: seq<Step>)
    requires !s.Skip? && !s.Emit?
    ensures Run(a + [s] + b) == Then(Run(a), Run([s]))
  {
    RunAppend(a + [s], b);
    RunAppend(a, [s]);
  }

  /** Every chunk of a stream was emitted by one of its steps. */
  lemma {:induction false} ChunksComeFromSteps(steps: seq<Step>)
    ensures forall c :: c in Run(steps).chunks ==> Emit(c) in steps || EmitThenStop(c) in steps
    decreases |steps|
  {
    if steps != [] {
      ChunksComeFromSteps(steps[1..]);
      forall c | c in Run(steps).chunks
        ensures Emit(c) in steps || EmitThenStop(c) in steps
      {
        assert steps == [steps[0]] + steps[1..];
        if steps[0].Skip? || (steps[0].Emit? && c != steps[0].chunk) {
          assert c in Run(steps[1..]).chunks;
        }
      }
    }
  }

  /** An event of a stream: a call of the caller's callback, or a yield. */
  datatype Event = Callback(chunk: Json) | Yield(chunk: Json)

  /** The events of a stream that yields `chunks`: with a callback, each
      chunk is passed to the callback and then yielded. */
  function Trace(chunks: seq<Json>, callback: bool): (r: seq<Event>)
    ensures |r| == (if callback then 2 * |chunks| else |chunks|)
    decreases |chunks|
  {
    if chunks == [] then []
    else (if callback then [Callback(chunks[0]), Yield(chunks[0])] else [Yield(chunks[0])]) + Trace(chunks[1..], callback)
  }

  /** The yields of a stream, in order. */
  function Yields(events: seq<Event>): (r: seq<Json>)
    decreases |events|
  {
    if events == [] then []
    else (if events[0].Yield? then [events[0].chunk] else []) + Yields(events[1..])
  }

  /** With or without a callback the caller receives exactly the chunks; with
      one, the callback sees each chunk right before it is yielded. */
  lemma TraceShape(chunks: seq<Json>, callback: bool)
    ensures Yields(Trace(chunks, callback)) == chunks
    ensures callback ==> forall i :: 0 <= i < |chunks| ==>
      Trace(chunks, callback)[2 * i] == Callback(chunks[i]) && Trace(chunks, callback)[2 * i + 1] == Yield(chunks[i])
    ensures !callback ==> forall i :: 0 <= i < |chunks| ==> Trace(chunks, callback)[i] == Yield(chunks[i])
  {
    TraceYields(chunks, callback);
    if callback {
      TraceWithCallback(chunks);
    } else {
      TraceWithoutCallback(chunks);
    }
  }

  lemma {:induction false} TraceYields(chunks: seq<Json>, callback: bool)
    ensures Yields(Trace(chunks, callback)) == chunks
    decreases |chunks|
  {
    if chunks != [] {
      TraceYields(chunks[1..], callback);
      var head := if callback then [Callback(chunks[0]), Yield(chunks[0])] else [Yield(chunks[0])];
      assert Trace(chunks, callback) == head + Trace(chunks[1..], callback);
      YieldsAppend(head, Trace(chunks[1..], callback));
      if callback {
        assert Yields(head) == [chunks[0]] by {
          assert head[1..][1..] == [];
        }
      } else {
        assert Yields(head) == [chunks[0]] by {
          assert head[1..] == [];
        }
      }
      assert [chunks[0]] + chunks[1..] == chunks;
    }
  }

  lemma {:induction false} TraceWithCallback(chunks: seq<Json>)
    ensures forall i :: 0 <= i < |chunks| ==>
      Trace(chunks, true)[2 * i] == Callback(chunks[i]) && Trace(chunks, true)[2 * i + 1] == Yield(chunks[i])
    decreases |chunks|
  {
    if chunks != [] {
      TraceWithCallback(chunks[1..]);
      var rest := Trace(chunks[1..], true);
      var t := Trace(chunks, true);
      assert t == [Callback(chunks[0]), Yield(chunks[0])] + rest;
      forall i | 0 <= i < |chunks|
        ensures t[2 * i] == Callback(chunks[i]) && t[2 * i + 1] == Yield(chunks[i])
      {
        if i > 0 {
          assert t[2 * i] == rest[2 * (i - 1)];
          assert t[2 * i + 1] == rest[2 * (i - 1) + 1];
          assert chunks[i] == chunks[1..][i - 1];
        }
      }
    }
  }

  lemma {:induction false} TraceWithoutCallback(chunks: seq<Json>)
    ensures forall i :: 0 <= i < |chunks| ==> Trace(chunks, false)[i] == Yield(chunks[i])
    decreases |chunks|
  {
    if chunks != [] {
      TraceWithoutCallback(chunks[1..]);
      var rest := Trace(chunks[1..], false);
      var t := Trace(chunks, false);
      assert t == [Yield(chunks[0])] + rest;
      forall i | 0 <= i < |chunks|
        ensures t[i] == Yield(chunks[i])
      {
        if i > 0 {
          assert t[i] == rest[i - 1];
          assert chunks[i] == chunks[1..][i - 1];
        }
      }
    }
  }

  lemma {:induction false} YieldsAppend(a: seq<Event>, b: seq<Event>)
    ensures Yields(a + b) == Yields(a) + Yields(b)
    decreases |a|
  {
    if a != [] {
      assert (a + b)[0] == a[0];
      assert (a + b)[1..] == a[1..] + b;
      YieldsAppend(a[1..], b);
      var head := if a[0].Yield? then [a[0].chunk] else [];
      assert Yields(a) == head + Yields(a[1..]);
      assert Yields(a + b) == head + Yields(a[1..] + b);
      assert head + (Yields(a[1..]) + Yields(b)) == (head + Yields(a[1..])) + Yields(b);
    } else {
      assert a + b == b;
    }
  }

  /** The steps of a sequence of lines. */
  function Steps(lines: seq<string>, step: string -> Step): (r: seq<Step>)
    ensures |r| == |lines|
    ensures forall i :: 0 <= i < |lines| ==> r[i] == step(lines[i])
  {
    seq(|lines|, i requires 0 <= i < |lines| => step(lines[i]))
  }

  /** The steps of concatenated lines are the concatenated steps. */
  lemma StepsAppend(a: seq<string>, b: seq<string>, step: string -> Step)
    ensures Steps(a + b, step) == Steps(a, step) + Steps(b, step)
  {
    var l, r := Steps(a + b, step), Steps(a, step) + Steps(b, step);
    forall i | 0 <= i < |a + b| ensures l[i] == r[i] {
      if i < |a| {
        assert (a + b)[i] == a[i];
      } else {
        assert (a + b)[i] == b[i - |a|];
      }
    }
  }

  /** The steps of lines around one line. */
  lemma StepsAround(before: seq<string>, line: string, after: seq<string>, step: string -> Step)
    ensures Steps(before + [line] + after, step) == Steps(before, step) + [step(line)] + Steps(after, step)
  {
    StepsAppend(before + [line], after, step);
    StepsAppend(before, [line], step);
  }

  /** A line whose step is a skip changes nothing. */
  lemma SkippedLine(before: seq<string>, line: string, after: seq<string>, step: string -> Step)
    requires step(line) == Skip
    ensures Run(Steps(before + [line] + after, step)) == Run(Steps(before + after, step))
  {
    StepsAround(before, line, after, step);
    StepsAppend(before, after, step);
    SkipChangesNothing(Steps(before, step), Steps(after, step));
  }

  /** Nothing after a line whose step ends the loop is read. */
  lemma EndingLine(before: seq<string>, line: string, after: seq<string>, step: string -> Step)
    requires !step(line).Skip? && !step(line).Emit?
    ensures Run(Steps(before + [line] + after, step)) == Then(Run(Steps(before, step)), Run([step(line)]))
  {
    StepsAround(before, line, after, step);
    StopEndsStream(Steps(before, step), step(line), Steps(after, step));
  }

  /** The line loop of a streaming call (`async for line in
      response.content`), with the adapter's handling of one line as
      `step`: the events are the chunks yielded (each preceded by the
      callback when there is one), the end says why the loop stopped. */
  method Pump(lines: seq<string>, step: string -> Step, callback: bool) returns (events: seq<Event>, end: End)
    ensures events == Trace(Run(Steps(lines, step)).chunks, callback)
    ensures end == Run(Steps(lines, step)).end
  {
    ghost var all := Steps(lines, step);
    ghost var chunks: seq<Json> := [];
    events := [];
    var i := 0;
    assert all[0..] == all;
    while i < |lines|
      invariant 0 <= i <= |lines|
      invariant Run(all) == Then(Streamed(chunks, Exhausted), Run(all[i..]))
      invariant events == Trace(chunks, callback)
    {
      RunStep(all, i, chunks);
      match step(lines[i]) {
        case Skip =>
        case Emit(c) =>
          TraceSnoc(chunks, c, callback);
          events := events + (if callback then [Callback(c), Yield(c)] else [Yield(c)]);
          chunks := chunks + [c];
        case EmitThenStop(c) =>
          TraceSnoc(chunks, c, callback);
          events := events + (if callback then [Callback(c), Yield(c)] else [Yield(c)]);
          return events, Stopped;
        case Stop =>
          return events, Stopped;
        case Fail =>
          return events, Failed;
      }
      i := i + 1;
    }
    assert all[i..] == [];
    assert Run(all) == Streamed(chunks + [], Exhausted);
    assert chunks + [] == chunks;
    end := Exhausted;
  }

  /** One turn of the line loop: what the stream is once step `i` is taken,
      given the chunks yielded before it. */
  lemma RunStep(all: seq<Step>, i: nat, chunks: seq<Json>)
    requires i < |all|
    requires Run(all) == Then(Streamed(chunks, Exhausted), Run(all[i..]))
    ensures all[i].Skip? ==> Run(all) == Then(Streamed(chunks, Exhausted), Run(all[i + 1..]))
    ensures all[i].Emit? ==> Run(all) == Then(Streamed(chunks + [all[i].chunk], Exhausted), Run(all[i + 1..]))
    ensures all[i].EmitThenStop? ==> Run(all) == Streamed(chunks + [all[i].chunk], Stopped)
    ensures all[i].Stop? ==> Run(all) == Streamed(chunks, Stopped)
    ensures all[i].Fail? ==> Run(all) == Streamed(chunks, Failed)
  {
    assert all[i..][0] == all[i];
    assert all[i..][1..] == all[i + 1..];
    var rest := Run(all[i + 1..]);
    match all[i] {
      case Skip =>
      case Emit(c) =>
        assert chunks + ([c] + rest.chunks) == (chunks + [c]) + rest.chunks;
      case EmitThenStop(c) =>
      case Stop =>
        assert chunks + [] == chunks;
      case Fail =>
        assert chunks + [] == chunks;
    }
  }

  lemma {:induction false} TraceSnoc(chunks: seq<Json>, c: Json, callback: bool)
    ensures Trace(chunks + [c], callback) ==
      Trace(chunks, callback) + (if callback then [Callback(c), Yield(c)] else [Yield(c)])
    decreases |chunks|
  {
    if chunks == [] {
      assert [c][1..] == [];
    } else {
      assert (chunks + [c])[1..] == chunks[1..] + [c];
      TraceSnoc(chunks[1..], c, callback);
    }
  }

  /** What a streaming call ends with: refused by the server (an exception
      carrying the status and body text, before any chunk), or the events
      of the line loop and how it ended. */
  datatype StreamReply = Refused(status: int, body: string) | Delivered(events: seq<Event>, end: End)

  /** A streaming call: refused unless the status is 200, otherwise the
      line loop. */
  method Stream(status: int, body: string, lines: seq<string>, step: string -> Step, callback: bool)
    returns (r: StreamReply)
    ensures status != 200 ==> r == Refused(status, body)
    ensures status == 200 ==>
      r == Delivered(Trace(Run(Steps(lines, step)).chunks, callback), Run(Steps(lines, step)).end)
  {
    if status != 200 {
      return Refused(status, body);
    }
    var events, end := Pump(lines, step, callback);
    r := Delivered(events, end);
  }
}
