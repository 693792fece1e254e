/**
 * The two streaming-response parsers of the hub (`_yield_openai_sse` and
 * `_yield_ollama_stream` in server.py): each turns the lines of an upstream
 * body into text fragments, and signals an HTTP failure in-band as a single
 * fragment. Frames are decoded by `decode`, which stands for `_safe_json`
 * (`json.loads`, with `None` for a line it cannot decode).
 */
module Streams {
  import opened Wrappers
  import opened JsonValue
  import opened PyText

  /** `_safe_json`: a decoded value, or `None` when `json.loads` raises. */
  type Decoder = string -> Option<Json>

  /** What the network delivered for one streaming POST. */
  datatype Upstream =
    | Unreachable(reason: string)                          // httpx.RequestError before any response
    | Answered(status: int, body: string, lines: seq<string>)

  /** How a fragment stream ended. */
  datatype Ending =
    | Completed                       // the generator returned
    | ConnectionError(reason: string) // an httpx.RequestError escaped it
    | Crashed                         // another exception escaped it

  /** The fragments a generator yielded, in order, and how it ended. */
  datatype Stream = Stream(fragments: seq<string>, ending: Ending)

  /** Fragments `fs` yielded before the rest of a stream. */
  function Prefixed(fs: seq<string>, rest: Stream): Stream {
    Stream(fs + rest.fragments, rest.ending)
  }

  /** The in-band failure signal of both parsers for a non-200 response. */
  function HttpErrorFragment(status: int, body: string): string {
    "[HTTP " + IntToDecimal(status) + "] " + body
  }

  /** What one upstream line does to the stream. */
  datatype LineAction =
    | Skip                        // `continue`
    | Emit(fragment: string)      // a `yield`, then the next line
    | Stop                        // `break`
    | EmitStop(fragment: string)  // a `yield`, then `break`
    | Raise                       // an uncaught exception

  predicate Ends(a: LineAction) {
    a.Stop? || a.EmitStop? || a.Raise?
  }

  /** The two wire formats. */
  datatype Protocol = Sse | Ndjson

  // ---------------------------------------------------------------------------
  // OpenAI-style server-sent events
  // ---------------------------------------------------------------------------

  const DataPrefix: string := "data: "
  const DoneSentinel: string := "[DONE]"

  /** The outcome of evaluating a `try` body that may `yield` one fragment. */
  datatype Attempt = Raised | Yielded(text: string) | Quiet

  /**
   * `js["choices"][0]` as a dict. Every other shape makes both the delta path
   * and the message path raise (a missing key, an empty list, a string, a
   * number, or a first choice that is not a dict).
   */
  function FirstChoice(js: Json): Option<map<string, Json>> {
    if js.Obj? && "choices" in js.fields && js.fields["choices"].Arr?
       && |js.fields["choices"].items| > 0 && js.fields["choices"].items[0].Obj?
    then Some(js.fields["choices"].items[0].fields)
    else None
  }

  /** `if v: yield v.encode()`: only a string has `.encode()`. */
  function YieldText(v: Json): Attempt {
    if !Truthy(v) then Quiet else if v.Str? then Yielded(v.s) else Raised
  }

  /** The first `try` block: `choices[0].get("delta", {})` and its `content`. */
  function DeltaAttempt(js: Json): Attempt {
    match FirstChoice(js)
    case None => Raised
    case Some(choice) =>
      var delta := GetOr(choice, "delta", Obj(map[]));
      if !delta.Obj? then Raised else YieldText(Get(delta.fields, "content"))
  }

  /** The `except` block: `choices[0]["message"]["content"]`. */
  function MessageAttempt(js: Json): Attempt {
    match FirstChoice(js)
    case None => Raised
    case Some(choice) =>
      if "message" in choice && choice["message"].Obj? && "content" in choice["message"].fields
      then YieldText(choice["message"].fields["content"])
      else Raised
  }

  /** One decoded, truthy SSE frame; the message path runs only when the delta path raised. */
  function FrameAction(js: Json): LineAction {
    match DeltaAttempt(js)
    case Yielded(t) => Emit(t)
    case Quiet => Skip
    case Raised =>
      match MessageAttempt(js)
      case Yielded(t) => Emit(t)
      case _ => Skip
  }

  /** A `data: [DONE]` line, whitespace around the sentinel allowed. */
  predicate IsDoneLine(raw: string) {
    StartsWith(raw, DataPrefix) && Strip(raw[|DataPrefix|..]) == DoneSentinel
  }

  /** One line of an SSE body. */
  function SseLineAction(decode: Decoder, raw: string): LineAction {
    if raw == "" then Skip
    else if !StartsWith(raw, DataPrefix) then Skip
    else
      var datum := Strip(raw[|DataPrefix|..]);
      if datum == DoneSentinel then Stop
      else
        match decode(datum)
        case None => Skip
        case Some(js) => if !Truthy(js) then Skip else FrameAction(js)
  }

  // ---------------------------------------------------------------------------
  // Ollama newline-delimited JSON
  // ---------------------------------------------------------------------------

  /**
   * One line of an NDJSON body. `js.get` on a truthy value that is not a dict,
   * and `.encode()` on a truthy `response` that is not a string, raise
   * `AttributeError`, which nothing in the parser catches.
   */
  function NdjsonLineAction(decode: Decoder, chunk: string): LineAction {
    if chunk == "" then Skip
    else
      match decode(chunk)
      case None => Skip
      case Some(js) =>
        if !Truthy(js) then Skip
        else if !js.Obj? then Raise
        else
          var response := Get(js.fields, "response");
          var finished := Truthy(Get(js.fields, "done"));
          if Truthy(response) && !response.Str? then Raise
          else if Truthy(response) then (if finished then EmitStop(response.s) else Emit(response.s))
          else if finished then Stop
          else Skip
  }

  // ---------------------------------------------------------------------------
  // Both parsers over a whole body
  // ---------------------------------------------------------------------------

  function LineActionOf(p: Protocol, decode: Decoder, line: string): LineAction {
    match p
    case Sse => SseLineAction(decode, line)
    case Ndjson => NdjsonLineAction(decode, line)
  }

  /** The action of every line of a body. */
  function Actions(p: Protocol, decode: Decoder, lines: seq<string>): seq<LineAction> {
    seq(|lines|, i requires 0 <= i < |lines| => LineActionOf(p, decode, lines[i]))
  }

  /** The stream that a sequence of line actions produces, up to the first one that ends it. */
  function Run(actions: seq<LineAction>): (r: Stream)
    ensures r.ending.Completed? || r.ending.Crashed?
  {
    if actions == [] then Stream([], Completed)
    else
      match actions[0]
      case Skip => Run(actions[1..])
      case Emit(f) => Prefixed([f], Run(actions[1..]))
      case Stop => Stream([], Completed)
      case EmitStop(f) => Stream([f], Completed)
      case Raise => Stream([], Crashed)
  }

  /** The stream a parser yields from the lines of a 200 response. */
  function Drive(p: Protocol, decode: Decoder, lines: seq<string>): Stream {
    Run(Actions(p, decode, lines))
  }

  /** `_yield_openai_sse` (p == Sse) and `_yield_ollama_stream` (p == Ndjson). */
  function Parse(p: Protocol, decode: Decoder, up: Upstream): Stream {
    match up
    case Unreachable(reason) => Stream([], ConnectionError(reason))
    case Answered(status, body, lines) =>
      if status != 200 then Stream([HttpErrorFragment(status, body)], Completed)
      else Drive(p, decode, lines)
  }

  /** `_yield_openai_sse`, line by line. */
  method YieldOpenAiSse(decode: Decoder, up: Upstream) returns (out: Stream)
    ensures out == Parse(Sse, decode, up)
  {
    if up.Unreachable? {
      return Stream([], ConnectionError(up.reason));
    }
    if up.status != 200 {
      return Stream([HttpErrorFragment(up.status, up.body)], Completed);
    }
    var lines := up.lines;
    ghost var acts := Actions(Sse, decode, lines);
    var fragments: seq<string> := [];
    var i := 0;
    while i < |lines|
      invariant 0 <= i <= |lines|
      invariant Prefixed(fragments, Run(acts[i..])) == Run(acts)
    {
      var raw := lines[i];
      RunUnfold(acts, i);
      i := i + 1;
      if raw == "" || !StartsWith(raw, DataPrefix) {
        continue;
      }
      var datum := Strip(raw[|DataPrefix|..]);
      if datum == DoneSentinel {
        break;
      }
      var js := decode(datum);
      if js.None? || !Truthy(js.value) {
        continue;
      }
      match FrameAction(js.value) {
        case Emit(t) =>
          AppendAssoc(fragments, t, Run(acts[i..]));
          fragments := fragments + [t];
        case _ =>
      }
    }
    out := Stream(fragments, Completed);
  }

  /** `_yield_ollama_stream`, line by line. */
  method YieldOllamaStream(decode: Decoder, up: Upstream) returns (out: Stream)
    ensures out == Parse(Ndjson, decode, up)
  {
    if up.Unreachable? {
      return Stream([], ConnectionError(up.reason));
    }
    if up.status != 200 {
      return Stream([HttpErrorFragment(up.status, up.body)], Completed);
    }
    var lines := up.lines;
    ghost var acts := Actions(Ndjson, decode, lines);
    var fragments: seq<string> := [];
    var i := 0;
    while i < |lines|
      invariant 0 <= i <= |lines|
      invariant Prefixed(fragments, Run(acts[i..])) == Run(acts)
    {
      var chunk := lines[i];
      RunUnfold(acts, i);
      i := i + 1;
      if chunk == "" {
        continue;
      }
      var decoded := decode(chunk);
      if decoded.None? || !Truthy(decoded.value) {
        continue;
      }
      var js := decoded.value;
      if !js.Obj? {
        return Stream(fragments, Crashed);
      }
      var response := Get(js.fields, "response");
      if Truthy(response) {
        if !response.Str? {
          return Stream(fragments, Crashed);
        }
        AppendAssoc(fragments, response.s, Run(acts[i..]));
        fragments := fragments + [response.s];
      }
      if Truthy(Get(js.fields, "done")) {
        break;
      }
    }
    out := Stream(fragments, Completed);
  }

  // ---------------------------------------------------------------------------
  // Properties
  // ---------------------------------------------------------------------------

  /** One step of `Run` at position `i`. */
  lemma RunUnfold(actions: seq<LineAction>, i: nat)
    requires i < |actions|
    ensures Run(actions[i..]) ==
      match actions[i]
      case Skip => Run(actions[i + 1..])
      case Emit(f) => Prefixed([f], Run(actions[i + 1..]))
      case Stop => Stream([], Completed)
      case EmitStop(f) => Stream([f], Completed)
      case Raise => Stream([], Crashed)
  {
    assert actions[i..][0] == actions[i];
    assert actions[i..][1..] == actions[i + 1..];
  }

  lemma AppendAssoc(fs: seq<string>, f: string, rest: Stream)
    ensures Prefixed(fs, Prefixed([f], rest)) == Prefixed(fs + [f], rest)
  {
    assert fs + ([f] + rest.fragments) == (fs + [f]) + rest.fragments;
  }

  /** Actions that do not end the stream contribute their fragments and hand over to the rest. */
  lemma {:induction false} RunAppend(pre: seq<LineAction>, post: seq<LineAction>)
    requires forall i :: 0 <= i < |pre| ==> !Ends(pre[i])
    ensures Run(pre).ending == Completed
    ensures Run(pre + post) == Prefixed(Run(pre).fragments, Run(post))
  {
    if pre == [] {
      assert pre + post == post;
    } else {
      var whole := pre + post;
      assert whole[0] == pre[0];
      assert whole[1..] == pre[1..] + post;
      RunAppend(pre[1..], post);
      if pre[0].Emit? {
        AppendAssoc([pre[0].fragment], "", Stream([], Completed));
        assert [pre[0].fragment] + (Run(pre[1..]).fragments + Run(post).fragments)
            == ([pre[0].fragment] + Run(pre[1..]).fragments) + Run(post).fragments;
      }
    }
  }

  /** The actions of concatenated bodies are the concatenated actions. */
  lemma ActionsAppend(p: Protocol, decode: Decoder, a: seq<string>, b: seq<string>)
    ensures Actions(p, decode, a + b) == Actions(p, decode, a) + Actions(p, decode, b)
  {
  }

  /** An action that ends the stream hides every later one. */
  lemma RunIgnoresAfterEnd(pre: seq<LineAction>, a: LineAction, post: seq<LineAction>)
    requires forall i :: 0 <= i < |pre| ==> !Ends(pre[i])
    requires Ends(a)
    ensures Run(pre + [a] + post) == Prefixed(Run(pre).fragments, Run([a]))
  {
    assert pre + [a] + post == pre + ([a] + post);
    RunAppend(pre, [a] + post);
    assert ([a] + post)[0] == a;
  }

  /** Once a line ends the stream, nothing from any later line is yielded. */
  lemma DriveIgnoresAfterEnd(p: Protocol, decode: Decoder, pre: seq<string>, line: string, post: seq<string>)
    requires forall i :: 0 <= i < |pre| ==> !Ends(LineActionOf(p, decode, pre[i]))
    requires Ends(LineActionOf(p, decode, line))
    ensures Drive(p, decode, pre + [line] + post)
         == Prefixed(Drive(p, decode, pre).fragments, Drive(p, decode, [line]))
  {
    var pa := Actions(p, decode, pre);
    var a := LineActionOf(p, decode, line);
    ActionsAppend(p, decode, pre + [line], post);
    ActionsAppend(p, decode, pre, [line]);
    assert Actions(p, decode, [line]) == [a];
    RunIgnoresAfterEnd(pa, a, Actions(p, decode, post));
  }

  /** The only SSE line that ends a stream is `data: [DONE]`; SSE parsing never raises. */
  lemma SseEndsOnlyAtDone(decode: Decoder, raw: string)
    ensures Ends(SseLineAction(decode, raw)) <==> IsDoneLine(raw)
    ensures SseLineAction(decode, raw) != Raise
  {
  }

  /** `[DONE]` stops processing: the stream is what the lines before it produced. */
  lemma SseDoneEndsStream(decode: Decoder, pre: seq<string>, done: string, post: seq<string>)
    requires forall i :: 0 <= i < |pre| ==> !IsDoneLine(pre[i])
    requires IsDoneLine(done)
    ensures Drive(Sse, decode, pre + [done] + post) == Drive(Sse, decode, pre)
  {
    forall i | 0 <= i < |pre|
      ensures !Ends(LineActionOf(Sse, decode, pre[i]))
    {
      SseEndsOnlyAtDone(decode, pre[i]);
    }
    DriveIgnoresAfterEnd(Sse, decode, pre, done, post);
    RunAppend(Actions(Sse, decode, pre), []);
    var f := Drive(Sse, decode, pre).fragments;
    assert f + [] == f;
  }

  /**
   * An SSE line the parser passes over: a blank line (the separator after
   * every event), a line without `data: ` (`event:`, `id:`, `: comment`),
   * or a frame other than `[DONE]` that does not decode to a truthy value.
   */
  predicate SseIgnored(decode: Decoder, raw: string) {
    raw == "" || !StartsWith(raw, DataPrefix)
    || (Strip(raw[|DataPrefix|..]) != DoneSentinel
        && (decode(Strip(raw[|DataPrefix|..])).None? || !Truthy(decode(Strip(raw[|DataPrefix|..])).value)))
  }

  /** A skipped action can be dropped wherever it stands. */
  lemma {:induction false} RunDropSkip(pa: seq<LineAction>, qa: seq<LineAction>)
    ensures Run(pa + [Skip] + qa) == Run(pa + qa)
  {
    var with := pa + [Skip] + qa;
    if pa == [] {
      assert with == [Skip] + qa;
      assert with[0] == Skip && with[1..] == qa;
      assert pa + qa == qa;
    } else {
      assert with[0] == pa[0];
      assert with[1..] == pa[1..] + [Skip] + qa;
      assert (pa + qa)[0] == pa[0];
      assert (pa + qa)[1..] == pa[1..] + qa;
      RunDropSkip(pa[1..], qa);
    }
  }

  /** An ignored line contributes nothing, wherever it stands in the body. */
  lemma SseSkipsLine(decode: Decoder, pre: seq<string>, raw: string, post: seq<string>)
    requires SseIgnored(decode, raw)
    ensures SseLineAction(decode, raw) == Skip
    ensures Drive(Sse, decode, pre + [raw] + post) == Drive(Sse, decode, pre + post)
  {
    ActionsAppend(Sse, decode, pre + [raw], post);
    ActionsAppend(Sse, decode, pre, [raw]);
    ActionsAppend(Sse, decode, pre, post);
    assert Actions(Sse, decode, [raw]) == [Skip];
    RunDropSkip(Actions(Sse, decode, pre), Actions(Sse, decode, post));
  }

  /** A run of ignored lines at the head of a body contributes nothing. */
  lemma {:induction false} SseSkipsLines(decode: Decoder, gap: seq<string>, rest: seq<string>)
    requires forall j :: 0 <= j < |gap| ==> SseIgnored(decode, gap[j])
    ensures Drive(Sse, decode, gap + rest) == Drive(Sse, decode, rest)
  {
    if gap == [] {
      assert gap + rest == rest;
    } else {
      assert gap + rest == [] + [gap[0]] + (gap[1..] + rest);
      SseSkipsLine(decode, [], gap[0], gap[1..] + rest);
      assert [] + (gap[1..] + rest) == gap[1..] + rest;
      SseSkipsLines(decode, gap[1..], rest);
    }
  }

  /**
   * A decoded chunk of a streamed chat completion whose first choice carries
   * the content `c` in a dict `delta` (a missing `delta` counts as `{}`).
   * Any other keys (`id`, `model`, `finish_reason`, `delta.role`, further
   * choices) may be present; an empty `c` stands for a falsy or missing
   * content, as in the closing chunk `"delta": {}`.
   */
  predicate CarriesDelta(js: Json, c: string) {
    FirstChoice(js).Some? &&
    var delta := GetOr(FirstChoice(js).value, "delta", Obj(map[]));
    delta.Obj? &&
    (Get(delta.fields, "content") == Str(c) || (c == "" && !Truthy(Get(delta.fields, "content"))))
  }

  /** The non-empty strings of `cs`, in order. */
  function NonEmpty(cs: seq<string>): seq<string> {
    if cs == [] then [] else (if cs[0] == "" then [] else [cs[0]]) + NonEmpty(cs[1..])
  }

  function Concat(fs: seq<string>): string {
    if fs == [] then "" else fs[0] + Concat(fs[1..])
  }

  /** Dropping empty strings does not change the concatenation. */
  lemma {:induction false} ConcatNonEmpty(cs: seq<string>)
    ensures Concat(NonEmpty(cs)) == Concat(cs)
  {
    if cs != [] {
      ConcatNonEmpty(cs[1..]);
      var head := if cs[0] == "" then [] else [cs[0]];
      ConcatAppend(head, NonEmpty(cs[1..]));
    }
  }

  lemma {:induction false} ConcatAppend(a: seq<string>, b: seq<string>)
    ensures Concat(a + b) == Concat(a) + Concat(b)
  {
    if a == [] {
      assert a + b == b;
    } else {
      assert (a + b)[0] == a[0];
      assert (a + b)[1..] == a[1..] + b;
      ConcatAppend(a[1..], b);
    }
  }

  /** The actions of lines whose frames carry the contents `cs`. */
  function ContentActions(cs: seq<string>): seq<LineAction> {
    seq(|cs|, i requires 0 <= i < |cs| => if cs[i] == "" then Skip else Emit(cs[i]))
  }

  /**
   * The events of an SSE body: the `data: ` line of each payload, each
   * followed by the lines up to the next event (the blank separator line,
   * `event:` or `id:` lines, comments).
   */
  function Events(payloads: seq<string>, gaps: seq<seq<string>>): seq<string>
    requires |gaps| == |payloads|
  {
    if payloads == [] then []
    else [DataPrefix + payloads[0]] + gaps[0] + Events(payloads[1..], gaps[1..])
  }

  /** The `data: ` line of a chunk carrying the content `c` yields `c` when non-empty, then hands over. */
  lemma DeltaLineYields(decode: Decoder, payload: string, c: string, rest: seq<string>)
    requires Strip(payload) != DoneSentinel
    requires decode(Strip(payload)).Some? && CarriesDelta(decode(Strip(payload)).value, c)
    ensures Drive(Sse, decode, [DataPrefix + payload] + rest)
            == Prefixed(if c == "" then [] else [c], Drive(Sse, decode, rest))
  {
    var line := DataPrefix + payload;
    DeltaLineAction(decode, payload, c);
    ActionsAppend(Sse, decode, [line], rest);
    var acts := Actions(Sse, decode, [line] + rest);
    assert acts[0] == if c == "" then Skip else Emit(c);
    assert acts[1..] == Actions(Sse, decode, rest);
  }

  /** Prefixing twice is prefixing with the concatenation. */
  lemma PrefixedTwice(a: seq<string>, b: seq<string>, rest: Stream)
    ensures Prefixed(a, Prefixed(b, rest)) == Prefixed(a + b, rest)
  {
    assert a + (b + rest.fragments) == (a + b) + rest.fragments;
  }

  /**
   * Events whose payloads decode to chunks carrying the delta contents `cs`,
   * none of them `[DONE]`, each followed by lines the parser ignores.
   */
  predicate DeltaEvents(decode: Decoder, cs: seq<string>, payloads: seq<string>, gaps: seq<seq<string>>) {
    |payloads| == |cs| == |gaps|
    && (forall i :: 0 <= i < |cs| ==> Strip(payloads[i]) != DoneSentinel)
    && (forall i :: 0 <= i < |cs| ==>
          decode(Strip(payloads[i])).Some? && CarriesDelta(decode(Strip(payloads[i])).value, cs[i]))
    && (forall i, j :: 0 <= i < |gaps| && 0 <= j < |gaps[i]| ==> SseIgnored(decode, gaps[i][j]))
  }

  /** The first event of well-formed events, and the well-formed rest. */
  lemma DeltaEventsSplit(decode: Decoder, cs: seq<string>, payloads: seq<string>, gaps: seq<seq<string>>)
    requires DeltaEvents(decode, cs, payloads, gaps) && cs != []
    ensures Strip(payloads[0]) != DoneSentinel
    ensures decode(Strip(payloads[0])).Some? && CarriesDelta(decode(Strip(payloads[0])).value, cs[0])
    ensures forall j :: 0 <= j < |gaps[0]| ==> SseIgnored(decode, gaps[0][j])
    ensures DeltaEvents(decode, cs[1..], payloads[1..], gaps[1..])
  {
    assert forall i :: 0 <= i < |gaps[1..]| ==> gaps[1..][i] == gaps[i + 1];
  }

  /** The first event yields its content, when non-empty, and hands over to the later events. */
  lemma FirstEventYields(decode: Decoder, cs: seq<string>, payloads: seq<string>,
                         gaps: seq<seq<string>>, tail: seq<string>)
    requires DeltaEvents(decode, cs, payloads, gaps) && cs != []
    ensures Drive(Sse, decode, Events(payloads, gaps) + tail)
            == Prefixed(if cs[0] == "" then [] else [cs[0]],
                        Drive(Sse, decode, Events(payloads[1..], gaps[1..]) + tail))
  {
    DeltaEventsSplit(decode, cs, payloads, gaps);
    var later := Events(payloads[1..], gaps[1..]) + tail;
    assert Events(payloads, gaps) + tail == [DataPrefix + payloads[0]] + (gaps[0] + later);
    DeltaLineYields(decode, payloads[0], cs[0], gaps[0] + later);
    SseSkipsLines(decode, gaps[0], later);
  }

  /** Events whose chunks carry the contents `cs` yield the non-empty ones and hand over. */
  lemma {:induction false} EventsYield(decode: Decoder, cs: seq<string>, payloads: seq<string>,
                                       gaps: seq<seq<string>>, tail: seq<string>)
    requires DeltaEvents(decode, cs, payloads, gaps)
    ensures Drive(Sse, decode, Events(payloads, gaps) + tail)
            == Prefixed(NonEmpty(cs), Drive(Sse, decode, tail))
  {
    if payloads == [] {
      assert Events(payloads, gaps) + tail == tail;
    } else {
      DeltaEventsSplit(decode, cs, payloads, gaps);
      FirstEventYields(decode, cs, payloads, gaps, tail);
      EventsYield(decode, cs[1..], payloads[1..], gaps[1..], tail);
      var head := if cs[0] == "" then [] else [cs[0]];
      assert NonEmpty(cs) == head + NonEmpty(cs[1..]);
      PrefixedTwice(head, NonEmpty(cs[1..]), Drive(Sse, decode, tail));
    }
  }

  /**
   * A well-formed stream of chat-completion chunks: after any leading
   * ignored lines, events whose payloads decode to chunks carrying the delta
   * contents `cs`, each followed by ignored lines such as the blank
   * separator, then `[DONE]`. The parser yields exactly the non-empty
   * contents, in order, whatever follows the `[DONE]` line; their
   * concatenation is that of all contents.
   */
  lemma SseDeltaContents(decode: Decoder, cs: seq<string>, payloads: seq<string>, lead: seq<string>,
                         gaps: seq<seq<string>>, done: string, post: seq<string>)
    requires |payloads| == |cs| == |gaps|
    requires forall i :: 0 <= i < |cs| ==> Strip(payloads[i]) != DoneSentinel
    requires forall i :: 0 <= i < |cs| ==>
               decode(Strip(payloads[i])).Some? && CarriesDelta(decode(Strip(payloads[i])).value, cs[i])
    requires forall j :: 0 <= j < |lead| ==> SseIgnored(decode, lead[j])
    requires forall i, j :: 0 <= i < |gaps| && 0 <= j < |gaps[i]| ==> SseIgnored(decode, gaps[i][j])
    requires IsDoneLine(done)
    ensures var out := Drive(Sse, decode, lead + Events(payloads, gaps) + [done] + post);
            out.fragments == NonEmpty(cs) && out.ending == Completed
            && Concat(out.fragments) == Concat(cs)
  {
    var tail := [done] + post;
    assert lead + Events(payloads, gaps) + [done] + post == lead + (Events(payloads, gaps) + tail);
    SseSkipsLines(decode, lead, Events(payloads, gaps) + tail);
    EventsYield(decode, cs, payloads, gaps, tail);
    ActionsAppend(Sse, decode, [done], post);
    DoneLineStops(decode, done);
    assert Actions(Sse, decode, tail)[0] == Stop;
    assert NonEmpty(cs) + [] == NonEmpty(cs);
    ConcatNonEmpty(cs);
  }

  /**
   * The usual shape of an OpenAI or OpenRouter body: each event followed by
   * its blank separator line, then `[DONE]` and its own separator.
   */
  lemma SseSeparatedEvents(decode: Decoder, p0: string, c0: string, p1: string, c1: string, done: string)
    requires Strip(p0) != DoneSentinel && decode(Strip(p0)).Some? && CarriesDelta(decode(Strip(p0)).value, c0)
    requires Strip(p1) != DoneSentinel && decode(Strip(p1)).Some? && CarriesDelta(decode(Strip(p1)).value, c1)
    requires IsDoneLine(done)
    ensures Drive(Sse, decode, [DataPrefix + p0, "", DataPrefix + p1, "", done, ""])
            == Stream(NonEmpty([c0, c1]), Completed)
  {
    var gaps := [[""], [""]];
    assert SseIgnored(decode, "");
    assert [p0, p1][1..] == [p1] && gaps[1..] == [[""]];
    assert Events([p1], [[""]]) == [DataPrefix + p1] + [""] + Events([], []);
    assert Events([p0, p1], gaps) == [DataPrefix + p0] + [""] + Events([p1], [[""]]);
    assert Events([p0, p1], gaps) == [DataPrefix + p0, "", DataPrefix + p1, ""];
    assert [] + Events([p0, p1], gaps) + [done] + [""] == [DataPrefix + p0, "", DataPrefix + p1, "", done, ""];
    SseDeltaContents(decode, [c0, c1], [p0, p1], [], gaps, done, [""]);
  }

  /** Lines `data: <payload>`, one per payload. */
  function DataLines(payloads: seq<string>): seq<string> {
    seq(|payloads|, i requires 0 <= i < |payloads| => DataPrefix + payloads[i])
  }

  /** Data lines carrying delta frames act as their contents. */
  lemma DeltaLinesActions(decode: Decoder, cs: seq<string>, payloads: seq<string>)
    requires |payloads| == |cs|
    requires forall i :: 0 <= i < |cs| ==> Strip(payloads[i]) != DoneSentinel
    requires forall i :: 0 <= i < |cs| ==>
               decode(Strip(payloads[i])).Some? && CarriesDelta(decode(Strip(payloads[i])).value, cs[i])
    ensures Actions(Sse, decode, DataLines(payloads)) == ContentActions(cs)
  {
    var lines := DataLines(payloads);
    forall i | 0 <= i < |cs|
      ensures Actions(Sse, decode, lines)[i] == ContentActions(cs)[i]
    {
      DeltaLineAction(decode, payloads[i], cs[i]);
    }
  }

  /** The `[DONE]` line stops the stream. */
  lemma DoneLineStops(decode: Decoder, done: string)
    requires IsDoneLine(done)
    ensures Actions(Sse, decode, [done]) == [Stop]
  {
    assert Actions(Sse, decode, [done])[0] == SseLineAction(decode, done);
  }

  /** A `data: ` line whose payload decodes to a chunk carrying the delta content `c`. */
  lemma DeltaLineAction(decode: Decoder, payload: string, c: string)
    requires Strip(payload) != DoneSentinel
    requires decode(Strip(payload)).Some? && CarriesDelta(decode(Strip(payload)).value, c)
    ensures SseLineAction(decode, DataPrefix + payload) == if c == "" then Skip else Emit(c)
  {
    var line := DataPrefix + payload;
    assert line[..|DataPrefix|] == DataPrefix;
    assert line[|DataPrefix|..] == payload;
    DeltaFrameYieldsContent(decode(Strip(payload)).value, c);
  }

  /** A first choice without a `delta` key yields nothing, whatever its `message` holds. */
  lemma MessageIgnoredWithoutDelta(js: Json)
    requires FirstChoice(js).Some? && "delta" !in FirstChoice(js).value
    ensures FrameAction(js) == Skip
  {
  }

  /**
   * The message path is consulted only when the delta path raises: a frame
   * whose delta path yields or stays quiet is decided by it alone, and
   * otherwise `choices[0].message.content` decides, a raise there being skipped.
   */
  lemma MessageUsedOnlyWhenDeltaRaises(js: Json)
    ensures DeltaAttempt(js) != Raised ==>
              FrameAction(js) == if DeltaAttempt(js).Yielded? then Emit(DeltaAttempt(js).text) else Skip
    ensures DeltaAttempt(js) == Raised ==>
              FrameAction(js) == if MessageAttempt(js).Yielded? then Emit(MessageAttempt(js).text) else Skip
  {
  }

  /**
   * `message.content` is yielded when the delta path raises: on a `delta`
   * that is not a dict, or on a truthy `content` that is not a string.
   */
  lemma MessageUsedWhenDeltaRaises(js: Json, content: string)
    requires FirstChoice(js).Some?
    requires var choice := FirstChoice(js).value;
             "delta" in choice &&
             (!choice["delta"].Obj? ||
              (Truthy(Get(choice["delta"].fields, "content")) && !Get(choice["delta"].fields, "content").Str?))
    requires var choice := FirstChoice(js).value;
             "message" in choice && choice["message"].Obj? && Get(choice["message"].fields, "content") == Str(content)
    requires content != ""
    ensures FrameAction(js) == Emit(content)
  {
  }

  /** A chunk carrying the delta content `c` yields exactly `c` when it is non-empty, and nothing otherwise. */
  lemma DeltaFrameYieldsContent(js: Json, c: string)
    requires CarriesDelta(js, c)
    ensures Truthy(js)
    ensures FrameAction(js) == if c == "" then Skip else Emit(c)
  {
    assert "choices" in js.fields;
  }

  /**
   * A non-200 response yields exactly one fragment, `[HTTP <status>] <body>`,
   * and no line of the body is parsed.
   */
  lemma HttpErrorIsOneFragment(p: Protocol, decode: Decoder, status: int, body: string,
                               lines1: seq<string>, lines2: seq<string>)
    requires status != 200
    ensures Parse(p, decode, Answered(status, body, lines1)) == Parse(p, decode, Answered(status, body, lines2))
    ensures var s := Parse(p, decode, Answered(status, body, lines1));
            |s.fragments| == 1 && StartsWith(s.fragments[0], "[HTTP ") && s.ending == Completed
    ensures Parse(p, decode, Answered(status, body, lines1))
            == Stream(["[HTTP " + IntToDecimal(status) + "] " + body], Completed)
  {
    var f := HttpErrorFragment(status, body);
    assert f[..6] == "[HTTP ";
  }

  /** An NDJSON object with a non-empty string `response` yields it, and stops the stream exactly when `done` is truthy. */
  lemma NdjsonYieldsResponse(decode: Decoder, chunk: string, fields: map<string, Json>, text: string)
    requires chunk != "" && decode(chunk) == Some(Obj(fields))
    requires "response" in fields && fields["response"] == Str(text) && text != ""
    ensures NdjsonLineAction(decode, chunk) == if Truthy(Get(fields, "done")) then EmitStop(text) else Emit(text)
  {
    assert Truthy(Obj(fields));
    assert Get(fields, "response") == Str(text);
    assert Truthy(Str(text));
  }

  /**
   * A line with a truthy `done` yields its own `response` (when non-empty)
   * and ends the stream: no later line is looked at.
   */
  lemma NdjsonDoneEndsStream(decode: Decoder, pre: seq<string>, line: string, fields: map<string, Json>,
                             post: seq<string>)
    requires forall i :: 0 <= i < |pre| ==> !Ends(NdjsonLineAction(decode, pre[i]))
    requires line != "" && decode(line) == Some(Obj(fields))
    requires Truthy(Get(fields, "done"))
    requires !Truthy(Get(fields, "response")) || Get(fields, "response").Str?
    ensures var r := Get(fields, "response");
            Drive(Ndjson, decode, pre + [line] + post)
            == Stream(Drive(Ndjson, decode, pre).fragments + (if Truthy(r) then [r.s] else []), Completed)
  {
    assert fields != map[];
    DriveIgnoresAfterEnd(Ndjson, decode, pre, line, post);
    assert [line][1..] == [];
  }

  /** A truthy line that is not a JSON object ends the stream with an exception. */
  lemma NdjsonNonObjectCrashes(decode: Decoder, pre: seq<string>, line: string, js: Json, post: seq<string>)
    requires forall i :: 0 <= i < |pre| ==> !Ends(NdjsonLineAction(decode, pre[i]))
    requires line != "" && decode(line) == Some(js) && Truthy(js) && !js.Obj?
    ensures Drive(Ndjson, decode, pre + [line] + post) == Stream(Drive(Ndjson, decode, pre).fragments, Crashed)
  {
    DriveIgnoresAfterEnd(Ndjson, decode, pre, line, post);
  }
}
