/**
  The Messages API: a whole reply and its event stream, both translated into the
  canonical shape, agree.
 */
module AnthropicStream {
  import opened Wrappers
  import opened Messages
  import opened Stream

  /** A "usage" object; absent fields read as 0. */
  datatype Counts = Counts(input: Option<nat>, cacheRead: Option<nat>, cacheWrite: Option<nat>, output: Option<nat>)

  /** anthropic_prompt_tokens. */
  function PromptTokens(u: Counts): nat { Num(u.input) + Num(u.cacheRead) + Num(u.cacheWrite) }

  /** map_stop_reason. */
  function StopReason(r: string): string {
    if r == "end_turn" || r == "stop_sequence" then "stop"
    else if r == "max_tokens" then "length"
    else if r == "tool_use" then "tool_calls"
    else r
  }

  /** Which reasons of the API mean which: the others are passed on. */
  lemma {:induction false} StopReasons(r: string)
    ensures StopReason(r) == "stop" <==> r in {"end_turn", "stop_sequence", "stop"}
    ensures StopReason(r) == "length" <==> r in {"max_tokens", "length"}
    ensures StopReason(r) == "tool_calls" <==> r in {"tool_use", "tool_calls"}
    ensures r !in {"end_turn", "stop_sequence", "max_tokens", "tool_use"} ==> StopReason(r) == r
  {
  }

  /** The prompt is what was read anew, from the cache, and into it; the total adds the output. */
  lemma {:induction false} UsageAddsUp(input: nat, cacheRead: nat, cacheWrite: nat, output: nat)
    ensures var u := Combine(Counts(Some(input), Some(cacheRead), Some(cacheWrite), Some(output)), output);
            && u == Usage(input + cacheRead + cacheWrite, output, input + cacheRead + cacheWrite + output, cacheRead, cacheWrite)
    ensures Combine(Counts(None, None, None, None), output) == Usage(0, output, output, 0, 0)
  {
  }

  datatype Block =
    | TextBlock(text: Option<string>)
    | Thinking
    | ToolUse(id: Option<string>, name: Option<string>, input: Option<string>)  // input as printed JSON
    | OtherBlock

  datatype Reply = Reply(blocks: seq<Block>, stop: Option<string>, usage: Option<Counts>)

  function Parts(blocks: seq<Block>): seq<Part> {
    seq(|blocks|, i requires 0 <= i < |blocks| => match blocks[i]
      case TextBlock(t) => Text(Val(t))
      case ToolUse(id, name, input) => Call(Val(id), Val(name), if input.Some? then input.value else "{}")
      case _ => Other)
  }

  function Combine(u: Counts, output: nat): Usage {
    Usage(PromptTokens(u), output, PromptTokens(u) + output, Num(u.cacheRead), Num(u.cacheWrite))
  }

  ghost function Whole(r: Reply): Canonical {
    Canonical(
      WholeText(Parts(r.blocks)), WholeCalls(Parts(r.blocks)),
      if r.stop.Some? then Some(StopReason(r.stop.value)) else None,
      if r.usage.Some? then Some(Combine(r.usage.value, Num(r.usage.value.output))) else None)
  }

  /** anthropic_normalize_response. */
  method NormalizeResponse(r: Reply) returns (c: Canonical)
    ensures c == Whole(r)
  {
    var text := "";
    var calls: seq<ToolCall> := [];
    var i := 0;
    ghost var parts := Parts(r.blocks);
    while i < |r.blocks|
      invariant 0 <= i <= |r.blocks|
      invariant text + WholeText(parts[i..]) == WholeText(parts)
      invariant calls + WholeCalls(parts[i..]) == WholeCalls(parts)
    {
      WholeTextFront(text, parts, i);
      WholeCallsFront(calls, parts, i);
      match r.blocks[i] {
        case TextBlock(t) =>
          if t.Some? {
            text := text + t.value;
          }
        case ToolUse(id, name, input) =>
          calls := calls + [ToolCall(Val(id), Val(name), if input.Some? then input.value else "{}")];
        case _ =>
      }
      i := i + 1;
    }
    c := Canonical(
      text, calls,
      if r.stop.Some? then Some(StopReason(r.stop.value)) else None,
      if r.usage.Some? then Some(Combine(r.usage.value, Num(r.usage.value.output))) else None);
  }

  // -------------------------------------------------------------- streaming

  datatype Event =
    | BlockStart(index: int, tool: Option<(Option<string>, Option<string>)>)
    | TextDelta(text: Option<string>)
    | ThinkingDelta
    | JsonDelta(index: int, part: Option<string>)
    | MessageStart(usage: Option<Counts>)
    | MessageDelta(stop: Option<string>, output: Option<nat>)
    | ErrorEvent(message: Option<string>)
    | Ignored

  /** anth_stream_state: what message_start said, zeros before. */
  datatype State = State(input: nat, cacheRead: nat, cacheWrite: nat)

  const NoState := State(0, 0, 0)

  /** anthropic_normalize_stream_event. */
  function Translate(e: Event, s: State): (Option<Chunk>, State) {
    match e
    case BlockStart(index, tool) =>
      (if tool.Some? then
         Some(ToolChunk(ToolDelta(Some(index), Some(Val(tool.value.0)), Some(Val(tool.value.1)), Some(""))))
       else None, s)
    case TextDelta(t) => (Some(Chunk(None, true, None, None, Some(Val(t)), [])), s)
    case ThinkingDelta => (Some(Chunk(None, true, None, None, None, [])), s)
    case JsonDelta(index, part) => (Some(ToolChunk(ToolDelta(Some(index), None, None, Some(Val(part))))), s)
    case MessageStart(u) =>
      (None, if u.Some? then State(PromptTokens(u.value), Num(u.value.cacheRead), Num(u.value.cacheWrite)) else s)
    case MessageDelta(stop, output) =>
      (Some(Chunk(
         if output.Some? then
           Some(Usage(s.input, output.value, s.input + output.value, s.cacheRead, s.cacheWrite))
         else None,
         true, if stop.Some? then Some(StopReason(stop.value)) else None, None, None, [])), s)
    case ErrorEvent(_) => (None, s)
    case Ignored => (None, s)
  }

  /** The provider, for any way of parsing payloads. */
  function Anthropic(parse: string -> Option<Event>): Provider<Event, State> {
    Provider(parse, (e: Event) => if e.ErrorEvent? then e.message else None, (e: Event, s: State) => Translate(e, s))
  }

  /** A reported error is the finish reason of a turn that has none yet, and changes nothing else. */
  lemma {:induction false} ErrorEndsTheTurn(parse: string -> Option<Event>, t: Turn<State>, message: Option<string>)
    ensures
      TakeEvent(Anthropic(parse), t, ErrorEvent(message)).asm ==
        if message.Some? && t.asm.finish.None? then t.asm.(finish := Some("error")) else t.asm
  {
  }

  function Deltas(es: seq<Event>): seq<(nat, ToolDelta)> {
    if es == [] then []
    else
      (match es[0]
       case BlockStart(index, tool) =>
         if tool.Some? && index >= 0 then
           [(index, ToolDelta(Some(index), Some(Val(tool.value.0)), Some(Val(tool.value.1)), Some("")))]
         else []
       case JsonDelta(index, part) =>
         if index >= 0 then [(index, ToolDelta(Some(index), None, None, Some(Val(part))))] else []
       case _ => [])
      + Deltas(es[1..])
  }

  function Texts(es: seq<Event>): string {
    if es == [] then "" else (if es[0].TextDelta? then Val(es[0].text) else "") + Texts(es[1..])
  }

  /** The usage state behind es. */
  function StateAfter(s: State, es: seq<Event>): State
    decreases |es|
  {
    if es == [] then s else StateAfter(Translate(es[0], s).1, es[1..])
  }

  function LastStop(es: seq<Event>): Option<string> {
    if es == [] then None
    else
      var later := LastStop(es[1..]);
      if later.Some? then later else if es[0].MessageDelta? then es[0].stop else None
  }

  function LastUsage(s: State, es: seq<Event>): Option<Usage>
    decreases |es|
  {
    if es == [] then None
    else
      var later := LastUsage(Translate(es[0], s).1, es[1..]);
      if later.Some? then later
      else
        var c := Translate(es[0], s).0;
        if c.Some? then c.value.usage else None
  }

  ghost predicate NoError(es: seq<Event>) { forall i | 0 <= i < |es| :: !es[i].ErrorEvent? }

  // What a run of events without an error amounts to, piece by piece.

  lemma {:induction false} FoldText(parse: string -> Option<Event>, t: Turn<State>, es: seq<Event>)
    requires NoError(es)
    ensures FoldEvents(Anthropic(parse), t, es).asm.text == t.asm.text + Texts(es)
    decreases |es|
  {
    if es == [] {
      assert t.asm.text + "" == t.asm.text;
    } else {
      var v := TakeEvent(Anthropic(parse), t, es[0]);
      TakeOne(parse, t, es[0]);
      FoldText(parse, v, es[1..]);
      var x := if es[0].TextDelta? then Val(es[0].text) else "";
      assert v.asm.text == t.asm.text + x;
      Associative(t.asm.text, x, Texts(es[1..]));
    }
  }

  lemma {:induction false} FoldCalls(parse: string -> Option<Event>, t: Turn<State>, es: seq<Event>)
    requires NoError(es)
    ensures FoldEvents(Anthropic(parse), t, es).asm.calls == MergeAll(t.asm.calls, Deltas(es))
    decreases |es|
  {
    if es != [] {
      var v := TakeEvent(Anthropic(parse), t, es[0]);
      TakeOne(parse, t, es[0]);
      FoldCalls(parse, v, es[1..]);
      DeltasCons(es);
      MergeAllConcat(t.asm.calls, Deltas([es[0]]), Deltas(es[1..]));
    }
  }

  lemma {:induction false} DeltasCons(es: seq<Event>)
    requires es != []
    ensures Deltas(es) == Deltas([es[0]]) + Deltas(es[1..])
  {
    assert [es[0]][1..] == [];
  }

  lemma {:induction false} FoldFinish(parse: string -> Option<Event>, t: Turn<State>, es: seq<Event>)
    requires NoError(es)
    ensures FoldEvents(Anthropic(parse), t, es).asm.finish ==
            (if LastStop(es).Some? then Some(StopReason(LastStop(es).value)) else t.asm.finish)
    decreases |es|
  {
    if es != [] {
      var v := TakeEvent(Anthropic(parse), t, es[0]);
      TakeOne(parse, t, es[0]);
      FoldFinish(parse, v, es[1..]);
    }
  }

  lemma {:induction false} FoldUsage(parse: string -> Option<Event>, t: Turn<State>, es: seq<Event>)
    requires NoError(es)
    ensures FoldEvents(Anthropic(parse), t, es).asm.usage ==
            (if LastUsage(t.state, es).Some? then LastUsage(t.state, es) else t.asm.usage)
    decreases |es|
  {
    if es != [] {
      var v := TakeEvent(Anthropic(parse), t, es[0]);
      TakeOne(parse, t, es[0]);
      FoldUsage(parse, v, es[1..]);
    }
  }

  lemma {:induction false} TakeOne(parse: string -> Option<Event>, t: Turn<State>, e: Event)
    requires !e.ErrorEvent?
    ensures var v := TakeEvent(Anthropic(parse), t, e);
            && v.state == Translate(e, t.state).1
            && v.asm.text == t.asm.text + (if e.TextDelta? then Val(e.text) else "")
            && v.asm.calls == MergeAll(t.asm.calls, Deltas([e]))
            && v.asm.finish == (if e.MessageDelta? && e.stop.Some? then Some(StopReason(e.stop.value)) else t.asm.finish)
            && v.asm.usage == (var c := Translate(e, t.state).0;
                               if c.Some? && c.value.usage.Some? then c.value.usage else t.asm.usage)
  {
    assert [e][1..] == [];
    assert t.asm.text + "" == t.asm.text;
    var c := Translate(e, t.state).0;
    if c.Some? {
      MergeFromPlaced(t.asm.calls, c.value.tools, 0);
      if |c.value.tools| == 1 {
        assert Placed(c.value.tools, 1) == [];
        assert Placed(c.value.tools, 0) == Deltas([e]);
      } else {
        assert Placed(c.value.tools, 0) == [] == Deltas([e]);
      }
    }
  }

  /** message_start carries prompt counts, message_delta an output count. */
  predicate Starts(e: Event) { e.MessageStart? && e.usage.Some? }

  predicate Counted(e: Event) { e.MessageDelta? && e.output.Some? }

  predicate SamePrompt(u: Counts, v: Counts) {
    Num(u.input) == Num(v.input) && Num(u.cacheRead) == Num(v.cacheRead) && Num(u.cacheWrite) == Num(v.cacheWrite)
  }

  /** The last output count is that of event j, and the last prompt counts before it are those of event i. */
  ghost predicate CountsAt(es: seq<Event>, i: nat, j: nat) {
    && i < j < |es| && Starts(es[i]) && Counted(es[j])
    && (forall k | i < k < j :: !Starts(es[k])) && (forall k | j < k < |es| :: !Counted(es[k]))
  }

  /** The events carry the counts of a reply: those of the prompt first, the output count last; or no output count. */
  ghost predicate CarriesUsage(es: seq<Event>, usage: Option<Counts>) {
    match usage
    case Some(u) =>
      exists i: nat, j: nat :: CountsAt(es, i, j) && SamePrompt(es[i].usage.value, u) && es[j].output == Some(Num(u.output))
    case None => forall k | 0 <= k < |es| :: !Counted(es[k])
  }

  /**
    es streams the reply r: its text in some pieces, each call announced once and
    sent in some fragments with other calls in between, the prompt counts before
    the output count, the stop reason last.
   */
  ghost predicate Streams(es: seq<Event>, r: Reply) {
    && NoError(es)
    && Texts(es) == WholeText(Parts(r.blocks))
    && SendsCalls(Deltas(es), Parts(r.blocks))
    && LastStop(es) == r.stop
    && CarriesUsage(es, r.usage)
  }

  /** The prompt counts reach the last output count, whatever comes before, between and behind. */
  lemma {:induction false} UsageFromStart(s: State, es: seq<Event>, i: nat, j: nat)
    requires CountsAt(es, i, j)
    ensures LastUsage(s, es) == Some(Combine(es[i].usage.value, es[j].output.value))
    decreases |es|
  {
    if i == 0 {
      UsageAtEnd(Translate(es[0], s).1, es[1..], j - 1);
    } else {
      assert es[1..][i - 1] == es[i] && es[1..][j - 1] == es[j];
      UsageFromStart(Translate(es[0], s).1, es[1..], i - 1, j - 1);
    }
  }

  lemma {:induction false} UsageAtEnd(s: State, es: seq<Event>, j: nat)
    requires j < |es| && Counted(es[j])
    requires forall k | 0 <= k < j :: !Starts(es[k])
    requires forall k | j < k < |es| :: !Counted(es[k])
    ensures var n := es[j].output.value;
            LastUsage(s, es) == Some(Usage(s.input, n, s.input + n, s.cacheRead, s.cacheWrite))
    decreases |es|
  {
    if j == 0 {
      NoUsage(Translate(es[0], s).1, es[1..]);
    } else {
      assert es[1..][j - 1] == es[j] && Translate(es[0], s).1 == s;
      UsageAtEnd(s, es[1..], j - 1);
    }
  }

  lemma {:induction false} NoUsage(s: State, es: seq<Event>)
    requires forall k | 0 <= k < |es| :: !Counted(es[k])
    ensures LastUsage(s, es) == None
    decreases |es|
  {
    if es != [] { NoUsage(Translate(es[0], s).1, es[1..]); }
  }

  lemma {:induction false} UsageCarried(es: seq<Event>, usage: Option<Counts>)
    requires CarriesUsage(es, usage)
    ensures LastUsage(NoState, es) == if usage.Some? then Some(Combine(usage.value, Num(usage.value.output))) else None
  {
    if usage.None? { NoUsage(NoState, es); } else { SomeCarried(es, usage.value); }
  }

  lemma {:induction false} SomeCarried(es: seq<Event>, u: Counts)
    requires CarriesUsage(es, Some(u))
    ensures LastUsage(NoState, es) == Some(Combine(u, Num(u.output)))
  {
    var i: nat, j: nat :| CountsAt(es, i, j) && SamePrompt(es[i].usage.value, u) && es[j].output == Some(Num(u.output));
    UsageFromStart(NoState, es, i, j);
    SameCombine(es[i].usage.value, u, Num(u.output));
  }

  lemma {:induction false} SameCombine(u: Counts, v: Counts, n: nat)
    requires SamePrompt(u, v)
    ensures Combine(u, n) == Combine(v, n)
  {
  }

  /** For any splitting and interleaving, the assembled stream equals the whole reply normalised. */
  lemma {:induction false} StreamEqualsWhole(parse: string -> Option<Event>, es: seq<Event>, r: Reply)
    requires Streams(es, r)
    ensures Outcome(FoldEvents(Anthropic(parse), Turn("", Assembly("", [], None, None), NoState), es).asm) == Whole(r)
  {
    var t := Turn("", Assembly("", [], None, None), NoState);
    var parts := Parts(r.blocks);
    FoldText(parse, t, es);
    FoldCalls(parse, t, es);
    FoldFinish(parse, t, es);
    FoldUsage(parse, t, es);
    UsageCarried(es, r.usage);
    SentCalls(Deltas(es), parts);
    assert "" + Texts(es) == Texts(es);
  }

  /** And that for any chopping of the bytes that carry the payloads of the events, among other lines. */
  lemma {:induction false} BytesEqualWhole(parse: string -> Option<Event>, lines: seq<WireLine>, pieces: seq<string>, r: Reply)
    requires (forall l | l in lines :: Proper(l)) && Flat(pieces) == Unlines(PrintAll(lines))
    requires Streams(Meant(parse, lines), r)
    ensures Outcome(FeedPieces(Anthropic(parse), Turn("", Assembly("", [], None, None), NoState), pieces).asm) == Whole(r)
  {
    FeedPrinted(Anthropic(parse), Turn("", Assembly("", [], None, None), NoState), lines, pieces);
    StreamEqualsWhole(parse, Meant(parse, lines), r);
  }
}
