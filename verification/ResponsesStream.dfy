/**
  The Responses API: a whole reply and its event stream, both translated into the
  canonical shape, agree. Its finish reason depends on whether a call was seen.
 */
module ResponsesStream {
  import opened Wrappers
  import opened Messages
  import opened Stream

  datatype Counts = Counts(input: Option<nat>, output: Option<nat>, cached: Option<nat>, cacheWrite: Option<nat>)

  function UsageOf(u: Counts): Usage {
    Usage(Num(u.input), Num(u.output), Num(u.input) + Num(u.output), Num(u.cached), Num(u.cacheWrite))
  }

  /** The envelope that closes a reply, whole or streamed. */
  datatype Close = Close(status: Option<string>, incomplete: Option<string>, error: Option<string>, usage: Option<Counts>)

  datatype Item =
    | MessageItem(texts: seq<Option<string>>)   // its output_text parts
    | FunctionCall(callId: Option<string>, name: Option<string>, arguments: Option<string>)
    | OtherItem

  datatype Reply = Reply(output: seq<Item>, close: Close)

  /** map_status. */
  function MapStatus(c: Close, hasCalls: bool): Option<string> {
    if hasCalls then Some("tool_calls")
    else if c.status.None? then None
    else if c.status.value == "completed" then Some("stop")
    else if c.status.value == "incomplete" then
      Some(if c.incomplete == Some("content_filter") then "content_filter" else "length")
    else if c.status.value == "failed" || c.status.value == "cancelled" then Some("error")
    else c.status
  }

  /** Calls decide first; else the status, an incomplete reply by its reason. Another status is passed on. */
  lemma {:induction false} FinishReasons(c: Close, hasCalls: bool)
    ensures hasCalls ==> MapStatus(c, hasCalls) == Some("tool_calls")
    ensures !hasCalls && c.status == Some("completed") ==> MapStatus(c, hasCalls) == Some("stop")
    ensures !hasCalls && c.status == Some("incomplete") ==>
              MapStatus(c, hasCalls) == (if c.incomplete == Some("content_filter") then Some("content_filter") else Some("length"))
    ensures !hasCalls && c.status in {Some("failed"), Some("cancelled")} ==> MapStatus(c, hasCalls) == Some("error")
    ensures !hasCalls && c.status !in {Some("completed"), Some("incomplete"), Some("failed"), Some("cancelled")} ==>
              MapStatus(c, hasCalls) == c.status
  {
  }

  /** The total adds the output to the input; absent counts are 0. */
  lemma {:induction false} UsageAddsUp(input: nat, output: nat, cached: nat, cacheWrite: nat)
    ensures UsageOf(Counts(Some(input), Some(output), Some(cached), Some(cacheWrite))) ==
            Usage(input, output, input + output, cached, cacheWrite)
    ensures UsageOf(Counts(None, None, None, None)) == Usage(0, 0, 0, 0, 0)
  {
  }

  function Join(texts: seq<Option<string>>): string {
    if texts == [] then "" else Val(texts[0]) + Join(texts[1..])
  }

  function Parts(items: seq<Item>): seq<Part> {
    seq(|items|, i requires 0 <= i < |items| => match items[i]
      case MessageItem(texts) => Text(Join(texts))
      case FunctionCall(id, name, args) => Call(Val(id), Val(name), if args.Some? then args.value else "{}")
      case OtherItem => Other)
  }

  predicate HasCalls(items: seq<Item>) { exists i | 0 <= i < |items| :: items[i].FunctionCall? }

  ghost function Whole(r: Reply): Canonical {
    Canonical(
      WholeText(Parts(r.output)), WholeCalls(Parts(r.output)), MapStatus(r.close, HasCalls(r.output)),
      if r.close.usage.Some? then Some(UsageOf(r.close.usage.value)) else None)
  }

  /** responses_normalize_response. */
  method NormalizeResponse(r: Reply) returns (c: Canonical)
    ensures c == Whole(r)
  {
    var text := "";
    var calls: seq<ToolCall> := [];
    var seen := false;
    var i := 0;
    ghost var parts := Parts(r.output);
    while i < |r.output|
      invariant 0 <= i <= |r.output|
      invariant text + WholeText(parts[i..]) == WholeText(parts)
      invariant calls + WholeCalls(parts[i..]) == WholeCalls(parts)
      invariant seen <==> exists j | 0 <= j < i :: r.output[j].FunctionCall?
    {
      WholeTextFront(text, parts, i);
      WholeCallsFront(calls, parts, i);
      match r.output[i] {
        case MessageItem(texts) =>
          var t := JoinTexts(texts);
          text := text + t;
        case FunctionCall(id, name, args) =>
          seen := true;
          calls := calls + [ToolCall(Val(id), Val(name), if args.Some? then args.value else "{}")];
        case OtherItem =>
      }
      i := i + 1;
    }
    c := Canonical(text, calls, MapStatus(r.close, seen),
                   if r.close.usage.Some? then Some(UsageOf(r.close.usage.value)) else None);
  }

  lemma {:induction false} JoinFront(t: string, texts: seq<Option<string>>, j: nat)
    requires j < |texts|
    ensures t + Join(texts[j..]) == (if texts[j].Some? then t + texts[j].value else t) + Join(texts[j + 1..])
  {
    assert texts[j..][1..] == texts[j + 1..];
    Associative(t, Val(texts[j]), Join(texts[j + 1..]));
    assert t + "" == t;
  }

  /** The inner loop over the parts of one message item. */
  method JoinTexts(texts: seq<Option<string>>) returns (t: string)
    ensures t == Join(texts)
  {
    t := "";
    var j := 0;
    assert texts[0..] == texts && "" + Join(texts) == Join(texts);
    while j < |texts|
      invariant 0 <= j <= |texts|
      invariant t + Join(texts[j..]) == Join(texts)
    {
      JoinFront(t, texts, j);
      if texts[j].Some? {
        t := t + texts[j].value;
      }
      j := j + 1;
    }
  }

  // -------------------------------------------------------------- streaming

  datatype Event =
    | TextDelta(delta: Option<string>)
    | ReasoningDelta
    | ItemAdded(index: int, call: Option<(Option<string>, Option<string>)>)
    | ArgumentsDelta(index: int, delta: Option<string>)
    | Finished(close: Close)
    | ErrorEvent(message: Option<string>)
    | Ignored

  /** resp_stream_state: has a function call been announced. */
  type State = bool

  /** responses_normalize_stream_event. */
  function Translate(e: Event, saw: State): (Option<Chunk>, State) {
    match e
    case TextDelta(d) => (Some(Chunk(None, true, None, None, Some(Val(d)), [])), saw)
    case ReasoningDelta => (Some(Chunk(None, true, None, None, None, [])), saw)
    case ItemAdded(index, call) =>
      if call.Some? then
        (Some(ToolChunk(ToolDelta(Some(index), Some(Val(call.value.0)), Some(Val(call.value.1)), Some("")))), true)
      else (None, saw)
    case ArgumentsDelta(index, d) => (Some(ToolChunk(ToolDelta(Some(index), None, None, Some(Val(d))))), saw)
    case Finished(close) =>
      var mapped := MapStatus(close, saw);
      (Some(Chunk(if close.usage.Some? then Some(UsageOf(close.usage.value)) else None, true, mapped,
                  if mapped == Some("error") then close.error else None, None, [])), saw)
    case ErrorEvent(_) => (None, saw)
    case Ignored => (None, saw)
  }

  function Responses(parse: string -> Option<Event>): Provider<Event, State> {
    Provider(parse, (e: Event) => if e.ErrorEvent? then e.message else None, (e: Event, s: State) => Translate(e, s))
  }

  /** A reported error is the finish reason of a turn that has none yet, and changes nothing else. */
  lemma {:induction false} ErrorEndsTheTurn(parse: string -> Option<Event>, t: Turn<State>, message: Option<string>)
    ensures
      TakeEvent(Responses(parse), t, ErrorEvent(message)).asm ==
        if message.Some? && t.asm.finish.None? then t.asm.(finish := Some("error")) else t.asm
  {
  }

  function Deltas(es: seq<Event>): seq<(nat, ToolDelta)> {
    if es == [] then []
    else
      (match es[0]
       case ItemAdded(index, call) =>
         if call.Some? && index >= 0 then
           [(index, ToolDelta(Some(index), Some(Val(call.value.0)), Some(Val(call.value.1)), Some("")))]
         else []
       case ArgumentsDelta(index, d) =>
         if index >= 0 then [(index, ToolDelta(Some(index), None, None, Some(Val(d))))] else []
       case _ => [])
      + Deltas(es[1..])
  }

  function Texts(es: seq<Event>): string {
    if es == [] then "" else (if es[0].TextDelta? then Val(es[0].delta) else "") + Texts(es[1..])
  }

  predicate SawCall(es: seq<Event>) { exists i | 0 <= i < |es| :: es[i].ItemAdded? && es[i].call.Some? }

  ghost predicate Open(es: seq<Event>) { forall i | 0 <= i < |es| :: !es[i].ErrorEvent? && !es[i].Finished? }

  lemma {:induction false} TakeOne(parse: string -> Option<Event>, t: Turn<State>, e: Event)
    requires !e.ErrorEvent? && !e.Finished?
    ensures var v := TakeEvent(Responses(parse), t, e);
            && v.state == (t.state || (e.ItemAdded? && e.call.Some?))
            && v.asm.text == t.asm.text + (if e.TextDelta? then Val(e.delta) else "")
            && v.asm.calls == MergeAll(t.asm.calls, Deltas([e]))
            && v.asm.finish == t.asm.finish && v.asm.usage == t.asm.usage && v.line == t.line
  {
    assert [e][1..] == [];
    assert t.asm.text + "" == t.asm.text;
    var c := Translate(e, t.state).0;
    if c.Some? {
      MergeFromPlaced(t.asm.calls, c.value.tools, 0);
      if |c.value.tools| == 1 {
        assert Placed(c.value.tools, 1) == [];
        assert Placed(c.value.tools, 0) == Deltas([e]);
      } else {
        assert Placed(c.value.tools, 0) == [] == Deltas([e]);
      }
    }
  }

  // Before the closing event text and calls build up, and finish and usage stay as they were.

  lemma {:induction false} FoldText(parse: string -> Option<Event>, t: Turn<State>, es: seq<Event>)
    requires Open(es)
    ensures FoldEvents(Responses(parse), t, es).asm.text == t.asm.text + Texts(es)
    decreases |es|
  {
    if es == [] {
      assert t.asm.text + "" == t.asm.text;
    } else {
      var v := TakeEvent(Responses(parse), t, es[0]);
      TakeOne(parse, t, es[0]);
      FoldText(parse, v, es[1..]);
      var x := if es[0].TextDelta? then Val(es[0].delta) else "";
      assert v.asm.text == t.asm.text + x;
      Associative(t.asm.text, x, Texts(es[1..]));
    }
  }

  lemma {:induction false} FoldIdle(parse: string -> Option<Event>, t: Turn<State>, es: seq<Event>)
    requires Open(es)
    ensures var u := FoldEvents(Responses(parse), t, es); u.asm.finish == t.asm.finish && u.asm.usage == t.asm.usage
    decreases |es|
  {
    if es != [] {
      TakeOne(parse, t, es[0]);
      FoldIdle(parse, TakeEvent(Responses(parse), t, es[0]), es[1..]);
    }
  }

  lemma {:induction false} FoldCalls(parse: string -> Option<Event>, t: Turn<State>, es: seq<Event>)
    requires Open(es)
    ensures FoldEvents(Responses(parse), t, es).asm.calls == MergeAll(t.asm.calls, Deltas(es))
    decreases |es|
  {
    if es != [] {
      var v := TakeEvent(Responses(parse), t, es[0]);
      TakeOne(parse, t, es[0]);
      FoldCalls(parse, v, es[1..]);
      DeltasCons(es);
      MergeAllConcat(t.asm.calls, Deltas([es[0]]), Deltas(es[1..]));
    }
  }

  lemma {:induction false} FoldSaw(parse: string -> Option<Event>, t: Turn<State>, es: seq<Event>)
    requires Open(es)
    ensures FoldEvents(Responses(parse), t, es).state == (t.state || SawCall(es))
    decreases |es|
  {
    if es != [] {
      var v := TakeEvent(Responses(parse), t, es[0]);
      TakeOne(parse, t, es[0]);
      FoldSaw(parse, v, es[1..]);
      if SawCall(es) {
        var i :| 0 <= i < |es| && es[i].ItemAdded? && es[i].call.Some?;
        assert i == 0 || es[1..][i - 1] == es[i];
      }
      if SawCall(es[1..]) {
        var i :| 0 <= i < |es[1..]| && es[1..][i].ItemAdded? && es[1..][i].call.Some?;
        assert es[i + 1] == es[1..][i];
      }
    }
  }

  /**
    es, then the closing event, streams the reply r: its text in some pieces, each
    call announced once and sent in some fragments with other calls in between.
   */
  ghost predicate Streams(es: seq<Event>, r: Reply) {
    && Open(es)
    && Texts(es) == WholeText(Parts(r.output))
    && SendsCalls(Deltas(es), Parts(r.output))
    && (forall i | 0 <= i < |es| :: es[i].ItemAdded? && es[i].call.Some? ==> es[i].index >= 0)
  }

  /** An announced call leaves a named delta at its index, and only an announcement does. */
  lemma {:induction false} AnnouncedIff(es: seq<Event>, k: nat)
    ensures (exists d :: d in Only(Deltas(es), k) && d.name.Some?) <==>
            (exists i :: 0 <= i < |es| && es[i].ItemAdded? && es[i].call.Some? && es[i].index == k)
    decreases |es|
  {
    if es != [] {
      AnnouncedIff(es[1..], k);
      OnlyCons(es, k);
      if i :| 0 <= i < |es| && es[i].ItemAdded? && es[i].call.Some? && es[i].index == k {
        if i == 0 {
          assert Only(Deltas([es[0]]), k) == [ToolDelta(Some(k), Some(Val(es[0].call.value.0)), Some(Val(es[0].call.value.1)), Some(""))];
        } else {
          assert es[1..][i - 1] == es[i];
        }
      }
      if i :| 0 <= i < |es[1..]| && es[1..][i].ItemAdded? && es[1..][i].call.Some? && es[1..][i].index == k {
        assert es[i + 1] == es[1..][i];
      }
      if d :| d in Only(Deltas([es[0]]), k) && d.name.Some? {
        assert es[0].ItemAdded? && es[0].call.Some? && es[0].index == k;
      }
    }
  }

  lemma {:induction false} DeltasCons(es: seq<Event>)
    requires es != []
    ensures Deltas(es) == Deltas([es[0]]) + Deltas(es[1..])
    ensures |Deltas([es[0]])| <= 1
  {
    assert [es[0]][1..] == [];
  }

  lemma {:induction false} OnlyCons(es: seq<Event>, k: nat)
    requires es != []
    ensures Only(Deltas(es), k) == Only(Deltas([es[0]]), k) + Only(Deltas(es[1..]), k)
  {
    var own := Deltas([es[0]]);
    DeltasCons(es);
    if own != [] {
      assert Deltas(es)[1..] == Deltas(es[1..]);
      assert own[1..] == [];
      assert Only(own, k) == (if own[0].0 == k then [own[0].1] else []);
    } else {
      assert own + Deltas(es[1..]) == Deltas(es[1..]);
    }
  }

  lemma {:induction false} SawIffCalls(es: seq<Event>, r: Reply)
    requires Streams(es, r)
    ensures SawCall(es) <==> HasCalls(r.output)
  {
    if SawCall(es) {
      var i :| 0 <= i < |es| && es[i].ItemAdded? && es[i].call.Some?;
      AnnouncedIff(es, es[i].index);
      assert Only(Deltas(es), es[i].index) != [];
    }
    if HasCalls(r.output) {
      var k :| 0 <= k < |r.output| && r.output[k].FunctionCall?;
      var frags :| Announces(Deltas(es), k, Parts(r.output)[k].id, Parts(r.output)[k].name, frags);
      AnnouncedIff(es, k);
      assert Only(Deltas(es), k)[0].name.Some?;
    }
  }

  /** For any splitting and interleaving, the assembled stream equals the whole reply normalised. */
  lemma {:induction false} StreamEqualsWhole(parse: string -> Option<Event>, es: seq<Event>, r: Reply)
    requires Streams(es, r)
    ensures var p, t := Responses(parse), Turn("", Assembly("", [], None, None), false);
            Outcome(TakeEvent(p, FoldEvents(p, t, es), Finished(r.close)).asm) == Whole(r)
  {
    var p, t := Responses(parse), Turn("", Assembly("", [], None, None), false);
    var parts := Parts(r.output);
    FoldText(parse, t, es);
    FoldIdle(parse, t, es);
    FoldCalls(parse, t, es);
    FoldSaw(parse, t, es);
    SawIffCalls(es, r);
    SentCalls(Deltas(es), parts);
    assert "" + Texts(es) == Texts(es);
    CloseEvent(parse, FoldEvents(p, t, es), r.close);
  }

  /** The closing event sets finish reason and usage, and leaves text and calls. */
  lemma {:induction false} CloseEvent(parse: string -> Option<Event>, u: Turn<State>, c: Close)
    requires u.asm.finish == None && u.asm.usage == None
    ensures var v := TakeEvent(Responses(parse), u, Finished(c));
            && v.asm.text == u.asm.text && v.asm.calls == u.asm.calls
            && v.asm.finish == MapStatus(c, u.state)
            && v.asm.usage == if c.usage.Some? then Some(UsageOf(c.usage.value)) else None
  {
  }

  /** And that for any chopping of the bytes that carry the payloads of the events, among other lines. */
  lemma {:induction false} BytesEqualWhole(parse: string -> Option<Event>, lines: seq<WireLine>, pieces: seq<string>,
                                           es: seq<Event>, r: Reply)
    requires (forall l | l in lines :: Proper(l)) && Flat(pieces) == Unlines(PrintAll(lines))
    requires Meant(parse, lines) == es + [Finished(r.close)] && Streams(es, r)
    ensures Outcome(FeedPieces(Responses(parse), Turn("", Assembly("", [], None, None), false), pieces).asm) == Whole(r)
  {
    var p, t := Responses(parse), Turn("", Assembly("", [], None, None), false);
    FeedPrinted(p, t, lines, pieces);
    FoldLast(p, t, es, Finished(r.close));
    StreamEqualsWhole(parse, es, r);
  }

  lemma {:induction false} FoldLast(p: Provider<Event, State>, t: Turn<State>, es: seq<Event>, e: Event)
    ensures FoldEvents(p, t, es + [e]) == TakeEvent(p, FoldEvents(p, t, es), e)
    decreases |es|
  {
    if es == [] {
      assert [] + [e] == [e] && [e][1..] == [];
    } else {
      assert (es + [e])[1..] == es[1..] + [e];
      FoldLast(p, TakeEvent(p, t, es[0]), es[1..], e);
    }
  }
}
