/**
  Messages for the Anthropic API: system text apart, runs of tool results merged
  into one user message behind their tool_use message, queued user text after
  them. On a paired history the wire stays paired and in order.
 */
module AnthropicWire {
  import opened Wrappers
  import opened Messages
  import opened Wire

  datatype Block =
    | TextBlock(text: Text)
    | ImageBlock(image: Attachment)
    | ToolUse(id: string, name: string, args: string)
    | ToolResult(id: string, content: Body)

  /** Message or tool_result content; the blocks of a tool_result hold text and images only. */
  datatype Body = Plain(text: Text) | Blocks(blocks: seq<Block>)

  datatype Sent = Sent(role: Role, body: Body)

  /** append_part_blocks: empty text is dropped. */
  function PartBlocks(parts: seq<Part>): seq<Block> {
    if parts == [] then []
    else
      (match parts[0]
       case TextPart(t) => if t == [] then [] else [TextBlock(t)]
       case ImagePart(a) => [ImageBlock(a)])
      + PartBlocks(parts[1..])
  }

  /** convert_content. */
  function ConvertContent(c: Payload): Body {
    match c
    case Absent => Body.Plain([])
    case Str(t) => Body.Plain(t)
    case Parts(ps) => Blocks(PartBlocks(ps))
  }

  /** What append_queued_user adds to a carrier. */
  function QueuedBlocks(c: Payload): seq<Block> {
    match c
    case Absent => []
    case Str(t) => if t == [] then [] else [TextBlock(t)]
    case Parts(ps) => PartBlocks(ps)
  }

  function ResultBlock(m: Message): Block { ToolResult(m.callId, ConvertContent(WireContent(m))) }

  function UseBlocks(calls: seq<ToolCall>): seq<Block> {
    seq(|calls|, i requires 0 <= i < |calls| => ToolUse(calls[i].id, calls[i].name, calls[i].args))
  }

  /** A message that is neither system, nor result, nor merged into a carrier. */
  function Direct(m: Message): Sent {
    if IsHead(m) then
      var c := WireContent(m);
      Sent(m.role, Blocks((if c.Str? && c.text != [] then [TextBlock(c.text)] else []) + UseBlocks(m.calls)))
    else Sent(m.role, ConvertContent(WireContent(m)))
  }

  /** is_tool_result_carrier. */
  predicate IsCarrier(s: Sent) {
    s.role == User && s.body.Blocks? && s.body.blocks != [] && s.body.blocks[0].ToolResult?
  }

  function LastCarries(out: seq<Sent>): bool { out != [] && IsCarrier(out[|out| - 1]) }

  function AppendLast(out: seq<Sent>, blocks: seq<Block>): seq<Sent>
    requires LastCarries(out)
  {
    var last := out[|out| - 1];
    out[|out| - 1 := last.(body := Blocks(last.body.blocks + blocks))]
  }

  /** One turn of the loop of convert_messages. */
  function Step(out: seq<Sent>, m: Message): seq<Sent> {
    if m.role == System then out
    else if m.role == Tool then
      if LastCarries(out) then AppendLast(out, [ResultBlock(m)]) else out + [Sent(User, Blocks([ResultBlock(m)]))]
    else if m.role == User && LastCarries(out) then AppendLast(out, QueuedBlocks(WireContent(m)))
    else out + [Direct(m)]
  }

  function Convert(out: seq<Sent>, h: seq<Message>): seq<Sent>
    decreases |h|
  {
    if h == [] then out else Convert(Step(out, h[0]), h[1..])
  }

  /** append_system_text: texts joined by a blank line; content that is no string adds nothing. */
  function SystemText(have: Option<Text>, c: Payload): Option<Text> {
    if !c.Str? then have
    else if have.None? || have.value == [] then Some(c.text)
    else Some(have.value + Ascii("\n\n") + c.text)
  }

  function Systems(have: Option<Text>, h: seq<Message>): Option<Text>
    decreases |h|
  {
    if h == [] then have
    else Systems(if h[0].role == System then SystemText(have, WireContent(h[0])) else have, h[1..])
  }

  /** convert_messages: the output array grows, and its last message is filled up in place. */
  method ConvertMessages(h: seq<Message>) returns (out: seq<Sent>, system: Option<Text>)
    ensures out == Convert([], h) && system == Systems(None, h)
  {
    out, system := [], None;
    var i := 0;
    assert h[0..] == h;
    while i < |h|
      invariant 0 <= i <= |h|
      invariant Convert(out, h[i..]) == Convert([], h)
      invariant Systems(system, h[i..]) == Systems(None, h)
    {
      ConvertFront(out, h[i..]);
      assert h[i..][1..] == h[i + 1..];
      if h[i].role == System {
        system := AppendSystem(system, WireContent(h[i]));
      } else {
        out := ConvertOne(out, h[i]);
      }
      i := i + 1;
    }
    assert h[i..] == [];
  }

  /** append_system_text. */
  method AppendSystem(have: Option<Text>, content: Payload) returns (system: Option<Text>)
    ensures system == SystemText(have, content)
  {
    system := have;
    if content.Str? {
      var text := if have.Some? then have.value else [];
      var sep := if |text| > 0 then Ascii("\n\n") else [];
      assert text == [] ==> text + sep + content.text == content.text;
      system := Some(text + sep + content.text);
    }
  }

  /** A message that is no system text. */
  method ConvertOne(was: seq<Sent>, m: Message) returns (out: seq<Sent>)
    requires m.role != System
    ensures out == Step(was, m)
  {
    out := was;
    var content := WireContent(m);
    var carrying := |out| > 0 && IsCarrier(out[|out| - 1]);
    if m.role == Tool {
      if !carrying {
        out := out + [Sent(User, Blocks([]))];
      }
      var last := out[|out| - 1];
      out := out[|out| - 1 := last.(body := Blocks(last.body.blocks + [ToolResult(m.callId, ConvertContent(content))]))];
      assert [] + [ResultBlock(m)] == [ResultBlock(m)];
    } else if m.role == User && carrying {
      var last := out[|out| - 1];
      out := out[|out| - 1 := last.(body := Blocks(last.body.blocks + QueuedBlocks(content)))];
    } else {
      out := out + [Direct(m)];
    }
  }

  // ------------------------------------------------ what a paired history becomes

  /** Length of the prompts (and system notes) right behind a run of results. */
  function NoteLen(h: seq<Message>): (n: nat)
    ensures n <= |h|
  {
    if h == [] || (h[0].role != User && h[0].role != System) then 0 else 1 + NoteLen(h[1..])
  }

  function ResultBlocks(run: seq<Message>): seq<Block> {
    seq(|run|, i requires 0 <= i < |run| => ResultBlock(run[i]))
  }

  function NoteQueued(note: Message): seq<Block> {
    if note.role == User then QueuedBlocks(WireContent(note)) else []
  }

  function NoteBlocks(notes: seq<Message>): seq<Block> {
    if notes == [] then []
    else NoteQueued(notes[0]) + NoteBlocks(notes[1..])
  }

  function Carrier(run: seq<Message>, notes: seq<Message>): Sent {
    Sent(User, Blocks(ResultBlocks(run) + NoteBlocks(notes)))
  }

  /** What the first exchange and its notes become. */
  ghost function FirstPair(h: seq<Message>): seq<Sent>
    requires h != []
  {
    var e := 1 + RunLen(h[1..]);
    var n := NoteLen(h[e..]);
    [Direct(h[0]), Carrier(h[1..e], h[e..e + n])]
  }

  /** What follows them. */
  ghost function AfterFirst(h: seq<Message>): (rest: seq<Message>)
    requires h != []
    ensures |rest| < |h|
  {
    var e := 1 + RunLen(h[1..]);
    h[e + NoteLen(h[e..])..]
  }

  /** Exchange by exchange: a tool_use message, then one carrier; everything else one to one. */
  ghost function Grouped(h: seq<Message>): seq<Sent>
    decreases |h|
  {
    if h == [] then []
    else if h[0].role == System then Grouped(h[1..])
    else if IsHead(h[0]) then FirstPair(h) + Grouped(AfterFirst(h))
    else [Direct(h[0])] + Grouped(h[1..])
  }

  lemma {:induction false} ConvertFront(out: seq<Sent>, h: seq<Message>)
    requires h != []
    ensures Convert(out, h) == Convert(Step(out, h[0]), h[1..])
  {
  }

  lemma {:induction false} ConvertConcat(out: seq<Sent>, a: seq<Message>, b: seq<Message>)
    ensures Convert(out, a + b) == Convert(Convert(out, a), b)
    decreases |a|
  {
    if a == [] {
      assert a + b == b;
    } else {
      assert (a + b)[1..] == a[1..] + b;
      ConvertConcat(Step(out, a[0]), a[1..], b);
    }
  }

  /** A run behind a carrier lands in it, in order. */
  lemma {:induction false} ConvertRun(out: seq<Sent>, had: seq<Block>, run: seq<Message>)
    requires AllTools(run) && had != [] && had[0].ToolResult?
    ensures Convert(out + [Sent(User, Blocks(had))], run) == out + [Sent(User, Blocks(had + ResultBlocks(run)))]
    decreases |run|
  {
    if run == [] {
      assert had + ResultBlocks(run) == had;
    } else {
      var b := had + [ResultBlock(run[0])];
      assert Step(out + [Sent(User, Blocks(had))], run[0]) == out + [Sent(User, Blocks(b))];
      ConvertRun(out, b, run[1..]);
      assert b + ResultBlocks(run[1..]) == had + ResultBlocks(run);
    }
  }

  /** So do the notes behind the run. */
  lemma {:induction false} ConvertNotes(out: seq<Sent>, had: seq<Block>, notes: seq<Message>)
    requires forall i | 0 <= i < |notes| :: notes[i].role == User || notes[i].role == System
    requires had != [] && had[0].ToolResult?
    ensures Convert(out + [Sent(User, Blocks(had))], notes) == out + [Sent(User, Blocks(had + NoteBlocks(notes)))]
    decreases |notes|
  {
    if notes == [] {
      assert had + NoteBlocks(notes) == had;
    } else {
      var q := NoteQueued(notes[0]);
      StepNote(out, had, notes[0]);
      ConvertFront(out + [Sent(User, Blocks(had))], notes);
      ConvertNotes(out, had + q, notes[1..]);
      Assoc(had, q, NoteBlocks(notes[1..]));
    }
  }

  lemma {:induction false} StepNote(out: seq<Sent>, had: seq<Block>, note: Message)
    requires note.role == User || note.role == System
    requires had != [] && had[0].ToolResult?
    ensures Step(out + [Sent(User, Blocks(had))], note) == out + [Sent(User, Blocks(had + NoteQueued(note)))]
  {
    assert had + [] == had;
  }

  lemma {:induction false} NoteLenSpec(h: seq<Message>)
    ensures forall i | 0 <= i < NoteLen(h) :: h[i].role == User || h[i].role == System
    ensures NoteLen(h) < |h| ==> h[NoteLen(h)].role != User && h[NoteLen(h)].role != System
  {
    if h != [] && (h[0].role == User || h[0].role == System) { NoteLenSpec(h[1..]); }
  }

  lemma {:induction false} DirectIsNoCarrier(m: Message)
    ensures !IsCarrier(Direct(m))
  {
    if m.role == User { NoResultInParts(WireContent(m)); }
  }

  lemma {:induction false} NoResultInParts(c: Payload)
    ensures ConvertContent(c).Blocks? ==> forall b | b in ConvertContent(c).blocks :: !b.ToolResult? && !b.ToolUse?
    ensures forall b | b in QueuedBlocks(c) :: !b.ToolResult? && !b.ToolUse?
  {
    if c.Parts? { PartBlocksPlain(c.parts); }
  }

  lemma {:induction false} PartBlocksPlain(parts: seq<Part>)
    ensures forall b | b in PartBlocks(parts) :: !b.ToolResult? && !b.ToolUse?
  {
    if parts != [] { PartBlocksPlain(parts[1..]); }
  }

  /** Notes behind an exchange can be dropped: what is left is paired and opens with the assistant. */
  lemma {:induction false} NotesOff(h: seq<Message>)
    requires Paired(h)
    ensures Paired(h[NoteLen(h)..]) && (NoteLen(h) < |h| ==> h[NoteLen(h)].role == Assistant)
  {
    if h != [] && (h[0].role == User || h[0].role == System) {
      NotesOff(h[1..]);
      assert h[1..][NoteLen(h[1..])..] == h[NoteLen(h)..];
    } else {
      assert h[0..] == h;
    }
  }

  /** One exchange and its notes. */
  lemma {:induction false} ConvertExchange(out: seq<Sent>, head: Message, run: seq<Message>, notes: seq<Message>)
    requires IsHead(head) && AllTools(run) && run != []
    requires forall i | 0 <= i < |notes| :: notes[i].role == User || notes[i].role == System
    ensures Convert(out, [head] + run + notes) == out + [Direct(head), Carrier(run, notes)]
  {
    var o1 := out + [Direct(head)];
    assert ([head] + run + notes)[1..] == run + notes;
    assert Convert(out, [head] + run + notes) == Convert(o1, run + notes);
    ConvertConcat(o1, run, notes);
    var first := [ResultBlock(run[0])];
    assert Step(o1, run[0]) == o1 + [Sent(User, Blocks(first))];
    ConvertRun(o1, first, run[1..]);
    assert first + ResultBlocks(run[1..]) == ResultBlocks(run);
    ConvertNotes(o1, ResultBlocks(run), notes);
    assert o1 + [Carrier(run, notes)] == out + [Direct(head), Carrier(run, notes)];
  }

  /** The conversion of a paired history, exchange by exchange. */
  lemma {:induction false} ConvertPaired(out: seq<Sent>, h: seq<Message>)
    requires Paired(h)
    requires LastCarries(out) && h != [] ==> h[0].role == Assistant
    ensures Convert(out, h) == out + Grouped(h)
    decreases |h|
  {
    if h == [] {
    } else if h[0].role == System {
      ConvertPaired(out, h[1..]);
    } else if IsHead(h[0]) {
      FirstExchange(out, h);
      ConvertPaired(out + FirstPair(h), AfterFirst(h));
      Assoc(out, FirstPair(h), Grouped(AfterFirst(h)));
    } else {
      StepDirect(out, h[0]);
      ConvertPaired(out + [Direct(h[0])], h[1..]);
      Assoc(out, [Direct(h[0])], Grouped(h[1..]));
    }
  }

  lemma {:induction false} FirstExchange(out: seq<Sent>, h: seq<Message>)
    requires Paired(h) && h != [] && IsHead(h[0])
    ensures Convert(out, h) == Convert(out + FirstPair(h), AfterFirst(h))
    ensures Paired(AfterFirst(h)) && (AfterFirst(h) != [] ==> AfterFirst(h)[0].role == Assistant)
  {
    HeadIsAnswered(h);
    var e := 1 + RunLen(h[1..]);
    var n := NoteLen(h[e..]);
    NoteLenSpec(h[e..]);
    NotesOff(h[e..]);
    ExchangeSlices(h, e, n);
    ConvertExchange(out, h[0], h[1..e], h[e..e + n]);
    ConvertConcat(out, [h[0]] + h[1..e] + h[e..e + n], h[e + n..]);
  }

  lemma {:induction false} StepDirect(out: seq<Sent>, m: Message)
    requires m.role == Assistant || (m.role == User && !LastCarries(out))
    ensures Step(out, m) == out + [Direct(m)] && !LastCarries(out + [Direct(m)])
  {
    DirectIsNoCarrier(m);
  }

  lemma {:induction false} Assoc<T>(a: seq<T>, b: seq<T>, c: seq<T>)
    ensures a + b + c == a + (b + c)
  {
  }

  lemma {:induction false} ExchangeSlices<T>(h: seq<T>, e: nat, n: nat)
    requires 1 <= e && e + n <= |h|
    ensures h == [h[0]] + h[1..e] + h[e..e + n] + h[e + n..]
    ensures h[e..][n..] == h[e + n..] && h[e..][..n] == h[e..e + n]
    ensures forall i | 0 <= i < n :: h[e..e + n][i] == h[e..][i]
    ensures n < |h[e..]| ==> h[e..][n] == h[e + n..][0]
  {
  }

  // ------------------------------------------------ pairing on the wire

  function UseIds(blocks: seq<Block>): multiset<string> {
    if blocks == [] then multiset{}
    else (if blocks[0].ToolUse? then multiset{blocks[0].id} else multiset{}) + UseIds(blocks[1..])
  }

  /** The ids of the tool_results blocks starts with. */
  function LeadIds(blocks: seq<Block>): multiset<string> {
    if blocks == [] || !blocks[0].ToolResult? then multiset{} else multiset{blocks[0].id} + LeadIds(blocks[1..])
  }

  /** blocks is its leading tool_results, then text and images only. */
  predicate ResultsFirst(blocks: seq<Block>) {
    if blocks != [] && blocks[0].ToolResult? then ResultsFirst(blocks[1..])
    else forall b | b in blocks :: !b.ToolResult? && !b.ToolUse?
  }

  predicate NoResults(s: Sent) { s.body.Blocks? ==> forall b | b in s.body.blocks :: !b.ToolResult? }

  predicate Uses(s: Sent) { s.body.Blocks? && UseIds(s.body.blocks) != multiset{} }

  /**
    What the API demands: a message with tool_use blocks is followed directly by
    one user message that begins with exactly their tool_results, in any order,
    and tool_results appear nowhere else.
   */
  ghost predicate WirePaired(w: seq<Sent>)
    decreases |w|
  {
    w == [] ||
    (NoResults(w[0]) &&
     if Uses(w[0]) then
       && |w| >= 2 && w[0].role == Assistant
       && w[1].role == User && w[1].body.Blocks? && ResultsFirst(w[1].body.blocks)
       && LeadIds(w[1].body.blocks) == UseIds(w[0].body.blocks)
       && WirePaired(w[2..])
     else WirePaired(w[1..]))
  }

  lemma {:induction false} UseIdsOfCalls(calls: seq<ToolCall>)
    ensures UseIds(UseBlocks(calls)) == IdsOf(calls)
  {
    if calls != [] {
      UseIdsOfCalls(calls[1..]);
      assert UseBlocks(calls)[1..] == UseBlocks(calls[1..]);
    }
  }

  lemma {:induction false} DirectUses(m: Message)
    ensures NoResults(Direct(m))
    ensures IsHead(m) ==> Direct(m).body.Blocks? && UseIds(Direct(m).body.blocks) == IdsOf(m.calls)
    ensures Uses(Direct(m)) <==> IsHead(m)
  {
    if IsHead(m) {
      var c := WireContent(m);
      UseIdsOfCalls(m.calls);
      if c.Str? && c.text != [] {
        assert ([TextBlock(c.text)] + UseBlocks(m.calls))[1..] == UseBlocks(m.calls);
      } else {
        assert [] + UseBlocks(m.calls) == UseBlocks(m.calls);
      }
      assert m.calls[0].id in IdsOf(m.calls);
    } else {
      NoResultInParts(WireContent(m));
      var b := ConvertContent(WireContent(m));
      if b.Blocks? { NoUses(b.blocks); }
    }
  }

  lemma {:induction false} NoUses(blocks: seq<Block>)
    requires forall b | b in blocks :: !b.ToolUse?
    ensures UseIds(blocks) == multiset{}
  {
    if blocks != [] { NoUses(blocks[1..]); }
  }

  lemma {:induction false} NoteBlocksPlain(notes: seq<Message>)
    ensures forall b | b in NoteBlocks(notes) :: !b.ToolResult? && !b.ToolUse?
  {
    if notes != [] {
      NoResultInParts(WireContent(notes[0]));
      NoteBlocksPlain(notes[1..]);
    }
  }

  lemma {:induction false} CarrierLeads(run: seq<Message>, tail: seq<Block>)
    requires AllTools(run) && forall b | b in tail :: !b.ToolResult? && !b.ToolUse?
    ensures ResultsFirst(ResultBlocks(run) + tail)
    ensures LeadIds(ResultBlocks(run) + tail) == ResultIds(run)
  {
    if run == [] {
      assert ResultBlocks(run) + tail == tail;
    } else {
      assert (ResultBlocks(run) + tail)[1..] == ResultBlocks(run[1..]) + tail;
      CarrierLeads(run[1..], tail);
    }
  }

  /** A tool_use message and the carrier that answers it. */
  ghost predicate Answers(a: Sent, b: Sent) {
    && NoResults(a) && a.body.Blocks? && a.role == Assistant
    && b.role == User && b.body.Blocks? && ResultsFirst(b.body.blocks)
    && LeadIds(b.body.blocks) == UseIds(a.body.blocks)
  }

  lemma {:induction false} FirstPairWired(h: seq<Message>)
    requires Paired(h) && h != [] && IsHead(h[0])
    ensures Answers(FirstPair(h)[0], FirstPair(h)[1]) && Uses(FirstPair(h)[0]) && Paired(AfterFirst(h))
  {
    HeadIsAnswered(h);
    var e := 1 + RunLen(h[1..]);
    var n := NoteLen(h[e..]);
    NotesOff(h[e..]);
    ExchangeSlices(h, e, n);
    DirectUses(h[0]);
    NoteBlocksPlain(h[e..e + n]);
    CarrierLeads(h[1..e], NoteBlocks(h[e..e + n]));
  }

  lemma {:induction false} PairInFront(pair: seq<Sent>, rest: seq<Sent>)
    requires |pair| == 2 && Answers(pair[0], pair[1]) && Uses(pair[0]) && WirePaired(rest)
    ensures WirePaired(pair + rest)
  {
    assert (pair + rest)[2..] == rest;
  }

  lemma {:induction false} PlainInFront(s: Sent, rest: seq<Sent>)
    requires NoResults(s) && !Uses(s) && WirePaired(rest)
    ensures WirePaired([s] + rest)
  {
    assert ([s] + rest)[1..] == rest;
  }

  /** Converting a paired history keeps pairing on the wire. */
  lemma {:induction false} GroupedIsPaired(h: seq<Message>)
    requires Paired(h)
    ensures WirePaired(Grouped(h))
    decreases |h|
  {
    if h == [] {
    } else if h[0].role == System {
      GroupedIsPaired(h[1..]);
    } else if IsHead(h[0]) {
      FirstPairWired(h);
      GroupedIsPaired(AfterFirst(h));
      PairInFront(FirstPair(h), Grouped(AfterFirst(h)));
    } else {
      DirectUses(h[0]);
      GroupedIsPaired(h[1..]);
      PlainInFront(Direct(h[0]), Grouped(h[1..]));
    }
  }

  /** The whole conversion: what convert_messages builds from a paired history. */
  lemma {:induction false} ConversionKeepsPairing(h: seq<Message>)
    requires Paired(h)
    ensures Convert([], h) == Grouped(h) && WirePaired(Convert([], h))
  {
    ConvertPaired([], h);
    GroupedIsPaired(h);
    assert [] + Grouped(h) == Grouped(h);
  }
}
