/**
  Nothing of a conversation is lost on its way to the Anthropic API: texts, images,
  calls and results are all sent, each once and in order.
 */
module AnthropicContent {
  import opened Wrappers
  import opened Messages
  import opened Wire
  import opened AnthropicWire

  /** What can be read: texts and images outside results, and by whom; the calls; the results with what they hold. */
  datatype Content = Content(atoms: seq<(Role, Atom)>, calls: seq<ToolCall>, results: seq<(string, seq<Atom>)>) {
    function Then(next: Content): Content {
      Content(atoms + next.atoms, calls + next.calls, results + next.results)
    }
  }

  const NOTHING := Content([], [], [])

  lemma {:induction false} ThenAssoc(a: Content, b: Content, c: Content)
    ensures a.Then(b).Then(c) == a.Then(b.Then(c))
    ensures a.Then(NOTHING) == a == NOTHING.Then(a)
  {
    assert a.atoms + b.atoms + c.atoms == a.atoms + (b.atoms + c.atoms);
    assert a.calls + b.calls + c.calls == a.calls + (b.calls + c.calls);
    assert a.results + b.results + c.results == a.results + (b.results + c.results);
  }

  function By(role: Role, atoms: seq<Atom>): seq<(Role, Atom)> {
    seq(|atoms|, i requires 0 <= i < |atoms| => (role, atoms[i]))
  }

  lemma {:induction false} ByConcat(role: Role, a: seq<Atom>, b: seq<Atom>)
    ensures By(role, a + b) == By(role, a) + By(role, b)
  {
  }

  // ------------------------------------------------------ in stored messages

  /** Of a call message with attachments the code sends the calls only; the engine makes none. */
  function OfMessage(m: Message): Content {
    match m.role
    case System => NOTHING
    case Tool => Content([], [], [(m.callId, Stuff(m))])
    case _ =>
      if IsHead(m) then Content(if m.attachments == [] then By(Assistant, Stuff(m)) else [], m.calls, [])
      else Content(By(m.role, Stuff(m)), [], [])
  }

  function OfHistory(h: seq<Message>): Content {
    if h == [] then NOTHING else OfMessage(h[0]).Then(OfHistory(h[1..]))
  }

  // ------------------------------------------------------------- on the wire

  /** Texts and images among blocks. */
  function ReadAtoms(blocks: seq<Block>): seq<Atom> {
    if blocks == [] then []
    else
      (match blocks[0]
       case TextBlock(t) => ReadText(t)
       case ImageBlock(a) => [Shows(a)]
       case _ => [])
      + ReadAtoms(blocks[1..])
  }

  function ReadBody(b: Body): seq<Atom> {
    match b
    case Plain(t) => ReadText(t)
    case Blocks(bs) => ReadAtoms(bs)
  }

  function ReadBlock(role: Role, b: Block): Content {
    match b
    case TextBlock(t) => Content(By(role, ReadText(t)), [], [])
    case ImageBlock(a) => Content([(role, Shows(a))], [], [])
    case ToolUse(id, name, args) => Content([], [ToolCall(id, name, args)], [])
    case ToolResult(id, body) => Content([], [], [(id, ReadBody(body))])
  }

  function ReadBlocks(role: Role, blocks: seq<Block>): Content {
    if blocks == [] then NOTHING else ReadBlock(role, blocks[0]).Then(ReadBlocks(role, blocks[1..]))
  }

  function ReadSent(s: Sent): Content {
    match s.body
    case Plain(t) => Content(By(s.role, ReadText(t)), [], [])
    case Blocks(bs) => ReadBlocks(s.role, bs)
  }

  function ReadAll(out: seq<Sent>): Content {
    if out == [] then NOTHING else ReadSent(out[0]).Then(ReadAll(out[1..]))
  }

  // ------------------------------------------------------------------ proofs

  lemma {:induction false} ReadBlocksConcat(role: Role, a: seq<Block>, b: seq<Block>)
    ensures ReadBlocks(role, a + b) == ReadBlocks(role, a).Then(ReadBlocks(role, b))
    decreases |a|
  {
    if a == [] {
      assert a + b == b;
      ThenAssoc(ReadBlocks(role, b), NOTHING, NOTHING);
    } else {
      assert (a + b)[1..] == a[1..] + b;
      ReadBlocksConcat(role, a[1..], b);
      ThenAssoc(ReadBlock(role, a[0]), ReadBlocks(role, a[1..]), ReadBlocks(role, b));
    }
  }

  lemma {:induction false} ReadAllConcat(a: seq<Sent>, b: seq<Sent>)
    ensures ReadAll(a + b) == ReadAll(a).Then(ReadAll(b))
    decreases |a|
  {
    if a == [] {
      assert a + b == b;
      ThenAssoc(ReadAll(b), NOTHING, NOTHING);
    } else {
      assert (a + b)[1..] == a[1..] + b;
      ReadAllConcat(a[1..], b);
      ThenAssoc(ReadSent(a[0]), ReadAll(a[1..]), ReadAll(b));
    }
  }

  lemma {:induction false} ReadOne(s: Sent)
    ensures ReadAll([s]) == ReadSent(s)
  {
    assert [s][1..] == [];
    ThenAssoc(ReadSent(s), NOTHING, NOTHING);
  }

  lemma {:induction false} ReadOneBlock(role: Role, b: Block)
    ensures ReadBlocks(role, [b]) == ReadBlock(role, b)
  {
    assert [b][1..] == [];
    ThenAssoc(ReadBlock(role, b), NOTHING, NOTHING);
  }

  /** What is put behind the last message's blocks is read behind everything. */
  lemma {:induction false} ReadAppended(out: seq<Sent>, blocks: seq<Block>)
    requires LastCarries(out)
    ensures ReadAll(AppendLast(out, blocks)) == ReadAll(out).Then(ReadBlocks(User, blocks))
  {
    var n := |out| - 1;
    var last := out[n];
    var grown := last.(body := Blocks(last.body.blocks + blocks));
    LastApart(out, grown);
    ReadAllConcat(out[..n], [last]);
    ReadAllConcat(out[..n], [grown]);
    ReadOne(last);
    ReadOne(grown);
    ReadBlocksConcat(User, last.body.blocks, blocks);
    ThenAssoc(ReadAll(out[..n]), ReadSent(last), ReadBlocks(User, blocks));
  }

  lemma {:induction false} LastApart<T>(out: seq<T>, x: T)
    requires out != []
    ensures out == out[..|out| - 1] + [out[|out| - 1]] && out[|out| - 1 := x] == out[..|out| - 1] + [x]
  {
  }

  /** Blocks made of parts hold what the parts do. */
  lemma {:induction false} ReadPartBlocks(role: Role, t: Text, images: seq<Attachment>)
    ensures var ps := (if t == [] then [] else [TextPart(t)]) + ImageParts(images);
            && ReadBlocks(role, PartBlocks(ps)) == Content(By(role, ReadText(t) + Shown(images)), [], [])
            && ReadAtoms(PartBlocks(ps)) == ReadText(t) + Shown(images)
  {
    ReadImages(role, images);
    ByConcat(role, ReadText(t), Shown(images));
    if t == [] {
      assert [] + ImageParts(images) == ImageParts(images) && [] + Shown(images) == Shown(images);
    } else {
      var ps := [TextPart(t)] + ImageParts(images);
      assert ps[1..] == ImageParts(images);
      var rest := PartBlocks(ImageParts(images));
      assert PartBlocks(ps) == [TextBlock(t)] + rest && ([TextBlock(t)] + rest)[1..] == rest;
    }
  }

  lemma {:induction false} ReadImages(role: Role, images: seq<Attachment>)
    ensures ReadBlocks(role, PartBlocks(ImageParts(images))) == Content(By(role, Shown(images)), [], [])
    ensures ReadAtoms(PartBlocks(ImageParts(images))) == Shown(images)
    decreases |images|
  {
    if images != [] {
      ReadImages(role, images[1..]);
      assert ImageParts(images)[1..] == ImageParts(images[1..]);
      var rest := PartBlocks(ImageParts(images[1..]));
      assert PartBlocks(ImageParts(images)) == [ImageBlock(images[0])] + rest;
      assert ([ImageBlock(images[0])] + rest)[1..] == rest;
      ByConcat(role, [Shows(images[0])], Shown(images[1..]));
      assert By(role, [Shows(images[0])]) == [(role, Shows(images[0]))];
    }
  }

  /** A message's content, converted, holds what is stored. */
  lemma {:induction false} ReadContent(m: Message)
    ensures ReadBody(ConvertContent(WireContent(m))) == Stuff(m)
    ensures ReadBlocks(m.role, QueuedBlocks(WireContent(m))) == Content(By(m.role, Stuff(m)), [], [])
    ensures ReadSent(Sent(m.role, ConvertContent(WireContent(m)))) == Content(By(m.role, Stuff(m)), [], [])
  {
    var t := if m.content.Null? then [] else m.content.bytes;
    assert ReadText(t) + [] == ReadText(t);
    if m.attachments == [] { ReadOneBlock(m.role, TextBlock(t)); } else { ReadPartBlocks(m.role, t, m.attachments); }
  }

  lemma {:induction false} ReadUses(role: Role, calls: seq<ToolCall>)
    ensures ReadBlocks(role, UseBlocks(calls)) == Content([], calls, [])
    decreases |calls|
  {
    if calls != [] {
      ReadUses(role, calls[1..]);
      assert UseBlocks(calls)[1..] == UseBlocks(calls[1..]);
      FirstAndRest(calls);
    }
  }

  lemma {:induction false} FirstAndRest(calls: seq<ToolCall>)
    requires calls != []
    ensures calls == [ToolCall(calls[0].id, calls[0].name, calls[0].args)] + calls[1..]
  {
  }

  /** The text in front of the calls, if it is sent. */
  function Lead(m: Message): seq<Block> {
    var c := WireContent(m);
    if c.Str? && c.text != [] then [TextBlock(c.text)] else []
  }

  lemma {:induction false} ReadLead(m: Message)
    requires m.role == Assistant
    ensures ReadBlocks(Assistant, Lead(m)) == Content(if m.attachments == [] then By(Assistant, Stuff(m)) else [], [], [])
  {
    var c := WireContent(m);
    if Lead(m) != [] {
      ReadOneBlock(Assistant, TextBlock(c.text));
      assert ReadText(c.text) + Shown([]) == ReadText(c.text);
    }
  }

  lemma {:induction false} ReadHead(m: Message)
    requires IsHead(m)
    ensures ReadSent(Direct(m)) == OfMessage(m)
  {
    ReadLead(m);
    ReadUses(Assistant, m.calls);
    ReadBlocksConcat(Assistant, Lead(m), UseBlocks(m.calls));
    assert [] + m.calls == m.calls;
  }

  /** One turn of the loop adds what the message holds, behind the rest. */
  lemma {:induction false} StepReads(out: seq<Sent>, m: Message)
    ensures ReadAll(Step(out, m)) == ReadAll(out).Then(OfMessage(m))
  {
    if m.role == System {
      ThenAssoc(ReadAll(out), NOTHING, NOTHING);
    } else if m.role == Tool {
      ReadResult(out, m);
    } else if m.role == User && LastCarries(out) {
      ReadContent(m);
      ReadAppended(out, QueuedBlocks(WireContent(m)));
    } else {
      if IsHead(m) { ReadHead(m); } else { ReadContent(m); }
      ReadAllConcat(out, [Direct(m)]);
      ReadOne(Direct(m));
    }
  }

  lemma {:induction false} ReadResult(out: seq<Sent>, m: Message)
    requires m.role == Tool
    ensures ReadAll(Step(out, m)) == ReadAll(out).Then(OfMessage(m))
  {
    ReadContent(m);
    ReadOneBlock(User, ResultBlock(m));
    if LastCarries(out) {
      ReadAppended(out, [ResultBlock(m)]);
    } else {
      ReadAllConcat(out, [Sent(User, Blocks([ResultBlock(m)]))]);
      ReadOne(Sent(User, Blocks([ResultBlock(m)])));
    }
  }

  lemma {:induction false} ConvertReads(out: seq<Sent>, h: seq<Message>)
    ensures ReadAll(Convert(out, h)) == ReadAll(out).Then(OfHistory(h))
    decreases |h|
  {
    if h == [] {
      ThenAssoc(ReadAll(out), NOTHING, NOTHING);
    } else {
      StepReads(out, h[0]);
      ConvertReads(Step(out, h[0]), h[1..]);
      ThenAssoc(ReadAll(out), OfMessage(h[0]), OfHistory(h[1..]));
    }
  }

  /**
    For any history: read in order, the request holds the texts and images of its
    messages, its calls, and its results with their texts and images, each once.
   */
  lemma {:induction false} NothingIsLost(h: seq<Message>)
    ensures ReadAll(Convert([], h)) == OfHistory(h)
  {
    ConvertReads([], h);
    ThenAssoc(OfHistory(h), NOTHING, NOTHING);
  }

  // ------------------------------------------------------------ system texts

  /** The texts of the system messages; one with attachments is none the code takes. */
  function SystemTexts(h: seq<Message>): seq<Text> {
    if h == [] then []
    else
      (if h[0].role == System && h[0].attachments == [] && !h[0].content.Null? then [h[0].content.bytes] else [])
      + SystemTexts(h[1..])
  }

  /** Texts with a blank line between each two. */
  function Spaced(ts: seq<Text>): Text
    requires ts != []
  {
    if |ts| == 1 then ts[0] else Spaced(ts[..|ts| - 1]) + Ascii("\n\n") + ts[|ts| - 1]
  }

  lemma {:induction false} SpacedSnoc(ts: seq<Text>, t: Text)
    ensures Spaced(ts + [t]) == if ts == [] then t else Spaced(ts) + Ascii("\n\n") + t
  {
    assert (ts + [t])[..|ts|] == ts;
  }

  lemma {:induction false} SpacedNotEmpty(ts: seq<Text>)
    requires ts != [] && ts[0] != []
    ensures Spaced(ts) != []
  {
    if |ts| > 1 { SpacedNotEmpty(ts[..|ts| - 1]); }
  }

  lemma {:induction false} SystemsApart(have: seq<Text>, h: seq<Message>)
    requires h != []
    ensures
      var own := if h[0].role == System && h[0].attachments == [] && !h[0].content.Null? then [h[0].content.bytes] else [];
      have + own + SystemTexts(h[1..]) == have + SystemTexts(h)
  {
  }

  /** The system prompt is all system texts, with a blank line between each two. */
  lemma {:induction false} SystemsFrom(have: seq<Text>, h: seq<Message>)
    requires forall t | t in have + SystemTexts(h) :: t != []
    ensures Systems(if have == [] then None else Some(Spaced(have)), h) ==
            if have + SystemTexts(h) == [] then None else Some(Spaced(have + SystemTexts(h)))
    decreases |h|
  {
    if h == [] {
      assert have + SystemTexts(h) == have;
    } else {
      var own := if h[0].role == System && h[0].attachments == [] && !h[0].content.Null? then [h[0].content.bytes] else [];
      SystemsApart(have, h);
      SystemsFrom(have + own, h[1..]);
      if own == [] {
        assert have + own == have;
      } else {
        SpacedSnoc(have, own[0]);
        if have != [] {
          assert have[0] in have + SystemTexts(h);
          SpacedNotEmpty(have);
        }
      }
    }
  }

  lemma {:induction false} SystemPromptIsWhole(h: seq<Message>)
    requires forall t | t in SystemTexts(h) :: t != []
    ensures Systems(None, h) == if SystemTexts(h) == [] then None else Some(Spaced(SystemTexts(h)))
  {
    assert [] + SystemTexts(h) == SystemTexts(h);
    SystemsFrom([], h);
  }
}
