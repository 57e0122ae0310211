/**
  Assembling a streamed reply: bytes into lines, lines into events, events into
  canonical chunks, chunks into text, tool calls, finish reason and usage.
 */
module Stream {
  import opened Wrappers
  import opened Messages

  datatype Usage = Usage(prompt: nat, completion: nat, total: nat, cacheRead: nat, cacheWrite: nat)

  /** One tool_calls entry of a chunk; a missing index means its position. */
  datatype ToolDelta = ToolDelta(index: Option<int>, id: Option<string>, name: Option<string>, args: Option<string>)

  /** A canonical chunk. choice: it has a first choice; without one only usage counts. */
  datatype Chunk = Chunk(
    usage: Option<Usage>, choice: bool, finish: Option<string>, error: Option<string>,
    text: Option<string>, tools: seq<ToolDelta>)

  /** One tool call under assembly. */
  datatype Slot = Slot(id: Option<string>, name: Option<string>, args: Option<string>)

  const EMPTY := Slot(None, None, None)

  datatype Assembly = Assembly(text: string, calls: seq<Slot>, finish: Option<string>, usage: Option<Usage>)

  // ------------------------------------------------------------- tool calls

  function First(have: Option<string>, got: Option<string>): Option<string> {
    if have.None? then got else have
  }

  function Append(have: Option<string>, got: Option<string>): Option<string> {
    if got.None? then have
    else if have.None? then got
    else Some(have.value + got.value)
  }

  /** A delta for one call: the first id and name stay, arguments grow. */
  function Merge(s: Slot, d: ToolDelta): Slot {
    Slot(First(s.id, d.id), First(s.name, d.name), Append(s.args, d.args))
  }

  /** stream_get_call: make sure slot k is there. */
  function Grow(calls: seq<Slot>, k: nat): (r: seq<Slot>)
    ensures |r| == if k < |calls| then |calls| else k + 1
    ensures forall j | 0 <= j < |r| :: r[j] == if j < |calls| then calls[j] else EMPTY
  {
    if k < |calls| then calls else calls + seq(k + 1 - |calls|, i => EMPTY)
  }

  function MergeAt(calls: seq<Slot>, k: nat, d: ToolDelta): seq<Slot> {
    var g := Grow(calls, k);
    g[k := Merge(g[k], d)]
  }

  /** Where entry i of a chunk goes. */
  function IndexOf(d: ToolDelta, i: nat): int { if d.index.Some? then d.index.value else i }

  /** stream_merge_tool_calls, from entry i on. */
  function MergeFrom(calls: seq<Slot>, ds: seq<ToolDelta>, i: nat): seq<Slot>
    requires i <= |ds|
    decreases |ds| - i
  {
    if i == |ds| then calls
    else if IndexOf(ds[i], i) < 0 then MergeFrom(calls, ds, i + 1)
    else MergeFrom(MergeAt(calls, IndexOf(ds[i], i), ds[i]), ds, i + 1)
  }

  /** The entries of a chunk with the place each one goes to. */
  function Placed(ds: seq<ToolDelta>, i: nat): seq<(nat, ToolDelta)>
    requires i <= |ds|
    decreases |ds| - i
  {
    if i == |ds| then []
    else (if IndexOf(ds[i], i) < 0 then [] else [(IndexOf(ds[i], i) as nat, ds[i])]) + Placed(ds, i + 1)
  }

  function MergeAll(calls: seq<Slot>, ps: seq<(nat, ToolDelta)>): seq<Slot>
    decreases |ps|
  {
    if ps == [] then calls else MergeAll(MergeAt(calls, ps[0].0, ps[0].1), ps[1..])
  }

  /** What the deltas for call k make of its slot, read on their own. */
  function SlotOf(s: Slot, ps: seq<(nat, ToolDelta)>, k: nat): Slot
    decreases |ps|
  {
    if ps == [] then s
    else SlotOf(if ps[0].0 == k then Merge(s, ps[0].1) else s, ps[1..], k)
  }

  /** The deltas for call k, in order. */
  function Only(ps: seq<(nat, ToolDelta)>, k: nat): seq<ToolDelta>
    decreases |ps|
  {
    if ps == [] then [] else (if ps[0].0 == k then [ps[0].1] else []) + Only(ps[1..], k)
  }

  /** One more than the highest index used. */
  function Width(ps: seq<(nat, ToolDelta)>): nat
    decreases |ps|
  {
    if ps == [] then 0 else var w := Width(ps[1..]); if ps[0].0 + 1 > w then ps[0].0 + 1 else w
  }

  lemma {:induction false} MergeFromPlaced(calls: seq<Slot>, ds: seq<ToolDelta>, i: nat)
    requires i <= |ds|
    ensures MergeFrom(calls, ds, i) == MergeAll(calls, Placed(ds, i))
    decreases |ds| - i
  {
    if i < |ds| {
      var k := IndexOf(ds[i], i);
      if k < 0 {
        MergeFromPlaced(calls, ds, i + 1);
        assert Placed(ds, i) == Placed(ds, i + 1);
      } else {
        MergeFromPlaced(MergeAt(calls, k, ds[i]), ds, i + 1);
        assert Placed(ds, i)[1..] == Placed(ds, i + 1);
      }
    }
  }

  lemma {:induction false} MergeAllConcat(calls: seq<Slot>, a: seq<(nat, ToolDelta)>, b: seq<(nat, ToolDelta)>)
    ensures MergeAll(calls, a + b) == MergeAll(MergeAll(calls, a), b)
    decreases |a|
  {
    if a == [] {
      assert a + b == b;
    } else {
      assert (a + b)[1..] == a[1..] + b;
      MergeAllConcat(MergeAt(calls, a[0].0, a[0].1), a[1..], b);
    }
  }

  /** Each slot depends on its own deltas only; the others could come in any order between. */
  lemma {:induction false} MergeAllSlots(calls: seq<Slot>, ps: seq<(nat, ToolDelta)>)
    ensures |MergeAll(calls, ps)| == if |calls| >= Width(ps) then |calls| else Width(ps)
    ensures forall k | 0 <= k < |MergeAll(calls, ps)| ::
              MergeAll(calls, ps)[k] == SlotOf(if k < |calls| then calls[k] else EMPTY, ps, k)
    decreases |ps|
  {
    if ps != [] { MergeAllSlots(MergeAt(calls, ps[0].0, ps[0].1), ps[1..]); }
  }

  lemma {:induction false} SlotOfOnly(s: Slot, a: seq<(nat, ToolDelta)>, b: seq<(nat, ToolDelta)>, k: nat)
    requires Only(a, k) == Only(b, k)
    ensures SlotOf(s, a, k) == SlotOf(s, b, k)
    decreases |a| + |b|
  {
    if a != [] && a[0].0 != k {
      assert Only(a, k) == Only(a[1..], k);
      SlotOfOnly(s, a[1..], b, k);
    } else if b != [] && b[0].0 != k {
      assert Only(b, k) == Only(b[1..], k);
      SlotOfOnly(s, a, b[1..], k);
    } else if a != [] {
      assert Only(a, k)[0] == a[0].1;
      assert b != [];
      assert Only(a, k)[1..] == Only(a[1..], k) && Only(b, k)[1..] == Only(b[1..], k);
      assert Only(b, k)[0] == b[0].1;
      SlotOfOnly(Merge(s, a[0].1), a[1..], b[1..], k);
    }
  }

  lemma {:induction false} WidthOnly(ps: seq<(nat, ToolDelta)>, k: nat)
    ensures Only(ps, k) != [] ==> k < Width(ps)
    ensures Width(ps) > 0 ==> Only(ps, Width(ps) - 1) != []
    decreases |ps|
  {
    if ps != [] {
      WidthOnly(ps[1..], k);
    }
  }

  lemma {:induction false} SameWidth(a: seq<(nat, ToolDelta)>, b: seq<(nat, ToolDelta)>)
    requires forall k: nat :: Only(a, k) == Only(b, k)
    ensures Width(a) == Width(b)
  {
    if Width(a) > 0 {
      WidthOnly(a, 0);
      WidthOnly(b, Width(a) - 1);
    }
    if Width(b) > 0 {
      WidthOnly(b, 0);
      WidthOnly(a, Width(b) - 1);
    }
  }

  /** Any interleaving of the same per-call deltas gives the same calls. */
  lemma {:induction false} InterleavingIrrelevant(a: seq<(nat, ToolDelta)>, b: seq<(nat, ToolDelta)>)
    requires forall k: nat :: Only(a, k) == Only(b, k)
    ensures MergeAll([], a) == MergeAll([], b)
  {
    MergeAllSlots([], a);
    MergeAllSlots([], b);
    SameWidth(a, b);
    forall k | 0 <= k < Width(a) ensures MergeAll([], a)[k] == MergeAll([], b)[k] {
      SlotOfOnly(EMPTY, a, b, k);
    }
  }

  /** stream_build_tool_calls: slots without a name are gaps. */
  function Build(calls: seq<Slot>): seq<ToolCall> {
    if calls == [] then []
    else Built(calls[0]) + Build(calls[1..])
  }

  /** One delta on its own: without a name it makes no call; a missing id is empty, missing arguments are {}. */
  lemma {:induction false} LoneDelta(d: ToolDelta)
    ensures
      var calls := Build(MergeAll([], [(0, d)]));
      && |calls| == (if d.name.Some? then 1 else 0)
      && (d.name.Some? ==>
            && calls[0].name == d.name.value
            && calls[0].id == (if d.id.Some? then d.id.value else "")
            && calls[0].args == if d.args.Some? then d.args.value else "{}")
  {
    var ps: seq<(nat, ToolDelta)> := [(0, d)];
    assert ps[1..] == [];
    MergeAllSlots([], ps);
    var calls := MergeAll([], ps);
    assert |calls| == 1 && calls[0] == Slot(d.id, d.name, d.args);
    assert calls[1..] == [];
  }

  /** The call a slot becomes, if it has a name. */
  function Built(s: Slot): seq<ToolCall> {
    if s.name.None? then []
    else [ToolCall(if s.id.Some? then s.id.value else "", s.name.value, if s.args.Some? then s.args.value else "{}")]
  }

  lemma {:induction false} BuildFront(r: seq<ToolCall>, calls: seq<Slot>, i: nat)
    requires i < |calls|
    ensures r + Build(calls[i..]) == r + Built(calls[i]) + Build(calls[i + 1..])
  {
    assert calls[i..][1..] == calls[i + 1..];
    assert r + (Built(calls[i]) + Build(calls[i + 1..])) == r + Built(calls[i]) + Build(calls[i + 1..]);
  }

  // ----------------------------------------------------------------- chunks

  /** A JSON field as the readers take it: absent means empty, or 0. */
  function Val(s: Option<string>): string { if s.Some? then s.value else "" }

  function Num(n: Option<nat>): nat { if n.Some? then n.value else 0 }

  function ToolChunk(d: ToolDelta): Chunk { Chunk(None, true, None, None, None, [d]) }

  lemma {:induction false} Associative(a: string, b: string, c: string)
    ensures a + b + c == a + (b + c)
  {
  }

  /** stream_note_error: a failed stream is a failed turn, not an empty answer. */
  function NoteError(finish: Option<string>, error: Option<string>): Option<string> {
    if error.Some? && finish.None? then Some("error") else finish
  }

  function Take(a: Assembly, c: Chunk): Assembly {
    var u := if c.usage.Some? then c.usage else a.usage;
    if !c.choice then a.(usage := u)
    else
      Assembly(
        if c.text.Some? then a.text + c.text.value else a.text,
        MergeFrom(a.calls, c.tools, 0),
        NoteError(if c.finish.Some? then c.finish else a.finish, c.error),
        u)
  }

  // -------------------------------------------------------- lines and bytes

  /** A provider: reads a payload, spots a raw error event, and translates events. */
  datatype Provider<!E, !S> = Provider(
    parse: string -> Option<E>,
    rawError: E -> Option<string>,
    translate: (E, S) -> (Option<Chunk>, S))

  /** What a turn holds while its reply streams in. */
  datatype Turn<S> = Turn(line: string, asm: Assembly, state: S)

  function DropSpaces(s: string): string {
    if s != [] && s[0] == ' ' then DropSpaces(s[1..]) else s
  }

  /** The event a line carries, if any. */
  function EventOf<E, S>(p: Provider<E, S>, line: string): Option<E> {
    var l := if line != [] && line[|line| - 1] == '\r' then line[..|line| - 1] else line;
    if l == [] || !("data:" <= l) then None
    else
      var payload := DropSpaces(l[5..]);
      if payload == "[DONE]" then None else p.parse(payload)
  }

  function TakeEvent<E, S>(p: Provider<E, S>, t: Turn<S>, e: E): Turn<S> {
    var asm := t.asm.(finish := NoteError(t.asm.finish, p.rawError(e)));
    var (c, s) := p.translate(e, t.state);
    Turn(t.line, if c.Some? then Take(asm, c.value) else asm, s)
  }

  /** stream_handle_line on a complete line. */
  function HandleLine<E, S>(p: Provider<E, S>, t: Turn<S>): Turn<S> {
    var e := EventOf(p, t.line);
    (if e.Some? then TakeEvent(p, t, e.value) else t).(line := "")
  }

  function FeedChar<E, S>(p: Provider<E, S>, t: Turn<S>, ch: char): Turn<S> {
    if ch == '\n' then HandleLine(p, t) else t.(line := t.line + [ch])
  }

  function Feed<E, S>(p: Provider<E, S>, t: Turn<S>, data: string): Turn<S>
    decreases |data|
  {
    if data == [] then t else Feed(p, FeedChar(p, t, data[0]), data[1..])
  }

  /** A cancelled turn still collects lines, and drops them. */
  function DiscardChar<S>(t: Turn<S>, ch: char): Turn<S> {
    t.(line := if ch == '\n' then "" else t.line + [ch])
  }

  function Discard<S>(t: Turn<S>, data: string): Turn<S>
    decreases |data|
  {
    if data == [] then t else Discard(DiscardChar(t, data[0]), data[1..])
  }

  /** So what had arrived before the cancel stays as it was. */
  lemma {:induction false} DiscardKeeps<S>(t: Turn<S>, data: string)
    ensures Discard(t, data).asm == t.asm && Discard(t, data).state == t.state
    decreases |data|
  {
    if data != [] { DiscardKeeps(DiscardChar(t, data[0]), data[1..]); }
  }

  /**
    Data of which only the first upTo characters arrive before the turn is
    cancelled. What the turn holds then is what the data before the cancel made it.
   */
  function FeedUntil<E, S>(p: Provider<E, S>, t: Turn<S>, data: string, upTo: nat): Turn<S>
    requires upTo <= |data|
  {
    Discard(Feed(p, t, data[..upTo]), data[upTo..])
  }

  lemma {:induction false} CancelledReply<E, S>(p: Provider<E, S>, t: Turn<S>, data: string, upTo: nat)
    requires upTo <= |data|
    ensures FeedUntil(p, t, data, upTo).asm == Feed(p, t, data[..upTo]).asm
    ensures upTo == |data| ==> FeedUntil(p, t, data, upTo) == Feed(p, t, data)
  {
    DiscardKeeps(Feed(p, t, data[..upTo]), data[upTo..]);
    if upTo == |data| { assert data[..upTo] == data; }
  }

  lemma {:induction false} FeedConcat<E, S>(p: Provider<E, S>, t: Turn<S>, a: string, b: string)
    ensures Feed(p, t, a + b) == Feed(p, Feed(p, t, a), b)
    decreases |a|
  {
    if a == [] {
      assert a + b == b;
    } else {
      assert (a + b)[1..] == a[1..] + b;
      FeedConcat(p, FeedChar(p, t, a[0]), a[1..], b);
    }
  }

  function Flat(pieces: seq<string>): string {
    if pieces == [] then "" else pieces[0] + Flat(pieces[1..])
  }

  function FeedPieces<E, S>(p: Provider<E, S>, t: Turn<S>, pieces: seq<string>): Turn<S>
    decreases |pieces|
  {
    if pieces == [] then t else FeedPieces(p, Feed(p, t, pieces[0]), pieces[1..])
  }

  /** However the bytes are chopped, the outcome is that of the whole. */
  lemma {:induction false} ChoppingIrrelevant<E, S>(p: Provider<E, S>, t: Turn<S>, pieces: seq<string>)
    ensures FeedPieces(p, t, pieces) == Feed(p, t, Flat(pieces))
    decreases |pieces|
  {
    if pieces != [] {
      ChoppingIrrelevant(p, Feed(p, t, pieces[0]), pieces[1..]);
      FeedConcat(p, t, pieces[0], Flat(pieces[1..]));
    }
  }

  function FoldEvents<E, S>(p: Provider<E, S>, t: Turn<S>, es: seq<E>): Turn<S>
    decreases |es|
  {
    if es == [] then t else FoldEvents(p, TakeEvent(p, t, es[0]), es[1..])
  }

  function EventsOf<E, S>(p: Provider<E, S>, lines: seq<string>): seq<E> {
    if lines == [] then []
    else
      var e := EventOf(p, lines[0]);
      (if e.Some? then [e.value] else []) + EventsOf(p, lines[1..])
  }

  function Unlines(lines: seq<string>): string {
    if lines == [] then "" else lines[0] + "\n" + Unlines(lines[1..])
  }

  ghost predicate NoNewline(s: string) { forall i | 0 <= i < |s| :: s[i] != '\n' }

  lemma {:induction false} FeedLine<E, S>(p: Provider<E, S>, t: Turn<S>, s: string)
    requires NoNewline(s)
    ensures Feed(p, t, s) == t.(line := t.line + s)
    decreases |s|
  {
    if s == [] {
      assert t.line + s == t.line;
    } else {
      FeedLine(p, FeedChar(p, t, s[0]), s[1..]);
      assert t.line + [s[0]] + s[1..] == t.line + s;
    }
  }

  /** A stream of whole lines amounts to the events it carries, in order. */
  lemma {:induction false} FeedLines<E, S>(p: Provider<E, S>, t: Turn<S>, lines: seq<string>)
    requires t.line == "" && forall l | l in lines :: NoNewline(l)
    ensures Feed(p, t, Unlines(lines)) == FoldEvents(p, t, EventsOf(p, lines))
    decreases |lines|
  {
    if lines != [] {
      var l, rest := lines[0], Unlines(lines[1..]);
      assert l in lines;
      FeedConcat(p, t, l + "\n", rest);
      FeedConcat(p, t, l, "\n");
      FeedLine(p, t, l);
      assert "" + l == l;
      var u := t.(line := l);
      assert Feed(p, u, "\n") == FeedChar(p, u, '\n') by { assert "\n"[1..] == ""; }
      var e := EventOf(p, l);
      var v := HandleLine(p, u);
      FeedLines(p, v, lines[1..]);
      if e.Some? {
        assert v == TakeEvent(p, t, e.value);
        assert EventsOf(p, lines)[1..] == EventsOf(p, lines[1..]);
      } else {
        assert v == t;
        assert EventsOf(p, lines) == EventsOf(p, lines[1..]);
      }
    }
  }

  // ------------------------------------------------------- lines on the wire

  /** A line of the stream: one that carries a payload, behind any number of spaces, or one that carries none. */
  datatype WireLine = Data(spaces: nat, payload: string, cr: bool) | Quiet(text: string)

  function Blanks(n: nat): string { seq(n, i => ' ') }

  function Print(l: WireLine): string {
    match l
    case Data(n, payload, cr) => "data:" + Blanks(n) + payload + (if cr then "\r" else "")
    case Quiet(text) => text
  }

  /** What can be carried: the spaces in front are no part of it, nor is a carriage return at the end. */
  predicate Carried(payload: string) {
    payload != "[DONE]" && (payload != "" ==> payload[0] != ' ' && payload[|payload| - 1] != '\r')
  }

  /** An empty line, a line of another field, or the end mark. */
  ghost predicate Silent(text: string) {
    text == "" || text == "\r" || !("data:" <= text)
    || exists n: nat, cr: bool :: text == Print(Data(n, "[DONE]", cr))
  }

  ghost predicate Proper(l: WireLine) {
    NoNewline(Print(l)) && match l case Data(_, payload, _) => Carried(payload) case Quiet(text) => Silent(text)
  }

  function PrintAll(lines: seq<WireLine>): seq<string> {
    seq(|lines|, i requires 0 <= i < |lines| => Print(lines[i]))
  }

  /** The events of the payloads, in order; a payload that cannot be parsed has none. */
  function Meant<E>(parse: string -> Option<E>, lines: seq<WireLine>): seq<E> {
    if lines == [] then []
    else
      (if lines[0].Data? && parse(lines[0].payload).Some? then [parse(lines[0].payload).value] else [])
      + Meant(parse, lines[1..])
  }

  lemma {:induction false} DropBlanks(n: nat, s: string)
    requires s != "" ==> s[0] != ' '
    ensures DropSpaces(Blanks(n) + s) == s
  {
    if n == 0 {
      assert Blanks(0) + s == s;
    } else {
      assert (Blanks(n) + s)[1..] == Blanks(n - 1) + s;
      DropBlanks(n - 1, s);
    }
  }

  /** The line without its carriage return. */
  lemma {:induction false} Stripped(n: nat, payload: string, cr: bool)
    requires payload != "" ==> payload[|payload| - 1] != '\r'
    ensures var line := Print(Data(n, payload, cr)); var l := "data:" + Blanks(n) + payload;
            && line != "" && (if line[|line| - 1] == '\r' then line[..|line| - 1] else line) == l
            && "data:" <= l && l[5..] == Blanks(n) + payload
  {
    var l := "data:" + Blanks(n) + payload;
    LastNoReturn(n, payload);
    CutReturn(l);
    Associative("data:", Blanks(n), payload);
    Behind("data:", Blanks(n) + payload);
  }

  lemma {:induction false} LastNoReturn(n: nat, payload: string)
    requires payload != "" ==> payload[|payload| - 1] != '\r'
    ensures var l := "data:" + Blanks(n) + payload; l[|l| - 1] != '\r'
  {
  }

  lemma {:induction false} CutReturn(l: string)
    ensures (l + "\r")[..|l|] == l && (l + "\r")[|l|] == '\r' && l + "" == l
  {
  }

  lemma {:induction false} Behind(a: string, b: string)
    ensures a <= a + b && (a + b)[|a|..] == b
  {
  }

  /** A data line carries its payload, whatever the spaces in front and with or without the carriage return. */
  lemma {:induction false} DataLineCarries<E, S>(p: Provider<E, S>, n: nat, payload: string, cr: bool)
    requires Carried(payload)
    ensures EventOf(p, Print(Data(n, payload, cr))) == p.parse(payload)
  {
    Stripped(n, payload, cr);
    DropBlanks(n, payload);
  }

  lemma {:induction false} FrontPrefix(text: string, n: nat)
    requires n <= |text|
    ensures "data:" <= text[..n] ==> "data:" <= text
  {
  }

  /** Other lines carry nothing. */
  lemma {:induction false} SilentLineCarriesNothing<E, S>(p: Provider<E, S>, text: string)
    requires Silent(text)
    ensures EventOf(p, text) == None
  {
    if n: nat, cr: bool :| text == Print(Data(n, "[DONE]", cr)) {
      Stripped(n, "[DONE]", cr);
      DropBlanks(n, "[DONE]");
    } else if text != "" {
      FrontPrefix(text, |text| - 1);
    }
  }

  lemma {:induction false} MeantEvents<E, S>(p: Provider<E, S>, lines: seq<WireLine>)
    requires forall l | l in lines :: Proper(l)
    ensures EventsOf(p, PrintAll(lines)) == Meant(p.parse, lines)
    ensures forall t | t in PrintAll(lines) :: NoNewline(t)
    decreases |lines|
  {
    if lines != [] {
      var l := lines[0];
      assert l in lines;
      assert PrintAll(lines) == [Print(l)] + PrintAll(lines[1..]);
      match l {
        case Data(n, payload, cr) => DataLineCarries(p, n, payload, cr);
        case Quiet(text) => SilentLineCarriesNothing(p, text);
      }
      MeantEvents(p, lines[1..]);
    }
  }

  /** A stream of printed lines, chopped anyhow, amounts to the events of its payloads. */
  lemma {:induction false} FeedPrinted<E, S>(p: Provider<E, S>, t: Turn<S>, lines: seq<WireLine>, pieces: seq<string>)
    requires t.line == "" && (forall l | l in lines :: Proper(l)) && Flat(pieces) == Unlines(PrintAll(lines))
    ensures FeedPieces(p, t, pieces) == FoldEvents(p, t, Meant(p.parse, lines))
  {
    ChoppingIrrelevant(p, t, pieces);
    MeantEvents(p, lines);
    FeedLines(p, t, PrintAll(lines));
  }

  // ---------------------------------------------------- a reply and its parts

  /** A reply as a list of parts; the index of a call is its place in the list. */
  datatype Part = Text(text: string) | Call(id: string, name: string, args: string) | Other

  function WholeText(parts: seq<Part>): string {
    if parts == [] then "" else (if parts[0].Text? then parts[0].text else "") + WholeText(parts[1..])
  }

  function WholeCalls(parts: seq<Part>): seq<ToolCall> {
    if parts == [] then []
    else
      var c := parts[0];
      (if c.Call? then [ToolCall(c.id, c.name, c.args)] else []) + WholeCalls(parts[1..])
  }

  lemma {:induction false} WholeTextFront(text: string, parts: seq<Part>, i: nat)
    requires i < |parts|
    ensures
      var t := if parts[i].Text? then parts[i].text else "";
      text + WholeText(parts[i..]) == text + t + WholeText(parts[i + 1..])
  {
    assert parts[i..][1..] == parts[i + 1..];
    var t := if parts[i].Text? then parts[i].text else "";
    assert text + (t + WholeText(parts[i + 1..])) == text + t + WholeText(parts[i + 1..]);
  }

  lemma {:induction false} WholeCallsFront(calls: seq<ToolCall>, parts: seq<Part>, i: nat)
    requires i < |parts|
    ensures
      var c := if parts[i].Call? then [ToolCall(parts[i].id, parts[i].name, parts[i].args)] else [];
      calls + WholeCalls(parts[i..]) == calls + c + WholeCalls(parts[i + 1..])
  {
    assert parts[i..][1..] == parts[i + 1..];
    var c := if parts[i].Call? then [ToolCall(parts[i].id, parts[i].name, parts[i].args)] else [];
    assert calls + (c + WholeCalls(parts[i + 1..])) == calls + c + WholeCalls(parts[i + 1..]);
  }

  /** The deltas give each call of the reply its id, name and arguments, and nothing else. */
  ghost predicate Delivers(ps: seq<(nat, ToolDelta)>, parts: seq<Part>) {
    forall k: nat ::
      if k < |parts| && parts[k].Call? then
        Only(ps, k) != [] && SlotOf(EMPTY, ps, k) == Slot(Some(parts[k].id), Some(parts[k].name), Some(parts[k].args))
      else Only(ps, k) == []
  }

  lemma {:induction false} SlotOfNothing(s: Slot, ps: seq<(nat, ToolDelta)>, k: nat)
    requires Only(ps, k) == []
    ensures SlotOf(s, ps, k) == s
    decreases |ps|
  {
    if ps != [] { SlotOfNothing(s, ps[1..], k); }
  }

  lemma {:induction false} BuildParts(calls: seq<Slot>, parts: seq<Part>)
    requires |calls| <= |parts|
    requires forall k | 0 <= k < |parts| ::
      if parts[k].Call? then k < |calls| && calls[k] == Slot(Some(parts[k].id), Some(parts[k].name), Some(parts[k].args))
      else k < |calls| ==> calls[k] == EMPTY
    ensures Build(calls) == WholeCalls(parts)
    decreases |parts|
  {
    if parts != [] {
      if calls == [] {
        BuildParts(calls, parts[1..]);
      } else {
        BuildParts(calls[1..], parts[1..]);
      }
    }
  }

  /** Whatever the order of the deltas, the assembled calls are those of the whole reply. */
  lemma {:induction false} AssembledCalls(ps: seq<(nat, ToolDelta)>, parts: seq<Part>)
    requires Delivers(ps, parts)
    ensures Build(MergeAll([], ps)) == WholeCalls(parts)
  {
    var calls := MergeAll([], ps);
    MergeAllSlots([], ps);
    if Width(ps) > 0 { WidthOnly(ps, 0); }
    forall k | 0 <= k < |parts|
      ensures if parts[k].Call? then k < |calls| && calls[k] == Slot(Some(parts[k].id), Some(parts[k].name), Some(parts[k].args))
              else k < |calls| ==> calls[k] == EMPTY
    {
      WidthOnly(ps, k);
      if !parts[k].Call? { SlotOfNothing(EMPTY, ps, k); }
    }
    BuildParts(calls, parts);
  }

  /** A call announced once and then sent in fragments. */
  lemma {:induction false} SlotOfFragments(s: Slot, ps: seq<(nat, ToolDelta)>, k: nat, frags: seq<string>)
    requires s.args.Some?
    requires Only(ps, k) == seq(|frags|, i requires 0 <= i < |frags| => ToolDelta(Some(k), None, None, Some(frags[i])))
    ensures SlotOf(s, ps, k) == s.(args := Some(s.args.value + Flat(frags)))
    decreases |ps|
  {
    if ps == [] {
      assert s.args.value + "" == s.args.value;
    } else if ps[0].0 != k {
      SlotOfFragments(s, ps[1..], k, frags);
    } else {
      var d := ToolDelta(Some(k), None, None, Some(frags[0]));
      assert Only(ps, k)[0] == d == ps[0].1;
      assert Only(ps, k)[1..] == Only(ps[1..], k);
      var more := frags[1..];
      assert Only(ps[1..], k) == seq(|more|, i requires 0 <= i < |more| => ToolDelta(Some(k), None, None, Some(more[i])));
      SlotOfFragments(Merge(s, d), ps[1..], k, more);
      assert s.args.value + frags[0] + Flat(more) == s.args.value + Flat(frags);
    }
  }

  /** Call k is announced once, then its arguments follow in fragments. */
  ghost predicate Announces(ps: seq<(nat, ToolDelta)>, k: nat, id: string, name: string, frags: seq<string>) {
    Only(ps, k) ==
      [ToolDelta(Some(k), Some(id), Some(name), Some(""))]
      + seq(|frags|, i requires 0 <= i < |frags| => ToolDelta(Some(k), None, None, Some(frags[i])))
  }

  lemma {:induction false} AnnouncedSlot(ps: seq<(nat, ToolDelta)>, k: nat, id: string, name: string, frags: seq<string>)
    requires Announces(ps, k, id, name, frags)
    ensures SlotOf(EMPTY, ps, k) == Slot(Some(id), Some(name), Some(Flat(frags)))
    decreases |ps|
  {
    if ps[0].0 != k {
      assert Only(ps, k) == Only(ps[1..], k);
      AnnouncedSlot(ps[1..], k, id, name, frags);
    } else {
      var d := ToolDelta(Some(k), Some(id), Some(name), Some(""));
      assert Only(ps, k)[0] == d == ps[0].1;
      assert Only(ps, k)[1..] == Only(ps[1..], k);
      SlotOfFragments(Merge(EMPTY, d), ps[1..], k, frags);
      assert "" + Flat(frags) == Flat(frags);
    }
  }

  /** Deltas that announce and fill exactly the calls of the reply. */
  ghost predicate SendsCalls(ps: seq<(nat, ToolDelta)>, parts: seq<Part>) {
    forall k: nat ::
      if k < |parts| && parts[k].Call? then
        exists frags :: Announces(ps, k, parts[k].id, parts[k].name, frags) && Flat(frags) == parts[k].args
      else Only(ps, k) == []
  }

  /** So sent, in any interleaving, the calls of the reply come out. */
  lemma {:induction false} SentCalls(ps: seq<(nat, ToolDelta)>, parts: seq<Part>)
    requires SendsCalls(ps, parts)
    ensures Build(MergeAll([], ps)) == WholeCalls(parts)
  {
    forall k: nat
      ensures if k < |parts| && parts[k].Call? then
                Only(ps, k) != [] &&
                SlotOf(EMPTY, ps, k) == Slot(Some(parts[k].id), Some(parts[k].name), Some(parts[k].args))
              else Only(ps, k) == []
    {
      if k < |parts| && parts[k].Call? {
        var frags :| Announces(ps, k, parts[k].id, parts[k].name, frags) && Flat(frags) == parts[k].args;
        AnnouncedSlot(ps, k, parts[k].id, parts[k].name, frags);
      }
    }
    AssembledCalls(ps, parts);
  }

  /** Each call of the reply is announced and sent in the given fragments; nothing else is sent. */
  ghost predicate SendsFragments(ps: seq<(nat, ToolDelta)>, parts: seq<Part>, frags: seq<seq<string>>)
    requires |frags| == |parts|
  {
    forall k: nat ::
      if k < |parts| && parts[k].Call? then Announces(ps, k, parts[k].id, parts[k].name, frags[k])
      else Only(ps, k) == []
  }

  predicate ArgumentsAgree(parts: seq<Part>, frags: seq<seq<string>>)
    requires |frags| == |parts|
  {
    forall k | 0 <= k < |parts| && parts[k].Call? :: Flat(frags[k]) == parts[k].args
  }

  /** The parts with the arguments that were sent. */
  function AsSent(parts: seq<Part>, frags: seq<seq<string>>): seq<Part>
    requires |frags| == |parts|
  {
    seq(|parts|, k requires 0 <= k < |parts| =>
      if parts[k].Call? then Call(parts[k].id, parts[k].name, Flat(frags[k])) else parts[k])
  }

  lemma {:induction false} AsSentSends(ps: seq<(nat, ToolDelta)>, parts: seq<Part>, frags: seq<seq<string>>)
    requires |frags| == |parts| && SendsFragments(ps, parts, frags)
    ensures SendsCalls(ps, AsSent(parts, frags))
  {
    var sent := AsSent(parts, frags);
    forall k: nat
      ensures if k < |sent| && sent[k].Call? then
                exists f :: Announces(ps, k, sent[k].id, sent[k].name, f) && Flat(f) == sent[k].args
              else Only(ps, k) == []
    {
      if k < |parts| && parts[k].Call? {
        assert Announces(ps, k, parts[k].id, parts[k].name, frags[k]);
      }
    }
  }

  lemma {:induction false} SameCallsIff(parts: seq<Part>, frags: seq<seq<string>>)
    requires |frags| == |parts|
    ensures WholeCalls(AsSent(parts, frags)) == WholeCalls(parts) <==> ArgumentsAgree(parts, frags)
    decreases |parts|
  {
    if parts != [] {
      var sent := AsSent(parts, frags);
      assert sent[1..] == AsSent(parts[1..], frags[1..]);
      SameCallsIff(parts[1..], frags[1..]);
      AgreeCons(parts, frags);
      if parts[0].Call? {
        SameHeadIff(sent, parts);
      } else {
        assert WholeCalls(sent) == WholeCalls(sent[1..]) && WholeCalls(parts) == WholeCalls(parts[1..]);
      }
    }
  }

  lemma {:induction false} AgreeCons(parts: seq<Part>, frags: seq<seq<string>>)
    requires |frags| == |parts| > 0
    ensures ArgumentsAgree(parts, frags) <==>
            (parts[0].Call? ==> Flat(frags[0]) == parts[0].args) && ArgumentsAgree(parts[1..], frags[1..])
  {
    if ArgumentsAgree(parts, frags) {
      forall k | 0 <= k < |parts| - 1 && parts[1..][k].Call? ensures Flat(frags[1..][k]) == parts[1..][k].args {
        assert parts[k + 1] == parts[1..][k];
      }
    }
    if (parts[0].Call? ==> Flat(frags[0]) == parts[0].args) && ArgumentsAgree(parts[1..], frags[1..]) {
      forall k | 0 <= k < |parts| && parts[k].Call? ensures Flat(frags[k]) == parts[k].args {
        assert k == 0 || parts[1..][k - 1] == parts[k];
      }
    }
  }

  lemma {:induction false} SameHeadIff(a: seq<Part>, b: seq<Part>)
    requires a != [] && b != [] && a[0].Call? && b[0].Call? && a[0].id == b[0].id && a[0].name == b[0].name
    ensures WholeCalls(a) == WholeCalls(b) <==> a[0].args == b[0].args && WholeCalls(a[1..]) == WholeCalls(b[1..])
  {
    var x, y := ToolCall(a[0].id, a[0].name, a[0].args), ToolCall(b[0].id, b[0].name, b[0].args);
    assert WholeCalls(a)[0] == x && WholeCalls(a)[1..] == WholeCalls(a[1..]);
    assert WholeCalls(b)[0] == y && WholeCalls(b)[1..] == WholeCalls(b[1..]);
  }

  /** Announced calls come out as in the whole reply exactly when the fragments of each spell out its arguments. */
  lemma {:induction false} SentCallsIff(ps: seq<(nat, ToolDelta)>, parts: seq<Part>, frags: seq<seq<string>>)
    requires |frags| == |parts| && SendsFragments(ps, parts, frags)
    ensures Build(MergeAll([], ps)) == WholeCalls(parts) <==> ArgumentsAgree(parts, frags)
  {
    AsSentSends(ps, parts, frags);
    SentCalls(ps, AsSent(parts, frags));
    SameCallsIff(parts, frags);
  }

  /** A call sent without fragments: its arguments are empty, where a whole reply without arguments has {}. */
  lemma {:induction false} NoFragments()
    ensures var ps := [(0, ToolDelta(Some(0), Some("1"), Some("f"), Some("")))];
            && SendsFragments(ps, [Call("1", "f", "{}")], [[]])
            && Build(MergeAll([], ps)) == [ToolCall("1", "f", "")]
            && WholeCalls([Call("1", "f", "{}")]) == [ToolCall("1", "f", "{}")]
  {
    var d := ToolDelta(Some(0), Some("1"), Some("f"), Some(""));
    var ps: seq<(nat, ToolDelta)> := [(0, d)];
    assert ps[1..] == [];
    assert Only(ps, 0) == [d];
    assert forall k: nat | k > 0 :: Only(ps, k) == [];
    var sent := [Call("1", "f", "")];
    assert Flat([]) == "";
    assert SendsCalls(ps, sent) by { assert Announces(ps, 0, "1", "f", []); }
    SentCalls(ps, sent);
    assert sent[1..] == [] && [Call("1", "f", "{}")][1..] == [];
  }

  /** The canonical form of a whole, non-streamed reply. */
  datatype Canonical = Canonical(text: string, calls: seq<ToolCall>, finish: Option<string>, usage: Option<Usage>)

  /** What a finished stream hands on. */
  function Outcome(a: Assembly): Canonical { Canonical(a.text, Build(a.calls), a.finish, a.usage) }
}
