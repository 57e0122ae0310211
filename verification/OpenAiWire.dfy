/**
  Messages for the chat-completions API: the images of a run of tool results move,
  labelled, into one user message right behind the run, and every tool message
  keeps its text as a plain string.
 */
module OpenAiWire {
  import opened Wrappers
  import opened Messages
  import opened Wire

  /** A message of the request array. */
  datatype Entry = Entry(role: Role, content: Payload, calls: seq<ToolCall>, callId: string)

  /** What the request array starts as: tool calls sit on assistant messages only. */
  function Canonical(h: seq<Message>): (w: seq<Entry>)
    ensures |w| == |h| && CallsApart(w)
  {
    seq(|h|, i requires 0 <= i < |h| =>
      Entry(h[i].role, WireContent(h[i]), if IsHead(h[i]) then h[i].calls else [],
            if h[i].role == Tool then h[i].callId else ""))
  }

  ghost predicate CallsApart(w: seq<Entry>) {
    forall i | 0 <= i < |w| :: w[i].role == Tool ==> w[i].calls == []
  }

  const LABEL_MAX: nat := 255

  /** The label of a moved image, cut as snprintf cuts it. */
  function Label(name: Option<string>, id: string): Text {
    var full := Ascii("image from tool " + (if name.Some? then name.value else "?") + " (call " + id + "):");
    if |full| <= LABEL_MAX then full else full[..LABEL_MAX]
  }

  // ------------------------------------------------------------- tool names

  function CallNamed(calls: seq<ToolCall>, id: string): Option<string> {
    if calls == [] then None else if calls[0].id == id then Some(calls[0].name) else CallNamed(calls[1..], id)
  }

  /** The call lists of w, in order. */
  function CallLists(w: seq<Entry>): seq<seq<ToolCall>> {
    if w == [] then [] else (if w[0].calls == [] then [] else [w[0].calls]) + CallLists(w[1..])
  }

  /** The name of the call with this id nearest to the end. */
  function NearestName(lists: seq<seq<ToolCall>>, id: string): Option<string> {
    if lists == [] then None
    else
      var last := CallNamed(lists[|lists| - 1], id);
      if last.Some? then last else NearestName(lists[..|lists| - 1], id)
  }

  lemma {:induction false} CallListsConcat(a: seq<Entry>, b: seq<Entry>)
    ensures CallLists(a + b) == CallLists(a) + CallLists(b)
  {
    if a == [] {
      assert a + b == b;
    } else {
      assert (a + b)[1..] == a[1..] + b;
      CallListsConcat(a[1..], b);
    }
  }

  lemma {:induction false} CallListsSnoc(w: seq<Entry>, i: nat)
    requires i < |w|
    ensures CallLists(w[..i + 1]) == CallLists(w[..i]) + (if w[i].calls == [] then [] else [w[i].calls])
  {
    assert w[..i + 1] == w[..i] + [w[i]];
    CallListsConcat(w[..i], [w[i]]);
    assert [w[i]][1..] == [];
  }

  // ------------------------------------------------------- what is to be sent

  /** The text parts joined by line breaks; None when there is none. */
  function JoinText(have: Option<Text>, parts: seq<Part>): Option<Text>
    decreases |parts|
  {
    if parts == [] then have
    else if parts[0].ImagePart? then JoinText(have, parts[1..])
    else if have.None? then JoinText(Some(parts[0].text), parts[1..])
    else
      var sep := if have.value == [] then [] else Ascii("\n");
      JoinText(Some(have.value + sep + parts[0].text), parts[1..])
  }

  /** A tool message without its images. */
  function Flat(m: Entry): Entry {
    if m.role == Tool && m.content.Parts? then
      var t := JoinText(None, m.content.parts);
      m.(content := Str(if t.Some? then t.value else Ascii("(image result)")))
    else m
  }

  /** Each image behind its label. */
  function Labelled(caption: Text, parts: seq<Part>): seq<Part> {
    if parts == [] then []
    else (if parts[0].ImagePart? then [TextPart(caption), parts[0]] else []) + Labelled(caption, parts[1..])
  }

  function Moved(lists: seq<seq<ToolCall>>, m: Entry): seq<Part> {
    if m.content.Parts? then Labelled(Label(NearestName(lists, m.callId), m.callId), m.content.parts) else []
  }

  function Carrier(parts: seq<Part>): Entry { Entry(User, Parts(parts), [], "") }

  function RunOf(w: seq<Entry>): (n: nat)
    ensures n <= |w|
    ensures forall i | 0 <= i < n :: w[i].role == Tool
    ensures n < |w| ==> w[n].role != Tool
  {
    if w == [] || w[0].role != Tool then 0 else 1 + RunOf(w[1..])
  }

  function FlatAll(run: seq<Entry>): seq<Entry> { seq(|run|, i requires 0 <= i < |run| => Flat(run[i])) }

  function MovedAll(lists: seq<seq<ToolCall>>, run: seq<Entry>): seq<Part> {
    if run == [] then [] else Moved(lists, run[0]) + MovedAll(lists, run[1..])
  }

  predicate HasParts(run: seq<Entry>) { exists i :: 0 <= i < |run| && run[i].content.Parts? }

  function Note(lists: seq<seq<ToolCall>>, run: seq<Entry>): seq<Entry> {
    if HasParts(run) then [Carrier(MovedAll(lists, run))] else []
  }

  /** Run by run: the run whole and flat, then its images in one user message, if it had parts. */
  function Carried(lists: seq<seq<ToolCall>>, w: seq<Entry>): seq<Entry>
    decreases |w|
  {
    if w == [] then []
    else if w[0].role == Tool then
      var k := RunOf(w);
      FlatAll(w[..k]) + Note(lists, w[..k]) + Carried(lists, w[k..])
    else [w[0]] + Carried(lists + CallLists([w[0]]), w[1..])
  }

  /** The same, message by message, with the images of the run at hand kept aside. */
  function Walk(lists: seq<seq<ToolCall>>, aside: Option<seq<Part>>, w: seq<Entry>): seq<Entry>
    decreases |w|
  {
    if w == [] then Drop(aside)
    else if w[0].role == Tool then [Flat(w[0])] + Walk(lists, Aside(lists, aside, w[0]), w[1..])
    else Drop(aside) + [w[0]] + Walk(lists + CallLists([w[0]]), None, w[1..])
  }

  function Drop(aside: Option<seq<Part>>): seq<Entry> {
    if aside.None? then [] else [Carrier(aside.value)]
  }

  function Aside(lists: seq<seq<ToolCall>>, aside: Option<seq<Part>>, m: Entry): Option<seq<Part>> {
    if m.content.Parts? then Some((if aside.None? then [] else aside.value) + Moved(lists, m)) else aside
  }

  // ---------------------------------------------------------------- in place

  class Request {
    var messages: seq<Entry>

    constructor (w: seq<Entry>)
      ensures messages == w
    {
      messages := w;
    }

    /** tool_name_for. */
    method ToolNameFor(at: nat, id: string) returns (name: Option<string>)
      requires at <= |messages|
      ensures name == NearestName(CallLists(messages[..at]), id)
    {
      var i := at;
      while i > 0
        invariant 0 <= i <= at
        invariant NearestName(CallLists(messages[..i]), id) == NearestName(CallLists(messages[..at]), id)
      {
        i := i - 1;
        CallListsSnoc(messages, i);
        var calls := messages[i].calls;
        ghost var lists := CallLists(messages[..i]);
        assert calls != [] ==> (lists + [calls])[..|lists|] == lists;
        assert lists + [] == lists;
        var j := 0;
        while j < |calls|
          invariant 0 <= j <= |calls|
          invariant CallNamed(calls[j..], id) == CallNamed(calls, id)
        {
          assert calls[j..][0] == calls[j] && calls[j..][1..] == calls[j + 1..];
          if calls[j].id == id {
            return Some(calls[j].name);
          }
          j := j + 1;
        }
      }
      assert messages[..0] == [];
      return None;
    }

    /** One part, taken from the front of what is left. */
    static lemma {:induction false} PartStep(all: seq<Part>, parts: seq<Part>, done: nat, j: nat)
      requires j < |parts| && done <= |all| && parts[j..] == all[done..]
      ensures done < |all| && all[done] == parts[j] && parts[j + 1..] == all[done + 1..]
      ensures (parts[..j] + parts[j + 1..])[j..] == all[done + 1..]
    {
      assert parts[j..][0] == all[done..][0] && parts[j..][1..] == all[done..][1..];
      assert all[done..][1..] == all[done + 1..] && parts[j..][1..] == parts[j + 1..];
    }

    static lemma {:induction false} TextFront(all: seq<Part>, done: nat, text: Option<Text>)
      requires done < |all|
      ensures
        var part, rest := all[done], all[done + 1..];
        JoinText(text, all[done..]) ==
          if part.ImagePart? then JoinText(text, rest)
          else if text.None? then JoinText(Some(part.text), rest)
          else JoinText(Some(text.value + (if text.value == [] then [] else Ascii("\n")) + part.text), rest)
    {
      assert all[done..][0] == all[done] && all[done..][1..] == all[done + 1..];
    }

    static lemma {:induction false} ImageFront(all: seq<Part>, done: nat, caption: Text, filled: seq<Part>)
      requires done < |all|
      ensures
        var own := if all[done].ImagePart? then [TextPart(caption), all[done]] else [];
        filled + Labelled(caption, all[done..]) == filled + own + Labelled(caption, all[done + 1..])
    {
      assert all[done..][0] == all[done] && all[done..][1..] == all[done + 1..];
      var own := if all[done].ImagePart? then [TextPart(caption), all[done]] else [];
      Assoc(filled, own, Labelled(caption, all[done + 1..]));
    }

    /** The loop over the parts: text is joined, images move to the carrier. */
    static method MoveParts(all: seq<Part>, caption: Text, carrier: seq<Part>) returns (text: Option<Text>, filled: seq<Part>)
      ensures text == JoinText(None, all) && filled == carrier + Labelled(caption, all)
    {
      text, filled := None, carrier;
      var parts := all;
      var j := 0;
      ghost var done := 0;
      while j < |parts|
        invariant 0 <= j <= |parts| && 0 <= done <= |all| && parts[j..] == all[done..]
        invariant JoinText(text, all[done..]) == JoinText(None, all)
        invariant filled + Labelled(caption, all[done..]) == carrier + Labelled(caption, all)
        decreases |all| - done
      {
        var part := parts[j];
        PartStep(all, parts, done, j);
        TextFront(all, done, text);
        ImageFront(all, done, caption, filled);
        assert filled + [] == filled;
        if part.TextPart? {
          if text.None? {
            text := Some(part.text);
          } else {
            var sep := if |text.value| > 0 then Ascii("\n") else [];
            text := Some(text.value + sep + part.text);
          }
          j := j + 1;
        } else {
          filled := filled + [TextPart(caption), part];
          parts := parts[..j] + parts[j + 1..];
        }
        done := done + 1;
      }
      assert all[done..] == [] && filled + [] == filled;
    }

    /** split_tool_images: the images leave the message for the carrier, labelled. */
    method SplitToolImages(at: nat, carrier: seq<Part>) returns (filled: seq<Part>)
      requires at < |messages| && messages[at].role == Tool && messages[at].content.Parts?
      modifies this`messages
      ensures messages == old(messages)[at := Flat(old(messages)[at])]
      ensures filled == carrier + Moved(CallLists(old(messages)[..at]), old(messages)[at])
    {
      var msg := messages[at];
      var name := ToolNameFor(at, msg.callId);
      var text;
      text, filled := MoveParts(msg.content.parts, Label(name, msg.callId), carrier);
      messages := messages[at := msg.(content := Str(if text.Some? then text.value else Ascii("(image result)")))];
    }

    /** A tool message on the walk. */
    method PassTool(i: nat, carrier: Option<seq<Part>>) returns (aside: Option<seq<Part>>)
      requires CallsApart(messages) && i < |messages| && messages[i].role == Tool
      modifies this`messages
      ensures CallsApart(messages) && |messages| == |old(messages)|
      ensures At(messages, i + 1, aside) == At(old(messages), i, carrier)
    {
      StepTool(messages, i, carrier);
      aside := carrier;
      if messages[i].content.Parts? {
        var have := if carrier.Some? then carrier.value else [];
        var filled := SplitToolImages(i, have);
        aside := Some(filled);
      }
    }

    /** carry_tool_images: carriers are inserted while the array is walked. */
    method CarryToolImages()
      requires CallsApart(messages)
      modifies this`messages
      ensures messages == Carried([], old(messages))
    {
      ghost var was := messages;
      var carrier: Option<seq<Part>> := None;
      var n := |messages|;
      var i := 0;
      assert messages[..0] == [] && messages[0..] == messages;
      while i <= n
        invariant 0 <= i <= n + 1 && n == |messages| && CallsApart(messages)
        invariant i <= n ==> At(messages, i, carrier) == Walk([], None, was)
        invariant i == n + 1 ==> messages == Walk([], None, was)
        decreases n + 1 - i
      {
        if i < n && messages[i].role == Tool {
          carrier := PassTool(i, carrier);
          i := i + 1;
          continue;
        }
        StepOther(messages, i, carrier);
        if carrier.Some? {
          messages := messages[..i] + [Carrier(carrier.value)] + messages[i..];
          carrier := None;
          n := n + 1;
          i := i + 1;
        }
        i := i + 1;
      }
      WalkIsCarried([], was);
    }
  }

  /** The array as it will end, seen from the walk at i. */
  function At(w: seq<Entry>, i: nat, aside: Option<seq<Part>>): seq<Entry>
    requires i <= |w|
  {
    w[..i] + Walk(CallLists(w[..i]), aside, w[i..])
  }

  lemma {:induction false} StepTool(w: seq<Entry>, i: nat, aside: Option<seq<Part>>)
    requires i < |w| && w[i].role == Tool && w[i].calls == []
    ensures At(w[i := Flat(w[i])], i + 1, Aside(CallLists(w[..i]), aside, w[i])) == At(w, i, aside)
    ensures !w[i].content.Parts? ==> w[i := Flat(w[i])] == w
  {
    var v := w[i := Flat(w[i])];
    CallListsSnoc(v, i);
    assert v[..i] == w[..i] && v[i + 1..] == w[i..][1..] && v[..i + 1] == w[..i] + [Flat(w[i])];
    assert CallLists(v[..i + 1]) == CallLists(w[..i]);
    Assoc(w[..i], [Flat(w[i])], Walk(CallLists(w[..i]), Aside(CallLists(w[..i]), aside, w[i]), w[i + 1..]));
  }

  lemma {:induction false} StepOther(w: seq<Entry>, i: nat, aside: Option<seq<Part>>)
    requires i <= |w| && (i < |w| ==> w[i].role != Tool)
    ensures
      var v := w[..i] + Drop(aside) + w[i..];
      && (i == |w| ==> v == At(w, i, aside))
      && (i < |w| ==> At(v, i + |Drop(aside)| + 1, None) == At(w, i, aside))
      && (aside.None? ==> v == w)
  {
    var v := w[..i] + Drop(aside) + w[i..];
    var j := i + |Drop(aside)|;
    if i < |w| {
      var lists := CallLists(w[..i]);
      assert v[..j] == w[..i] + Drop(aside) && v[j] == w[i] && v[j + 1..] == w[i..][1..];
      assert v[..j + 1] == w[..i] + (Drop(aside) + [w[i]]);
      CallListsConcat(w[..i], Drop(aside) + [w[i]]);
      CallListsConcat(Drop(aside), [w[i]]);
      NoListsInDrop(aside);
      assert CallLists(v[..j + 1]) == lists + CallLists([w[i]]);
      Assoc(w[..i], Drop(aside) + [w[i]], Walk(lists + CallLists([w[i]]), None, w[i + 1..]));
    }
  }

  lemma {:induction false} NoListsInDrop(aside: Option<seq<Part>>)
    ensures CallLists(Drop(aside)) == []
  {
    if aside.Some? { assert Drop(aside)[1..] == []; }
  }

  lemma {:induction false} Assoc<T>(a: seq<T>, b: seq<T>, c: seq<T>)
    ensures a + b + c == a + (b + c)
  {
  }

  // --------------------------------------------------------- walk and runs

  /** What a run leaves aside. */
  function AsideAll(lists: seq<seq<ToolCall>>, aside: Option<seq<Part>>, run: seq<Entry>): Option<seq<Part>>
    decreases |run|
  {
    if run == [] then aside else AsideAll(lists, Aside(lists, aside, run[0]), run[1..])
  }

  lemma {:induction false} AsideAllIs(lists: seq<seq<ToolCall>>, aside: Option<seq<Part>>, run: seq<Entry>)
    ensures AsideAll(lists, aside, run) ==
            if aside.None? && !HasParts(run) then None
            else Some((if aside.None? then [] else aside.value) + MovedAll(lists, run))
    decreases |run|
  {
    if run != [] {
      AsideAllIs(lists, Aside(lists, aside, run[0]), run[1..]);
      HasPartsFront(run);
      var have := if aside.None? then [] else aside.value;
      Assoc(have, Moved(lists, run[0]), MovedAll(lists, run[1..]));
      assert have + [] == have;
      if !HasParts(run) { assert Moved(lists, run[0]) == []; }
    } else if aside.Some? {
      assert aside.value + [] == aside.value;
    }
  }

  lemma {:induction false} HasPartsFront(run: seq<Entry>)
    requires run != []
    ensures HasParts(run) <==> run[0].content.Parts? || HasParts(run[1..])
  {
    if HasParts(run) {
      var i :| 0 <= i < |run| && run[i].content.Parts?;
      if i > 0 { assert run[1..][i - 1].content.Parts?; }
    }
    if HasParts(run[1..]) {
      var i :| 0 <= i < |run[1..]| && run[1..][i].content.Parts?;
      assert run[i + 1].content.Parts?;
    }
  }

  lemma {:induction false} WalkRun(lists: seq<seq<ToolCall>>, aside: Option<seq<Part>>, run: seq<Entry>, rest: seq<Entry>)
    requires forall i | 0 <= i < |run| :: run[i].role == Tool
    ensures Walk(lists, aside, run + rest) == FlatAll(run) + Walk(lists, AsideAll(lists, aside, run), rest)
    decreases |run|
  {
    if run == [] {
      assert run + rest == rest;
    } else {
      RunFront(run, rest);
      WalkRun(lists, Aside(lists, aside, run[0]), run[1..], rest);
      Assoc([Flat(run[0])], FlatAll(run[1..]), Walk(lists, AsideAll(lists, aside, run), rest));
    }
  }

  lemma {:induction false} RunFront(run: seq<Entry>, rest: seq<Entry>)
    requires run != []
    ensures (run + rest)[0] == run[0] && (run + rest)[1..] == run[1..] + rest
    ensures FlatAll(run) == [Flat(run[0])] + FlatAll(run[1..])
  {
  }

  lemma {:induction false} WalkDrops(lists: seq<seq<ToolCall>>, aside: Option<seq<Part>>, w: seq<Entry>)
    requires w != [] ==> w[0].role != Tool
    ensures Walk(lists, aside, w) == Drop(aside) + Walk(lists, None, w)
  {
    assert Drop(aside) + [] == Drop(aside);
    if w != [] {
      var next := Walk(lists + CallLists([w[0]]), None, w[1..]);
      Assoc(Drop(aside), [w[0]], next);
      assert [] + [w[0]] + next == [w[0]] + next;
    }
  }

  /** Walking with images kept aside does what is said run by run. */
  lemma {:induction false} WalkIsCarried(lists: seq<seq<ToolCall>>, w: seq<Entry>)
    ensures Walk(lists, None, w) == Carried(lists, w)
    decreases |w|
  {
    if w == [] {
    } else if w[0].role == Tool {
      var k := RunOf(w);
      var run, rest := w[..k], w[k..];
      assert w == run + rest;
      WalkRun(lists, None, run, rest);
      AsideAllIs(lists, None, run);
      var aside := AsideAll(lists, None, run);
      assert [] + MovedAll(lists, run) == MovedAll(lists, run);
      WalkDrops(lists, aside, rest);
      WalkIsCarried(lists, rest);
      Assoc(FlatAll(run), Drop(aside), Carried(lists, rest));
    } else {
      WalkIsCarried(lists + CallLists([w[0]]), w[1..]);
      assert [] + [w[0]] == [w[0]];
    }
  }

  // ---------------------------------------------------------------- theorems

  lemma {:induction false} CarriedTools(lists: seq<seq<ToolCall>>, w: seq<Entry>)
    ensures forall m | m in Carried(lists, w) && m.role == Tool :: !m.content.Parts?
    decreases |w|
  {
    if w != [] {
      if w[0].role == Tool {
        CarriedTools(lists, w[RunOf(w)..]);
      } else {
        CarriedTools(lists + CallLists([w[0]]), w[1..]);
      }
    }
  }

  /** A request without tool parts is left as it is, so carrying twice is carrying once. */
  lemma {:induction false} CarriedIdle(lists: seq<seq<ToolCall>>, w: seq<Entry>)
    requires forall m | m in w && m.role == Tool :: !m.content.Parts?
    ensures Carried(lists, w) == w
    decreases |w|
  {
    if w != [] {
      if w[0].role == Tool {
        var k := RunOf(w);
        CarriedIdle(lists, w[k..]);
        assert FlatAll(w[..k]) == w[..k];
        assert w == w[..k] + w[k..];
        assert w[..k] + [] == w[..k];
      } else {
        CarriedIdle(lists + CallLists([w[0]]), w[1..]);
      }
    }
  }

  lemma {:induction false} CarryingTwice(lists: seq<seq<ToolCall>>, w: seq<Entry>)
    ensures Carried(lists, Carried(lists, w)) == Carried(lists, w)
  {
    CarriedTools(lists, w);
    CarriedIdle(lists, Carried(lists, w));
  }

  function ImageOf(p: Part): seq<Attachment> { if p.ImagePart? then [p.image] else [] }

  function ImagesIn(parts: seq<Part>): seq<Attachment> {
    if parts == [] then [] else ImageOf(parts[0]) + ImagesIn(parts[1..])
  }

  /** All images of a request, in the order the model reads them. */
  function Images(w: seq<Entry>): seq<Attachment> {
    if w == [] then [] else OwnImages(w[0]) + Images(w[1..])
  }

  function OwnImages(m: Entry): seq<Attachment> {
    if m.content.Parts? then ImagesIn(m.content.parts) else []
  }

  lemma {:induction false} ImagesInConcat(a: seq<Part>, b: seq<Part>)
    ensures ImagesIn(a + b) == ImagesIn(a) + ImagesIn(b)
  {
    if a == [] {
      assert a + b == b;
    } else {
      assert (a + b)[1..] == a[1..] + b;
      ImagesInConcat(a[1..], b);
      Assoc(ImageOf(a[0]), ImagesIn(a[1..]), ImagesIn(b));
    }
  }

  lemma {:induction false} ImagesConcat(a: seq<Entry>, b: seq<Entry>)
    ensures Images(a + b) == Images(a) + Images(b)
  {
    if a == [] {
      assert a + b == b;
    } else {
      assert (a + b)[1..] == a[1..] + b;
      ImagesConcat(a[1..], b);
      Assoc(OwnImages(a[0]), Images(a[1..]), Images(b));
    }
  }

  lemma {:induction false} LabelledImages(caption: Text, parts: seq<Part>)
    ensures ImagesIn(Labelled(caption, parts)) == ImagesIn(parts)
  {
    if parts != [] {
      LabelledImages(caption, parts[1..]);
      var front := if parts[0].ImagePart? then [TextPart(caption), parts[0]] else [];
      ImagesInConcat(front, Labelled(caption, parts[1..]));
      if parts[0].ImagePart? {
        assert front[1..] == [parts[0]] && [parts[0]][1..] == [];
        assert ImagesIn([parts[0]]) == [parts[0].image];
      }
    }
  }

  lemma {:induction false} MovedImages(lists: seq<seq<ToolCall>>, run: seq<Entry>)
    ensures ImagesIn(MovedAll(lists, run)) == Images(run)
  {
    if run != [] {
      MovedImages(lists, run[1..]);
      var m := run[0];
      ImagesInConcat(Moved(lists, m), MovedAll(lists, run[1..]));
      if m.content.Parts? { LabelledImages(Label(NearestName(lists, m.callId), m.callId), m.content.parts); }
    }
  }

  lemma {:induction false} NoImages(w: seq<Entry>)
    requires forall i | 0 <= i < |w| :: !w[i].content.Parts?
    ensures Images(w) == []
  {
    if w != [] { NoImages(w[1..]); }
  }

  lemma {:induction false} RunImages(lists: seq<seq<ToolCall>>, run: seq<Entry>)
    requires forall i | 0 <= i < |run| :: run[i].role == Tool
    ensures Images(FlatAll(run) + Note(lists, run)) == Images(run)
  {
    NoImages(FlatAll(run));
    if HasParts(run) {
      var c := Carrier(MovedAll(lists, run));
      ImagesConcat(FlatAll(run), [c]);
      MovedImages(lists, run);
      assert [c][1..] == [] && ImagesIn(c.content.parts) + [] == ImagesIn(c.content.parts);
    } else {
      NoImages(run);
      assert FlatAll(run) + [] == FlatAll(run);
    }
  }

  /** No image is lost, doubled or reordered. */
  lemma {:induction false} ImagesConserved(lists: seq<seq<ToolCall>>, w: seq<Entry>)
    ensures Images(Carried(lists, w)) == Images(w)
    decreases |w|
  {
    if w == [] {
    } else if w[0].role == Tool {
      var k := RunOf(w);
      ImagesConserved(lists, w[k..]);
      RunConserved(lists, w[..k], w[k..]);
      Halves(w, k);
    } else {
      ImagesConserved(lists + CallLists([w[0]]), w[1..]);
      PlainConserved(w, Carried(lists + CallLists([w[0]]), w[1..]));
    }
  }

  lemma {:induction false} Halves<T>(w: seq<T>, k: nat)
    requires k <= |w|
    ensures w == w[..k] + w[k..]
  {
  }

  lemma {:induction false} PlainConserved(w: seq<Entry>, rest: seq<Entry>)
    requires w != [] && Images(rest) == Images(w[1..])
    ensures Images([w[0]] + rest) == Images(w)
  {
    assert ([w[0]] + rest)[1..] == rest;
  }

  lemma {:induction false} RunConserved(lists: seq<seq<ToolCall>>, run: seq<Entry>, rest: seq<Entry>)
    requires forall i | 0 <= i < |run| :: run[i].role == Tool
    requires Images(Carried(lists, rest)) == Images(rest)
    ensures Images(FlatAll(run) + Note(lists, run) + Carried(lists, rest)) == Images(run + rest)
  {
    RunImages(lists, run);
    ImagesConcat(FlatAll(run) + Note(lists, run), Carried(lists, rest));
    ImagesConcat(run, rest);
  }

  /** The pairing of an entry array, as Messages.Paired sees it. */
  function Shadow(w: seq<Entry>): (h: seq<Message>)
    ensures |h| == |w|
  {
    seq(|w|, i requires 0 <= i < |w| => Message(w[i].role, Null, w[i].calls, w[i].callId, None, []))
  }

  lemma {:induction false} ShadowSlice(w: seq<Entry>, i: nat, j: nat)
    requires i <= j <= |w|
    ensures Shadow(w)[i..j] == Shadow(w[i..j])
    ensures j == |w| ==> Shadow(w)[i..] == Shadow(w[i..])
  {
    assert forall k | 0 <= k < j - i :: Shadow(w)[i..j][k] == Shadow(w[i..j])[k];
  }

  lemma {:induction false} ShadowConcat(a: seq<Entry>, b: seq<Entry>)
    ensures Shadow(a + b) == Shadow(a) + Shadow(b)
  {
    forall k | 0 <= k < |a| + |b| ensures Shadow(a + b)[k] == (Shadow(a) + Shadow(b))[k] { }
  }

  lemma {:induction false} ShadowFlat(run: seq<Entry>)
    ensures Shadow(FlatAll(run)) == Shadow(run)
  {
    forall k | 0 <= k < |run| ensures Shadow(FlatAll(run))[k] == Shadow(run)[k] { }
  }

  lemma {:induction false} RunOfShadow(w: seq<Entry>)
    ensures RunOf(w) == RunLen(Shadow(w))
  {
    if w != [] && w[0].role == Tool {
      RunOfShadow(w[1..]);
      assert Shadow(w)[1..] == Shadow(w[1..]);
    }
  }

  /** One exchange of a paired array: carrying keeps its head and run and may add one user message. */
  lemma {:induction false} CarriedExchange(lists: seq<seq<ToolCall>>, w: seq<Entry>)
    requires w != [] && IsHead(Shadow(w)[0]) && Paired(Shadow(w))
    ensures
      var k := RunOf(w[1..]);
      var run := w[1..1 + k];
      var known := lists + CallLists([w[0]]);
      && k > 0 && ResultIds(Shadow(run)) == IdsOf(w[0].calls) && Paired(Shadow(w[1 + k..]))
      && Carried(lists, w) == [w[0]] + (FlatAll(run) + Note(known, run) + Carried(known, w[1 + k..]))
  {
    var t := w[1..];
    var k := RunOf(t);
    RunOfShadow(t);
    HeadIsAnswered(Shadow(w));
    ShadowSlice(w, 1, |w|);
    ShadowSlice(w, 1, 1 + k);
    ShadowSlice(w, 1 + k, |w|);
    CarriedAtHead(lists, w);
  }

  lemma {:induction false} CarriedAtHead(lists: seq<seq<ToolCall>>, w: seq<Entry>)
    requires w != [] && w[0].role != Tool && RunOf(w[1..]) > 0
    ensures
      var k := RunOf(w[1..]);
      var run := w[1..1 + k];
      var known := lists + CallLists([w[0]]);
      Carried(lists, w) == [w[0]] + (FlatAll(run) + Note(known, run) + Carried(known, w[1 + k..]))
  {
    var t := w[1..];
    var k := RunOf(t);
    assert t[..k] == w[1..1 + k] && t[k..] == w[1 + k..];
  }

  lemma {:induction false} PairedRest(w: seq<Entry>)
    requires w != [] && Paired(Shadow(w)) && !IsHead(Shadow(w)[0])
    ensures w[0].role != Tool && Paired(Shadow(w[1..]))
  {
    assert Shadow(w)[1..] == Shadow(w[1..]);
  }

  /** Carrying keeps pairing: the run stays whole behind its head, images come after it. */
  lemma {:induction false} CarriedKeepsPairing(lists: seq<seq<ToolCall>>, w: seq<Entry>)
    requires Paired(Shadow(w))
    ensures Paired(Shadow(Carried(lists, w)))
    decreases |w|
  {
    if w == [] {
    } else if IsHead(Shadow(w)[0]) {
      CarriedExchange(lists, w);
      var run := w[1..1 + RunOf(w[1..])];
      var known := lists + CallLists([w[0]]);
      var rest := Carried(known, w[1 + |run|..]);
      CarriedKeepsPairing(known, w[1 + |run|..]);
      NoteInFront(Note(known, run), rest);
      RunTools(w);
      ExchangeInFront(w[0], run, Note(known, run) + rest);
      Assoc(FlatAll(run), Note(known, run), rest);
    } else {
      PairedRest(w);
      CarriedKeepsPairing(lists + CallLists([w[0]]), w[1..]);
      var rest := Carried(lists + CallLists([w[0]]), w[1..]);
      PairedPlain(Shadow(w)[0], Shadow(rest));
      assert Shadow([w[0]] + rest) == [Shadow(w)[0]] + Shadow(rest);
    }
  }

  lemma {:induction false} NoteInFront(note: seq<Entry>, rest: seq<Entry>)
    requires Paired(Shadow(rest)) && (note == [] || (|note| == 1 && note[0].role == User))
    ensures Paired(Shadow(note + rest))
  {
    if note == [] {
      assert note + rest == rest;
    } else {
      PairedPlain(Shadow(note)[0], Shadow(rest));
      assert Shadow(note + rest) == [Shadow(note)[0]] + Shadow(rest);
    }
  }

  lemma {:induction false} RunTools(w: seq<Entry>)
    requires w != []
    ensures forall m | m in w[1..1 + RunOf(w[1..])] :: m.role == Tool
  {
    assert w[1..][..RunOf(w[1..])] == w[1..1 + RunOf(w[1..])];
  }

  lemma {:induction false} ExchangeInFront(head: Entry, run: seq<Entry>, rest: seq<Entry>)
    requires head.role == Assistant && head.calls != [] && ResultIds(Shadow(run)) == IdsOf(head.calls)
    requires (forall m | m in run :: m.role == Tool) && Paired(Shadow(rest))
    ensures Paired(Shadow([head] + (FlatAll(run) + rest)))
  {
    var h := Shadow([head])[0];
    PairedExchange(h, Shadow(run), Shadow(rest));
    ShadowConcat(FlatAll(run), rest);
    ShadowFlat(run);
    ShadowConcat([head], FlatAll(run) + rest);
    assert Shadow([head]) == [h];
    Assoc([h], Shadow(run), Shadow(rest));
  }

  lemma {:induction false} CanonicalShadow(h: seq<Message>)
    requires Paired(h)
    ensures Paired(Shadow(Canonical(h)))
    decreases |h|
  {
    if h == [] {
    } else if IsHead(h[0]) {
      HeadIsAnswered(h);
      CanonicalShadow(h[1 + RunLen(h[1..])..]);
      CanonicalExchange(h, RunLen(h[1..]));
    } else {
      CanonicalShadow(h[1..]);
      CanonicalSlices(h, 0);
      PairedPlain(Shadow(Canonical(h))[0], Shadow(Canonical(h[1..])));
    }
  }

  lemma {:induction false} CanonicalSlices(h: seq<Message>, k: nat)
    requires k < |h|
    ensures
      var s := Shadow(Canonical(h));
      && s == [s[0]] + s[1..1 + k] + Shadow(Canonical(h[1 + k..]))
      && (k == 0 ==> s == [s[0]] + Shadow(Canonical(h[1..])))
  {
  }

  lemma {:induction false} CanonicalExchange(h: seq<Message>, k: nat)
    requires k < |h| && IsHead(h[0]) && AllTools(h[1..1 + k]) && ResultIds(h[1..1 + k]) == IdsOf(h[0].calls)
    requires Paired(Shadow(Canonical(h[1 + k..])))
    ensures Paired(Shadow(Canonical(h)))
  {
    var s := Shadow(Canonical(h));
    CanonicalSlices(h, k);
    var a, b := h[1..1 + k], s[1..1 + k];
    forall i | 0 <= i < k ensures a[i].role == b[i].role == Tool && a[i].callId == b[i].callId {
      assert b[i] == s[1 + i] && a[i] == h[1 + i];
    }
    SameIds(a, b);
    PairedExchange(s[0], b, Shadow(Canonical(h[1 + k..])));
  }

  lemma {:induction false} SameIds(a: seq<Message>, b: seq<Message>)
    requires |a| == |b| && forall i | 0 <= i < |a| :: a[i].role == b[i].role == Tool && a[i].callId == b[i].callId
    ensures ResultIds(a) == ResultIds(b)
  {
    if a != [] { SameIds(a[1..], b[1..]); }
  }

  /** Every result has some content. */
  ghost predicate Present(w: seq<Entry>) { forall m | m in w && m.role == Tool :: !m.content.Absent? }

  lemma {:induction false} PresentConcat(a: seq<Entry>, b: seq<Entry>)
    ensures Present(a + b) <==> Present(a) && Present(b)
  {
  }

  lemma {:induction false} PresentFlat(run: seq<Entry>)
    ensures Present(FlatAll(run)) <==> Present(run)
  {
    forall i | 0 <= i < |run| ensures FlatAll(run)[i].content.Absent? <==> run[i].content.Absent? { }
    forall i | 0 <= i < |run| ensures FlatAll(run)[i].role == run[i].role { }
    if Present(FlatAll(run)) {
      forall i | 0 <= i < |run| && run[i].role == Tool ensures !run[i].content.Absent? { assert FlatAll(run)[i] in FlatAll(run); }
    }
  }

  lemma {:induction false} PresentRun(lists: seq<seq<ToolCall>>, w: seq<Entry>, rest: seq<Entry>, k: nat)
    requires k <= |w| && (Present(rest) <==> Present(w[k..]))
    ensures Present(FlatAll(w[..k]) + Note(lists, w[..k]) + rest) <==> Present(w)
  {
    PresentFlat(w[..k]);
    PresentConcat(FlatAll(w[..k]), Note(lists, w[..k]));
    PresentConcat(FlatAll(w[..k]) + Note(lists, w[..k]), rest);
    assert w == w[..k] + w[k..];
    PresentConcat(w[..k], w[k..]);
  }

  /** Carrying neither gives a result content nor takes it away. */
  lemma {:induction false} CarriedPresent(lists: seq<seq<ToolCall>>, w: seq<Entry>)
    ensures Present(Carried(lists, w)) <==> Present(w)
    decreases |w|
  {
    if w != [] {
      if w[0].role == Tool {
        var k := RunOf(w);
        CarriedPresent(lists, w[k..]);
        PresentRun(lists, w, Carried(lists, w[k..]), k);
      } else {
        CarriedPresent(lists + CallLists([w[0]]), w[1..]);
        assert w == [w[0]] + w[1..];
        PresentConcat([w[0]], w[1..]);
        PresentConcat([w[0]], Carried(lists + CallLists([w[0]]), w[1..]));
      }
    }
  }

  /** Every stored result has text or images. */
  ghost predicate ResultsPresent(h: seq<Message>) {
    forall m | m in h && m.role == Tool :: !m.content.Null? || m.attachments != []
  }

  lemma {:induction false} CanonicalPresent(h: seq<Message>)
    ensures Present(Canonical(h)) <==> ResultsPresent(h)
  {
    var w := Canonical(h);
    if Present(w) {
      forall m | m in h && m.role == Tool ensures !m.content.Null? || m.attachments != [] {
        var i :| 0 <= i < |h| && h[i] == m;
        assert w[i] in w;
      }
    }
    if ResultsPresent(h) {
      forall e | e in w && e.role == Tool ensures !e.content.Absent? {
        var i :| 0 <= i < |w| && w[i] == e;
        assert h[i] in h;
      }
    }
  }

  /**
    What carry_tool_images makes of the messages of a paired history: still paired,
    with all its images, and with string content for every result, but for results
    stored with neither text nor images.
   */
  lemma {:induction false} RequestKeepsPairing(h: seq<Message>)
    requires Paired(h)
    ensures
      var w := Carried([], Canonical(h));
      && Paired(Shadow(w)) && Images(w) == Images(Canonical(h))
      && (forall m | m in w && m.role == Tool :: !m.content.Parts?)
      && ((forall m | m in w && m.role == Tool :: m.content.Str?) <==> ResultsPresent(h))
  {
    CanonicalShadow(h);
    CarriedKeepsPairing([], Canonical(h));
    ImagesConserved([], Canonical(h));
    CarriedTools([], Canonical(h));
    CarriedPresent([], Canonical(h));
    CanonicalPresent(h);
    StringsIffPresent(Carried([], Canonical(h)));
  }

  lemma {:induction false} StringsIffPresent(w: seq<Entry>)
    requires forall m | m in w && m.role == Tool :: !m.content.Parts?
    ensures (forall m | m in w && m.role == Tool :: m.content.Str?) <==> Present(w)
  {
  }

  /** A moved image is labelled with the name of the very call it answers. */
  lemma {:induction false} LabelNamesTheCall(lists: seq<seq<ToolCall>>, calls: seq<ToolCall>, id: string)
    requires calls != [] && id in IdsOf(calls)
    ensures NearestName(lists + [calls], id).Some?
    ensures exists c :: c in calls && c.id == id && NearestName(lists + [calls], id) == Some(c.name)
  {
    assert (lists + [calls])[..|lists|] == lists;
    NameOfCall(calls, id);
  }

  lemma {:induction false} NameOfCall(calls: seq<ToolCall>, id: string)
    requires id in IdsOf(calls)
    ensures exists c :: c in calls && c.id == id && CallNamed(calls, id) == Some(c.name)
  {
    if calls[0].id == id {
      assert calls[0] in calls;
    } else {
      NameOfCall(calls[1..], id);
      var c :| c in calls[1..] && c.id == id && CallNamed(calls[1..], id) == Some(c.name);
      assert c in calls;
    }
  }
}
