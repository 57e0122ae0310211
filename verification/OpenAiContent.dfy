/**
  Nothing of a conversation is lost on its way to the chat-completions API: every
  message is there in order with its text, images and calls, every result with its
  text, and only the messages that carry moved images are added.
 */
module OpenAiContent {
  import opened Wrappers
  import opened Messages
  import opened Wire
  import opened OpenAiWire

  function Results(w: seq<Entry>): seq<Entry> {
    if w == [] then [] else (if w[0].role == Tool then [w[0]] else []) + Results(w[1..])
  }

  function Others(w: seq<Entry>): seq<Entry> {
    if w == [] then [] else (if w[0].role == Tool then [] else [w[0]]) + Others(w[1..])
  }

  function ResultsOf(h: seq<Message>): seq<Message> {
    if h == [] then [] else (if h[0].role == Tool then [h[0]] else []) + ResultsOf(h[1..])
  }

  function OthersOf(h: seq<Message>): seq<Message> {
    if h == [] then [] else (if h[0].role == Tool then [] else [h[0]]) + OthersOf(h[1..])
  }

  lemma {:induction false} PartedConcat(a: seq<Entry>, b: seq<Entry>)
    ensures Results(a + b) == Results(a) + Results(b) && Others(a + b) == Others(a) + Others(b)
    decreases |a|
  {
    if a == [] {
      assert a + b == b;
    } else {
      assert (a + b)[1..] == a[1..] + b;
      PartedConcat(a[1..], b);
      var own := [a[0]];
      Assoc(if a[0].role == Tool then own else [], Results(a[1..]), Results(b));
      Assoc(if a[0].role == Tool then [] else own, Others(a[1..]), Others(b));
    }
  }

  lemma {:induction false} AllResults(run: seq<Entry>)
    requires forall i | 0 <= i < |run| :: run[i].role == Tool
    ensures Results(run) == run && Others(run) == []
  {
    if run != [] { AllResults(run[1..]); }
  }

  lemma {:induction false} NoteIsOther(lists: seq<seq<ToolCall>>, run: seq<Entry>)
    ensures Results(Note(lists, run)) == [] && Others(Note(lists, run)) == Note(lists, run)
  {
    var n := Note(lists, run);
    if n != [] { assert n[1..] == []; }
  }

  // ----------------------------------------------------------------- results

  /** What is sent of a result's content: its text; for one of images only, a note that says so. */
  predicate ResultText(c: Payload, m: Message) {
    var text := if m.content.Null? then [] else m.content.bytes;
    if m.attachments == [] then (if m.content.Null? then c.Absent? else c == Str(text))
    else c == Str(if text == [] then Ascii("(image result)") else text)
  }

  lemma {:induction false} JoinImages(have: Option<Text>, images: seq<Attachment>)
    ensures JoinText(have, ImageParts(images)) == have
    decreases |images|
  {
    if images != [] {
      assert ImageParts(images)[1..] == ImageParts(images[1..]);
      JoinImages(have, images[1..]);
    }
  }

  lemma {:induction false} FlatKeepsText(m: Message)
    requires m.role == Tool
    ensures ResultText(Flat(Canonical([m])[0]).content, m)
    ensures Flat(Canonical([m])[0]).role == Tool && Flat(Canonical([m])[0]).callId == m.callId
  {
    if m.attachments != [] {
      var text := if m.content.Null? then [] else m.content.bytes;
      var ps := (if text == [] then [] else [TextPart(text)]) + ImageParts(m.attachments);
      if text == [] {
        assert ps == ImageParts(m.attachments);
        JoinImages(None, m.attachments);
      } else {
        assert ps[1..] == ImageParts(m.attachments);
        JoinImages(Some(text), m.attachments);
      }
    }
  }

  lemma {:induction false} CarriedResults(lists: seq<seq<ToolCall>>, w: seq<Entry>)
    ensures Results(Carried(lists, w)) == FlatAll(Results(w))
    decreases |w|
  {
    if w != [] {
      if w[0].role == Tool {
        var k := RunOf(w);
        CarriedResults(lists, w[k..]);
        RunResults(lists, w, k, Carried(lists, w[k..]));
      } else {
        var rest := Carried(lists + CallLists([w[0]]), w[1..]);
        CarriedResults(lists + CallLists([w[0]]), w[1..]);
        assert ([w[0]] + rest)[1..] == rest;
      }
    }
  }

  lemma {:induction false} RunResults(lists: seq<seq<ToolCall>>, w: seq<Entry>, k: nat, rest: seq<Entry>)
    requires k <= |w| && (forall i | 0 <= i < k :: w[i].role == Tool) && Results(rest) == FlatAll(Results(w[k..]))
    ensures Results(FlatAll(w[..k]) + Note(lists, w[..k]) + rest) == FlatAll(Results(w))
  {
    var run := w[..k];
    Halves(w, k);
    PartedConcat(run, w[k..]);
    AllResults(run);
    AllResults(FlatAll(run));
    NoteIsOther(lists, run);
    PartedConcat(FlatAll(run), Note(lists, run));
    PartedConcat(FlatAll(run) + Note(lists, run), rest);
    assert FlatAll(run) + [] == FlatAll(run);
    FlatConcat(run, Results(w[k..]));
  }

  lemma {:induction false} FlatConcat(a: seq<Entry>, b: seq<Entry>)
    ensures FlatAll(a + b) == FlatAll(a) + FlatAll(b)
  {
  }

  lemma {:induction false} CanonicalResults(h: seq<Message>)
    ensures |FlatAll(Results(Canonical(h)))| == |ResultsOf(h)|
    ensures forall i | 0 <= i < |ResultsOf(h)| ::
              var e := FlatAll(Results(Canonical(h)))[i];
              e.callId == ResultsOf(h)[i].callId && ResultText(e.content, ResultsOf(h)[i])
    decreases |h|
  {
    if h != [] {
      CanonicalResults(h[1..]);
      CanonicalFront(h);
      if h[0].role == Tool {
        FlatKeepsText(h[0]);
        FlatConcat([Canonical([h[0]])[0]], Results(Canonical(h[1..])));
      }
    }
  }

  lemma {:induction false} CanonicalFront(h: seq<Message>)
    requires h != []
    ensures Canonical(h)[0] == Canonical([h[0]])[0] && Canonical(h)[1..] == Canonical(h[1..])
  {
  }

  // ---------------------------------------------------------------- the rest

  /** e is message m as it is sent. */
  ghost predicate Sends(e: Entry, m: Message) {
    e.role == m.role && ReadPayload(e.content) == Stuff(m) && e.calls == if IsHead(m) then m.calls else []
  }

  /** es is the messages in order, with nothing but carriers of images between them. */
  ghost predicate Woven(ms: seq<Message>, es: seq<Entry>)
    decreases |es|
  {
    if es == [] then ms == []
    else
      || (ms != [] && Sends(es[0], ms[0]) && Woven(ms[1..], es[1..]))
      || (es[0].role == User && es[0].content.Parts? && es[0].calls == [] && Woven(ms, es[1..]))
  }

  lemma {:induction false} CarriedWoven(lists: seq<seq<ToolCall>>, h: seq<Message>)
    ensures Woven(OthersOf(h), Others(Carried(lists, Canonical(h))))
    decreases |h|
  {
    var w := Canonical(h);
    if h != [] {
      if w[0].role == Tool {
        var k := RunOf(w);
        CarriedWoven(lists, h[k..]);
        assert w[k..] == Canonical(h[k..]);
        assert forall i | 0 <= i < k :: h[i].role == w[i].role;
        RunOthers(lists, h, k, Carried(lists, w[k..]));
      } else {
        PayloadHolds(h[0]);
        CanonicalFront(h);
        CarriedWoven(lists + CallLists([w[0]]), h[1..]);
        var rest := Carried(lists + CallLists([w[0]]), w[1..]);
        assert ([w[0]] + rest)[1..] == rest;
        assert Others([w[0]] + rest) == [w[0]] + Others(rest);
        assert ([w[0]] + Others(rest))[1..] == Others(rest);
        assert OthersOf(h)[1..] == OthersOf(h[1..]);
      }
    }
  }

  lemma {:induction false} SkipResults(h: seq<Message>, k: nat)
    requires k <= |h| && forall i | 0 <= i < k :: h[i].role == Tool
    ensures OthersOf(h) == OthersOf(h[k..])
    decreases k
  {
    if k == 0 {
      assert h[0..] == h;
    } else {
      SkipResults(h[1..], k - 1);
      assert h[1..][k - 1..] == h[k..];
    }
  }

  lemma {:induction false} RunOthers(lists: seq<seq<ToolCall>>, h: seq<Message>, k: nat, rest: seq<Entry>)
    requires k <= |h| && (forall i | 0 <= i < k :: h[i].role == Tool) && Woven(OthersOf(h[k..]), Others(rest))
    ensures Woven(OthersOf(h), Others(FlatAll(Canonical(h)[..k]) + Note(lists, Canonical(h)[..k]) + rest))
  {
    var run := Canonical(h)[..k];
    SkipResults(h, k);
    AllResults(FlatAll(run));
    NoteIsOther(lists, run);
    PartedConcat(FlatAll(run), Note(lists, run));
    PartedConcat(FlatAll(run) + Note(lists, run), rest);
    NoteWoven(lists, run, OthersOf(h), Others(rest));
  }

  lemma {:induction false} NoteWoven(lists: seq<seq<ToolCall>>, run: seq<Entry>, ms: seq<Message>, es: seq<Entry>)
    requires Woven(ms, es)
    ensures Woven(ms, [] + Note(lists, run) + es)
  {
    var n := Note(lists, run);
    if n == [] {
      assert [] + n + es == es;
    } else {
      assert ([] + n + es)[1..] == es;
    }
  }

  /**
    For any history: the results are sent in order, each under its call's id and with
    its text; everything else is sent in order with text, images and calls; what is
    added are user messages with moved images, and none of those is lost either.
   */
  lemma {:induction false} NothingIsLost(h: seq<Message>)
    ensures
      var w := Carried([], Canonical(h));
      && |Results(w)| == |ResultsOf(h)|
      && (forall i | 0 <= i < |Results(w)| ::
            Results(w)[i].callId == ResultsOf(h)[i].callId && ResultText(Results(w)[i].content, ResultsOf(h)[i]))
      && Woven(OthersOf(h), Others(w))
      && Images(w) == Images(Canonical(h))
  {
    CarriedResults([], Canonical(h));
    CanonicalResults(h);
    CarriedWoven([], h);
    ImagesConserved([], Canonical(h));
  }
}
