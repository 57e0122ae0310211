/**
  The chat completions API, whose chunks are canonical as they come: what a stream
  of them adds up to, and that it agrees with the whole reply.
 */
module ChatStream {
  import opened Wrappers
  import opened Messages
  import opened Stream

  /** One event: the message of an error it reports, if any, and what it is as a chunk. */
  datatype Event = Event(error: Option<string>, chunk: Chunk)

  /** No normalize_stream_event: a chunk is merged as it is. */
  function Chat(parse: string -> Option<Event>): Provider<Event, ()> {
    Provider(parse, (e: Event) => e.error, (e: Event, s: ()) => (Some(e.chunk), s))
  }

  const START: Turn<()> := Turn("", Assembly("", [], None, None), ())

  // ------------------------------------------------------- what events say

  function Texts(es: seq<Event>): string {
    if es == [] then "" else (if es[0].chunk.choice then Val(es[0].chunk.text) else "") + Texts(es[1..])
  }

  function Deltas(es: seq<Event>): seq<(nat, ToolDelta)> {
    if es == [] then [] else (if es[0].chunk.choice then Placed(es[0].chunk.tools, 0) else []) + Deltas(es[1..])
  }

  /** Event i names a finish reason, and no later one does. */
  ghost predicate FinishesLast(es: seq<Event>, i: nat) {
    i < |es| && es[i].chunk.choice && es[i].chunk.finish.Some?
    && forall j | i < j < |es| :: !es[j].chunk.choice || es[j].chunk.finish.None?
  }

  ghost predicate NeverFinishes(es: seq<Event>) {
    forall i | 0 <= i < |es| :: !es[i].chunk.choice || es[i].chunk.finish.None?
  }

  /** Event i counts usage, and no later one does. */
  ghost predicate CountsLast(es: seq<Event>, i: nat) {
    i < |es| && es[i].chunk.usage.Some? && forall j | i < j < |es| :: es[j].chunk.usage.None?
  }

  ghost predicate Fails(es: seq<Event>) {
    exists i :: 0 <= i < |es| && (es[i].error.Some? || (es[i].chunk.choice && es[i].chunk.error.Some?))
  }

  // ------------------------------------------------------- what they add up to

  lemma {:induction false} TakeOne(parse: string -> Option<Event>, t: Turn<()>, e: Event)
    ensures
      var v := TakeEvent(Chat(parse), t, e);
      && v.asm.text == t.asm.text + (if e.chunk.choice then Val(e.chunk.text) else "")
      && v.asm.calls == MergeAll(t.asm.calls, if e.chunk.choice then Placed(e.chunk.tools, 0) else [])
      && v.asm.usage == (if e.chunk.usage.Some? then e.chunk.usage else t.asm.usage)
  {
    MergeFromPlaced(t.asm.calls, e.chunk.tools, 0);
    assert t.asm.text + "" == t.asm.text;
  }

  /** A finish reason replaces what was there; an error is the reason only while there is none. */
  lemma {:induction false} FinishOne(parse: string -> Option<Event>, t: Turn<()>, e: Event)
    ensures
      var v := TakeEvent(Chat(parse), t, e);
      v.asm.finish ==
        if e.chunk.choice && e.chunk.finish.Some? then e.chunk.finish
        else if t.asm.finish.None? && (e.error.Some? || (e.chunk.choice && e.chunk.error.Some?)) then Some("error")
        else t.asm.finish
  {
  }

  /** The text is that of the chunks in order, whatever came before. */
  lemma {:induction false} FoldText(parse: string -> Option<Event>, t: Turn<()>, es: seq<Event>)
    ensures FoldEvents(Chat(parse), t, es).asm.text == t.asm.text + Texts(es)
    decreases |es|
  {
    if es == [] {
      assert t.asm.text + "" == t.asm.text;
    } else {
      TakeOne(parse, t, es[0]);
      FoldText(parse, TakeEvent(Chat(parse), t, es[0]), es[1..]);
      Associative(t.asm.text, if es[0].chunk.choice then Val(es[0].chunk.text) else "", Texts(es[1..]));
    }
  }

  lemma {:induction false} FoldCalls(parse: string -> Option<Event>, t: Turn<()>, es: seq<Event>)
    ensures FoldEvents(Chat(parse), t, es).asm.calls == MergeAll(t.asm.calls, Deltas(es))
    decreases |es|
  {
    if es != [] {
      TakeOne(parse, t, es[0]);
      FoldCalls(parse, TakeEvent(Chat(parse), t, es[0]), es[1..]);
      MergeAllConcat(t.asm.calls, if es[0].chunk.choice then Placed(es[0].chunk.tools, 0) else [], Deltas(es[1..]));
    }
  }

  lemma {:induction false} FoldSplit(p: Provider<Event, ()>, t: Turn<()>, a: seq<Event>, b: seq<Event>)
    ensures FoldEvents(p, t, a + b) == FoldEvents(p, FoldEvents(p, t, a), b)
    decreases |a|
  {
    if a == [] {
      assert a + b == b;
    } else {
      assert (a + b)[1..] == a[1..] + b;
      FoldSplit(p, TakeEvent(p, t, a[0]), a[1..], b);
    }
  }

  lemma {:induction false} FoldAt(p: Provider<Event, ()>, t: Turn<()>, es: seq<Event>, i: nat)
    requires i < |es|
    ensures FoldEvents(p, t, es) == FoldEvents(p, TakeEvent(p, FoldEvents(p, t, es[..i]), es[i]), es[i + 1..])
  {
    FoldSplit(p, t, es[..i], es[i..]);
    assert es == es[..i] + es[i..];
    assert es[i..][1..] == es[i + 1..];
  }

  /** Without a finish reason in it, a stream leaves the one that is there. */
  lemma {:induction false} FinishStays(parse: string -> Option<Event>, t: Turn<()>, es: seq<Event>)
    requires NeverFinishes(es) && t.asm.finish.Some?
    ensures FoldEvents(Chat(parse), t, es).asm.finish == t.asm.finish
    decreases |es|
  {
    if es != [] {
      FinishOne(parse, t, es[0]);
      FinishStays(parse, TakeEvent(Chat(parse), t, es[0]), es[1..]);
    }
  }

  lemma {:induction false} UsageStays(parse: string -> Option<Event>, t: Turn<()>, es: seq<Event>)
    requires forall i | 0 <= i < |es| :: es[i].chunk.usage.None?
    ensures FoldEvents(Chat(parse), t, es).asm.usage == t.asm.usage
    decreases |es|
  {
    if es != [] {
      TakeOne(parse, t, es[0]);
      UsageStays(parse, TakeEvent(Chat(parse), t, es[0]), es[1..]);
    }
  }

  /** The last finish reason counts, errors or not. */
  lemma {:induction false} LastFinishCounts(parse: string -> Option<Event>, t: Turn<()>, es: seq<Event>, i: nat)
    requires FinishesLast(es, i)
    ensures FoldEvents(Chat(parse), t, es).asm.finish == es[i].chunk.finish
  {
    FoldAt(Chat(parse), t, es, i);
    FinishOne(parse, FoldEvents(Chat(parse), t, es[..i]), es[i]);
    assert NeverFinishes(es[i + 1..]);
    FinishStays(parse, TakeEvent(Chat(parse), FoldEvents(Chat(parse), t, es[..i]), es[i]), es[i + 1..]);
  }

  /** The last usage counts. */
  lemma {:induction false} LastUsageCounts(parse: string -> Option<Event>, t: Turn<()>, es: seq<Event>, i: nat)
    requires CountsLast(es, i)
    ensures FoldEvents(Chat(parse), t, es).asm.usage == es[i].chunk.usage
  {
    FoldAt(Chat(parse), t, es, i);
    TakeOne(parse, FoldEvents(Chat(parse), t, es[..i]), es[i]);
    UsageStays(parse, TakeEvent(Chat(parse), FoldEvents(Chat(parse), t, es[..i]), es[i]), es[i + 1..]);
  }

  /** A stream that names no reason of its own ends in an error exactly when one was reported. */
  lemma {:induction false} ErrorIsTheReason(parse: string -> Option<Event>, t: Turn<()>, es: seq<Event>)
    requires NeverFinishes(es) && t.asm.finish.None?
    ensures FoldEvents(Chat(parse), t, es).asm.finish == if Fails(es) then Some("error") else None
    decreases |es|
  {
    if es != [] {
      var v := TakeEvent(Chat(parse), t, es[0]);
      FinishOne(parse, t, es[0]);
      FailsFront(es);
      if v.asm.finish.Some? { FinishStays(parse, v, es[1..]); } else { ErrorIsTheReason(parse, v, es[1..]); }
    }
  }

  lemma {:induction false} FailsFront(es: seq<Event>)
    requires es != []
    ensures Fails(es) <==> es[0].error.Some? || (es[0].chunk.choice && es[0].chunk.error.Some?) || Fails(es[1..])
  {
    if i :| 0 <= i < |es| && (es[i].error.Some? || (es[i].chunk.choice && es[i].chunk.error.Some?)) {
      assert i == 0 || es[1..][i - 1] == es[i];
    }
    if i :| 0 <= i < |es[1..]| && (es[1..][i].error.Some? || (es[1..][i].chunk.choice && es[1..][i].chunk.error.Some?)) {
      assert es[i + 1] == es[1..][i];
    }
  }

  // ------------------------------------------------------------ a whole reply

  function CallParts(calls: seq<ToolCall>): seq<Part> {
    seq(|calls|, i requires 0 <= i < |calls| => Call(calls[i].id, calls[i].name, calls[i].args))
  }

  lemma {:induction false} CallsOfParts(calls: seq<ToolCall>)
    ensures WholeCalls(CallParts(calls)) == calls
  {
    if calls != [] {
      assert CallParts(calls)[1..] == CallParts(calls[1..]);
      CallsOfParts(calls[1..]);
    }
  }

  /** es streams r: its text in pieces, its calls announced and in fragments, and its reason and usage in some chunk. */
  ghost predicate Streams(es: seq<Event>, r: Canonical) {
    && Texts(es) == r.text && SendsCalls(Deltas(es), CallParts(r.calls))
    && (if r.finish.Some? then exists i: nat :: FinishesLast(es, i) && es[i].chunk.finish == r.finish
        else NeverFinishes(es) && !Fails(es))
    && (if r.usage.Some? then exists i: nat :: CountsLast(es, i) && es[i].chunk.usage == r.usage
        else forall i | 0 <= i < |es| :: es[i].chunk.usage.None?)
  }

  lemma {:induction false} FinishAgrees(parse: string -> Option<Event>, es: seq<Event>, r: Canonical)
    requires Streams(es, r)
    ensures FoldEvents(Chat(parse), START, es).asm.finish == r.finish
  {
    if r.finish.Some? {
      var i: nat :| FinishesLast(es, i) && es[i].chunk.finish == r.finish;
      LastFinishCounts(parse, START, es, i);
    } else {
      ErrorIsTheReason(parse, START, es);
    }
  }

  lemma {:induction false} UsageAgrees(parse: string -> Option<Event>, es: seq<Event>, r: Canonical)
    requires Streams(es, r)
    ensures FoldEvents(Chat(parse), START, es).asm.usage == r.usage
  {
    if r.usage.Some? {
      var i: nat :| CountsLast(es, i) && es[i].chunk.usage == r.usage;
      LastUsageCounts(parse, START, es, i);
    } else {
      UsageStays(parse, START, es);
    }
  }

  /** The assembled stream equals the whole reply, for any splitting and interleaving. */
  lemma {:induction false} StreamEqualsWhole(parse: string -> Option<Event>, es: seq<Event>, r: Canonical)
    requires Streams(es, r)
    ensures Outcome(FoldEvents(Chat(parse), START, es).asm) == r
  {
    FoldText(parse, START, es);
    assert "" + Texts(es) == Texts(es);
    FoldCalls(parse, START, es);
    SentCalls(Deltas(es), CallParts(r.calls));
    CallsOfParts(r.calls);
    FinishAgrees(parse, es, r);
    UsageAgrees(parse, es, r);
  }

  /** And that for any chopping of the bytes that carry the payloads of the events, among other lines. */
  lemma {:induction false} BytesEqualWhole(parse: string -> Option<Event>, lines: seq<WireLine>, pieces: seq<string>, r: Canonical)
    requires (forall l | l in lines :: Proper(l)) && Flat(pieces) == Unlines(PrintAll(lines))
    requires Streams(Meant(parse, lines), r)
    ensures Outcome(FeedPieces(Chat(parse), START, pieces).asm) == r
  {
    FeedPrinted(Chat(parse), START, lines, pieces);
    StreamEqualsWhole(parse, Meant(parse, lines), r);
  }
}
