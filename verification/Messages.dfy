/** Options and the message store's small shared vocabulary. */
module Wrappers {
  datatype Option<+T> = None | Some(value: T)
}

/**
  Conversation messages: how content is stored, what a message costs, and the
  pairing of tool calls with their results that every other part relies on.
 */
module Messages {
  import opened Wrappers
  import opened Utf8

  datatype Role = System | User | Assistant | Tool

  datatype ToolCall = ToolCall(id: string, name: string, args: string)

  datatype Attachment = Attachment(mediaType: string, data: seq<bv8>)

  /** Stored content: absent, plain bytes, or bytes a compressor produced. */
  datatype Content = Null | Plain(bytes: seq<bv8>) | Packed(bytes: seq<bv8>) {
    function Len(): nat { if Null? then 0 else |bytes| }
  }

  datatype Message = Message(
    role: Role,
    content: Content,
    calls: seq<ToolCall>,
    callId: string,
    toolName: Option<string>,
    attachments: seq<Attachment>)

  /** An optional content compressor; a failed attempt yields None. */
  datatype Compressor = NoCompressor | Compressor(minLen: nat, write: seq<bv8> -> Option<seq<bv8>>)

  // --------------------------------------------------------------- content

  /** The text of content that is kept: repaired, then cut to 64 KiB - 1. */
  ghost function KeptText(content: seq<bv8>): seq<bv8> {
    var r := Repaired(content);
    if |r| > MAX_CONTENT then r[..CutBack(r, MAX_CONTENT)] else r
  }

  ghost function Stored(content: Option<seq<bv8>>, cz: Compressor): Content {
    if content.None? then Null
    else
      var t := KeptText(content.value);
      if cz.Compressor? && |t| >= cz.minLen then
        var p := cz.write(t);
        if p.Some? && |p.value| < |t| && |p.value| <= MAX_CONTENT then Packed(p.value) else Plain(t)
      else Plain(t)
  }

  /** message_set_content_len. */
  method StoreContent(content: Option<seq<bv8>>, cz: Compressor) returns (c: Content)
    ensures c == Stored(content, cz)
  {
    if content.None? {
      return Null;
    }
    var text := content.value;
    BadZeroIffWellFormed(text);
    var out, n := Utf8Repair(text);
    if out != null {
      text := out[..n];
    }
    if |text| > MAX_CONTENT {
      // Cut on a character boundary, not inside one.
      var len := MAX_CONTENT;
      MaskFacts(text[len]);
      while len > 0 && (text[len] & 0xC0) == 0x80
        invariant 0 <= len <= MAX_CONTENT
        invariant (text[len] & 0xC0) == 0x80 <==> IsTail(text[len])
        invariant CutBack(text, len) == CutBack(text, MAX_CONTENT)
      {
        len := len - 1;
        MaskFacts(text[len]);
      }
      text := text[..len];
    }
    if cz.Compressor? && |text| >= cz.minLen {
      var p := cz.write(text);
      if p.Some? && |p.value| < |text| && |p.value| <= MAX_CONTENT {
        return Packed(p.value);
      }
    }
    return Plain(text);
  }

  /**
    What is kept is well formed and fits 16 bits; a cut costs at most three
    bytes, and well-formed content that fits is kept as it is.
   */
  lemma {:induction false} KeptTextWellFormed(content: seq<bv8>)
    ensures WellFormed(KeptText(content)) && |KeptText(content)| <= MAX_CONTENT
    ensures KeptText(content) <= Repaired(content)
    ensures |Repaired(content)| > MAX_CONTENT ==> |KeptText(content)| >= MAX_CONTENT - 3
    ensures WellFormed(content) && |content| <= MAX_CONTENT ==> KeptText(content) == content
    ensures WellFormed(content) ==> |KeptText(content)| <= |content|
  {
    var r := Repaired(content);
    RepairedWellFormed(content);
    BadZeroIffWellFormed(content);
    if |r| > MAX_CONTENT { CutBackOnBoundary(r, MAX_CONTENT); }
  }

  /** What a reader of the message sees; read undoes the compressor. */
  function ReadOut(c: Content, read: seq<bv8> -> Option<seq<bv8>>): Option<seq<bv8>> {
    match c
    case Null => None
    case Plain(t) => Some(t)
    case Packed(t) => read(t)
  }

  /** Compression is never seen: what was kept is what is read. */
  lemma {:induction false} StoredReadsBack(content: seq<bv8>, cz: Compressor, read: seq<bv8> -> Option<seq<bv8>>)
    requires cz.Compressor? ==> forall t | cz.write(t).Some? :: read(cz.write(t).value) == Some(t)
    ensures ReadOut(Stored(Some(content), cz), read) == Some(KeptText(content))
  {
  }

  /** And the shorter of the two forms is stored, for text the compressor takes. */
  lemma {:induction false} ShorterIsStored(content: seq<bv8>, cz: Compressor)
    ensures
      var t := KeptText(content);
      Stored(Some(content), cz).Len() ==
        if cz.Compressor? && |t| >= cz.minLen && cz.write(t).Some? && |cz.write(t).value| <= |t| then |cz.write(t).value|
        else |t|
  {
    KeptTextWellFormed(content);
  }

  /** The bytes of an ASCII text. */
  function Ascii(s: string): seq<bv8> {
    seq(|s|, i requires 0 <= i < |s| => (s[i] as int % 128) as bv8)
  }

  lemma {:induction false} LowBytesWellFormed(s: seq<bv8>)
    requires forall i | 0 <= i < |s| :: s[i] < 0x80
    ensures WellFormed(s)
  {
    if s != [] {
      assert |s[..1]| == 1 && s[..1][0] == s[0];
      LowBytesWellFormed(s[1..]);
    }
  }

  /** The engine's own texts are stored as they are. */
  lemma {:induction false} AsciiIsKept(s: string)
    requires |s| <= MAX_CONTENT
    ensures Stored(Some(Ascii(s)), NoCompressor) == Plain(Ascii(s))
  {
    LowBytesWellFormed(Ascii(s));
    KeptTextWellFormed(Ascii(s));
  }

  // ------------------------------------------------------------------ size

  function CallBytes(calls: seq<ToolCall>): nat {
    if calls == [] then 0 else |calls[0].name| + |calls[0].args| + 48 + CallBytes(calls[1..])
  }

  /** message_bytes: content plus scaffolding plus the calls hanging off it. */
  function MessageBytes(m: Message): nat { m.content.Len() + 32 + CallBytes(m.calls) }

  function Bytes(h: seq<Message>): nat {
    if h == [] then 0 else MessageBytes(h[0]) + Bytes(h[1..])
  }

  lemma {:induction false} CallBytesConcat(a: seq<ToolCall>, b: seq<ToolCall>)
    ensures CallBytes(a + b) == CallBytes(a) + CallBytes(b)
  {
    if a == [] {
      assert a + b == b;
    } else {
      assert (a + b)[1..] == a[1..] + b;
      CallBytesConcat(a[1..], b);
    }
  }

  /** One more call costs its name, its arguments and 48; one more byte of content costs one. */
  lemma {:induction false} WhatItCosts(m: Message, c: ToolCall, text: seq<bv8>, b: bv8)
    ensures MessageBytes(m.(calls := m.calls + [c])) == MessageBytes(m) + |c.name| + |c.args| + 48
    ensures MessageBytes(m.(content := Plain(text + [b]))) == MessageBytes(m.(content := Plain(text))) + 1
    ensures MessageBytes(m.(content := Null, calls := [])) == 32
  {
    CallBytesConcat(m.calls, [c]);
    assert [c][1..] == [];
  }

  lemma {:induction false} BytesConcat(a: seq<Message>, b: seq<Message>)
    ensures Bytes(a + b) == Bytes(a) + Bytes(b)
  {
    if a == [] {
      assert a + b == b;
    } else {
      assert (a + b)[1..] == a[1..] + b;
      BytesConcat(a[1..], b);
    }
  }

  lemma {:induction false} BytesSplit(h: seq<Message>, i: nat)
    requires i <= |h|
    ensures Bytes(h) == Bytes(h[..i]) + Bytes(h[i..])
  {
    assert h == h[..i] + h[i..];
    BytesConcat(h[..i], h[i..]);
  }

  lemma {:induction false} BytesFront(h: seq<Message>, i: nat)
    requires i < |h|
    ensures Bytes(h[i..]) == MessageBytes(h[i]) + Bytes(h[i + 1..])
  {
    assert h[i..][1..] == h[i + 1..];
  }

  // --------------------------------------------------------------- pairing

  predicate IsHead(m: Message) { m.role == Assistant && m.calls != [] }

  /** A message the history may be cut at: a user turn or a tool exchange head. */
  predicate IsCutPoint(m: Message) { m.role == User || IsHead(m) }

  /** Length of the run of tool messages h starts with. */
  function RunLen(h: seq<Message>): (n: nat)
    ensures n <= |h|
  {
    if h == [] || h[0].role != Tool then 0 else 1 + RunLen(h[1..])
  }

  function ResultIds(h: seq<Message>): multiset<string> {
    if h == [] then multiset{}
    else (if h[0].role == Tool then multiset{h[0].callId} else multiset{}) + ResultIds(h[1..])
  }

  function IdsOf(calls: seq<ToolCall>): multiset<string> {
    if calls == [] then multiset{} else multiset{calls[0].id} + IdsOf(calls[1..])
  }

  /**
    Each assistant call message is followed directly by tool results whose ids
    are a permutation of its call ids, and there are no other tool results.
   */
  ghost predicate Paired(h: seq<Message>)
    decreases |h|
  {
    h == [] ||
    if IsHead(h[0]) then
      var k := RunLen(h[1..]);
      ResultIds(h[1..1 + k]) == IdsOf(h[0].calls) && Paired(h[1 + k..])
    else h[0].role != Tool && Paired(h[1..])
  }

  /** The results in run answer every one of calls. */
  ghost predicate Covers(run: seq<Message>, calls: seq<ToolCall>) {
    forall c | c in calls :: c.id in ResultIds(run)
  }

  /** Every call is answered in the run directly after its head (extra results allowed). */
  ghost predicate Answered(h: seq<Message>)
    decreases |h|
  {
    h == [] ||
    ((IsHead(h[0]) ==> Covers(h[1..1 + RunLen(h[1..])], h[0].calls)) && Answered(h[1..]))
  }

  lemma {:induction false} RunLenSpec(h: seq<Message>)
    ensures forall i | 0 <= i < RunLen(h) :: h[i].role == Tool
    ensures RunLen(h) < |h| ==> h[RunLen(h)].role != Tool
  {
    if h != [] && h[0].role == Tool { RunLenSpec(h[1..]); }
  }

  lemma {:induction false} RunLenConcat(a: seq<Message>, b: seq<Message>)
    ensures RunLen(a) < |a| ==> RunLen(a + b) == RunLen(a)
    ensures RunLen(a) == |a| ==> RunLen(a + b) == |a| + RunLen(b)
  {
    if a == [] {
      assert a + b == b;
    } else {
      assert (a + b)[1..] == a[1..] + b;
      RunLenConcat(a[1..], b);
    }
  }

  lemma {:induction false} ResultIdsConcat(a: seq<Message>, b: seq<Message>)
    ensures ResultIds(a + b) == ResultIds(a) + ResultIds(b)
  {
    if a == [] {
      assert a + b == b;
    } else {
      assert (a + b)[1..] == a[1..] + b;
      ResultIdsConcat(a[1..], b);
    }
  }

  lemma {:induction false} IdsOfContains(calls: seq<ToolCall>, id: string)
    ensures id in IdsOf(calls) <==> exists c :: c in calls && c.id == id
  {
    if calls != [] { IdsOfContains(calls[1..], id); }
  }

  /** A paired history has every call answered. */
  lemma {:induction false} PairedIsAnswered(h: seq<Message>)
    requires Paired(h)
    ensures Answered(h)
    decreases |h|
  {
    if h != [] {
      if IsHead(h[0]) {
        var k := RunLen(h[1..]);
        PairedIsAnswered(h[1 + k..]);
        RunLenSpec(h[1..]);
        ToolRunAnswered(h[1..], k);
        assert h[1..][k..] == h[1 + k..];
        forall c | c in h[0].calls ensures c.id in IdsOf(h[0].calls) { IdsOfContains(h[0].calls, c.id); }
      } else {
        PairedIsAnswered(h[1..]);
      }
    }
  }

  lemma {:induction false} ToolRunAnswered(h: seq<Message>, k: nat)
    requires k <= |h| && (forall i | 0 <= i < k :: h[i].role == Tool)
    requires Answered(h[k..])
    ensures Answered(h)
    decreases k
  {
    if k == 0 {
      assert h[0..] == h;
    } else {
      assert h[1..][k - 1..] == h[k..];
      ToolRunAnswered(h[1..], k - 1);
    }
  }

  /** Paired pieces join into a paired whole, unless the second starts with a stray result. */
  lemma {:induction false} PairedConcat(a: seq<Message>, b: seq<Message>)
    requires Paired(a) && Paired(b)
    ensures Paired(a + b)
    decreases |a|
  {
    if a == [] {
      assert a + b == b;
    } else if IsHead(a[0]) {
      HeadIsAnswered(a);
      var k := RunLen(a[1..]);
      PairedConcat(a[1 + k..], b);
      PairedExchange(a[0], a[1..1 + k], a[1 + k..] + b);
      FrontConcat(a, b, k);
    } else {
      PairedConcat(a[1..], b);
      PairedPlain(a[0], a[1..] + b);
      FrontConcat(a, b, 0);
    }
  }

  lemma {:induction false} FrontConcat<T>(a: seq<T>, b: seq<T>, k: nat)
    requires k < |a|
    ensures a + b == [a[0]] + a[1..1 + k] + (a[1 + k..] + b)
    ensures k == 0 ==> a + b == [a[0]] + (a[1..] + b)
  {
  }

  lemma {:induction false} PairedNoLeadingTool(b: seq<Message>)
    requires Paired(b)
    ensures RunLen(b) == 0
  {
  }

  ghost predicate AllTools(run: seq<Message>) { forall i | 0 <= i < |run| :: run[i].role == Tool }

  lemma {:induction false} RunLenAll(run: seq<Message>)
    requires AllTools(run)
    ensures RunLen(run) == |run|
  {
    RunLenSpec(run);
  }

  /** One whole exchange in front of a paired history. */
  lemma {:induction false} PairedExchange(head: Message, run: seq<Message>, rest: seq<Message>)
    requires IsHead(head) && AllTools(run) && ResultIds(run) == IdsOf(head.calls)
    requires Paired(rest)
    ensures Paired([head] + run + rest)
  {
    var h := [head] + run + rest;
    assert h[1..] == run + rest;
    RunLenAll(run);
    RunLenConcat(run, rest);
    PairedNoLeadingTool(rest);
    assert h[1..1 + |run|] == run && h[1 + |run|..] == rest;
  }

  /** The exchange a paired history opens with; a non-tool message lies beyond it. */
  lemma {:induction false} FirstExchange(h: seq<Message>, i: nat) returns (e: nat)
    requires Paired(h) && h != [] && IsHead(h[0])
    requires 1 <= i <= |h| && (i < |h| ==> h[i].role != Tool)
    ensures 1 <= e <= i
    ensures AllTools(h[1..e]) && ResultIds(h[1..e]) == IdsOf(h[0].calls) && Paired(h[e..])
  {
    var t := h[1..];
    e := 1 + RunLen(t);
    RunLenSpec(t);
    forall j | 1 <= j < e ensures h[j].role == Tool { assert t[j - 1] == h[j]; }
    assert h[1..e] == t[..e - 1];
  }

  lemma {:induction false} PairedPlain(m: Message, rest: seq<Message>)
    requires !IsHead(m) && m.role != Tool && Paired(rest)
    ensures Paired([m] + rest)
  {
    assert ([m] + rest)[1..] == rest;
  }

  lemma {:induction false} SliceFacts<T>(h: seq<T>, e: nat, i: nat)
    requires 1 <= e <= i <= |h|
    ensures h[..i] == [h[0]] + h[1..e] + h[e..][..i - e]
    ensures h[i..] == h[e..][i - e..]
    ensures i < |h| ==> h[i] == h[e..][i - e]
  {
  }

  /** A paired history splits at any message that is not a tool result. */
  lemma {:induction false} PairedSplit(h: seq<Message>, i: nat)
    requires Paired(h) && i <= |h| && (i < |h| ==> h[i].role != Tool)
    ensures Paired(h[..i]) && Paired(h[i..])
    decreases |h|
  {
    if i == 0 {
      assert h[0..] == h;
    } else {
      var e := 1;
      if IsHead(h[0]) { e := FirstExchange(h, i); }
      SliceFacts(h, e, i);
      PairedSplit(h[e..], i - e);
      if IsHead(h[0]) {
        PairedExchange(h[0], h[1..e], h[e..][..i - e]);
      } else {
        PairedPlain(h[0], h[1..][..i - 1]);
        assert [h[0]] + h[1..1] == [h[0]];
      }
    }
  }

  /** The first exchange of a paired history, and that it is one. */
  lemma {:induction false} HeadIsAnswered(h: seq<Message>)
    requires Paired(h) && h != [] && IsHead(h[0])
    ensures RunLen(h[1..]) > 0 && AllTools(h[1..1 + RunLen(h[1..])])
    ensures ResultIds(h[1..1 + RunLen(h[1..])]) == IdsOf(h[0].calls)
    ensures Paired(h[1 + RunLen(h[1..])..])
  {
    var t := h[1..];
    var k := RunLen(t);
    RunLenSpec(t);
    assert forall j | 0 <= j < k :: h[1..1 + k][j] == t[j];
    assert h[0].calls[0].id in IdsOf(h[0].calls);
    var run := h[1..1 + k];
    assert run == [] ==> ResultIds(run) == multiset{};
  }
}
