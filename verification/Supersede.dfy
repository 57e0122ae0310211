/**
  Replacing stale results of a volatile tool by a stub. Only results before the
  newest batch head are touched, so calls and results stay paired.
 */
module Supersede {
  import opened Wrappers
  import opened Utf8
  import opened Messages

  /** The bytes a C string comparison sees. */
  function CStr(s: seq<bv8>): seq<bv8> {
    if s == [] || s[0] == 0 then [] else [s[0]] + CStr(s[1..])
  }

  /** Index of the newest call message, or |h|. */
  function NewestHead(h: seq<Message>): (i: nat)
    ensures i <= |h|
    ensures i < |h| ==> IsHead(h[i]) && forall j | i < j < |h| :: !IsHead(h[j])
    ensures i == |h| ==> forall j | 0 <= j < |h| :: !IsHead(h[j])
  {
    if h == [] then 0
    else if IsHead(h[|h| - 1]) then |h| - 1
    else
      var i := NewestHead(h[..|h| - 1]);
      if i == |h| - 1 then |h| else i
  }

  predicate IsStub(m: Message, stub: seq<bv8>) { m.content.Plain? && CStr(m.content.bytes) == stub }

  /** A result the pass rewrites. */
  predicate Stale(m: Message, name: string, stub: seq<bv8>) {
    m.role == Tool && m.toolName == Some(name) && !IsStub(m, stub)
  }

  ghost function Stubbed(m: Message, stub: seq<bv8>): Message {
    m.(content := Stored(Some(stub), NoCompressor), attachments := [])
  }

  ghost function Superseded(h: seq<Message>, name: string, stub: seq<bv8>): (h': seq<Message>)
    ensures |h'| == |h|
  {
    seq(|h|, i requires 0 <= i < |h| =>
      if i < NewestHead(h) && Stale(h[i], name, stub) then Stubbed(h[i], stub) else h[i])
  }

  /** How many results a pass rewrites. */
  function StaleCount(h: seq<Message>, name: string, stub: seq<bv8>): nat {
    if h == [] then 0 else (if Stale(h[0], name, stub) then 1 else 0) + StaleCount(h[1..], name, stub)
  }

  /** Same roles, calls and ids: all that pairing looks at. */
  ghost predicate SameShape(a: seq<Message>, b: seq<Message>) {
    |a| == |b| &&
    forall i | 0 <= i < |a| :: a[i].role == b[i].role && a[i].calls == b[i].calls && a[i].callId == b[i].callId
  }

  lemma {:induction false} ShapeRun(a: seq<Message>, b: seq<Message>)
    requires SameShape(a, b)
    ensures RunLen(a) == RunLen(b) && ResultIds(a) == ResultIds(b)
  {
    if a != [] { ShapeRun(a[1..], b[1..]); }
  }

  lemma {:induction false} ShapeSlice(a: seq<Message>, b: seq<Message>, i: nat, j: nat)
    requires SameShape(a, b) && i <= j <= |a|
    ensures SameShape(a[i..j], b[i..j]) && SameShape(a[i..], b[i..])
  {
  }

  lemma {:induction false} ShapePairing(a: seq<Message>, b: seq<Message>)
    requires SameShape(a, b) && Paired(a)
    ensures Paired(b)
    decreases |a|
  {
    if a != [] {
      ShapeSlice(a, b, 1, |a|);
      ShapeRun(a[1..], b[1..]);
      if IsHead(a[0]) {
        var e := 1 + RunLen(a[1..]);
        ShapeSlice(a, b, 1, e);
        ShapeRun(a[1..e], b[1..e]);
        ShapeSlice(a, b, e, e);
        ShapePairing(a[e..], b[e..]);
      } else {
        ShapePairing(a[1..], b[1..]);
      }
    }
  }

  lemma {:induction false} NewestHeadShape(a: seq<Message>, b: seq<Message>)
    requires SameShape(a, b)
    ensures NewestHead(a) == NewestHead(b)
    decreases |a|
  {
    if a != [] && !IsHead(a[|a| - 1]) {
      var n := |a| - 1;
      assert SameShape(a[..n], b[..n]);
      NewestHeadShape(a[..n], b[..n]);
    }
  }

  /** Superseding keeps the pairing and the newest batch head. */
  lemma {:induction false} SupersedeKeeps(h: seq<Message>, name: string, stub: seq<bv8>)
    ensures Paired(Superseded(h, name, stub)) <==> Paired(h)
    ensures NewestHead(Superseded(h, name, stub)) == NewestHead(h)
  {
    var h' := Superseded(h, name, stub);
    if Paired(h) { ShapePairing(h, h'); }
    if Paired(h') { ShapePairing(h', h); }
    NewestHeadShape(h', h);
  }

  /** Everything from the newest head on, and every message that is no result of the tool, stays as it is. */
  lemma {:induction false} SupersedeTouchesOnly(h: seq<Message>, name: string, stub: seq<bv8>, i: nat)
    requires i < |h|
    requires i >= NewestHead(h) || h[i].role != Tool || h[i].toolName != Some(name)
    ensures Superseded(h, name, stub)[i] == h[i]
  {
  }

  /** A result the pass rewrites holds the stub and no attachments, and still answers its call. */
  lemma {:induction false} StaleBecomesStub(h: seq<Message>, name: string, stub: seq<bv8>, i: nat)
    requires i < NewestHead(h) && h[i].role == Tool && h[i].toolName == Some(name) && !IsStub(h[i], stub)
    ensures Superseded(h, name, stub)[i] == Message(Tool, Plain(KeptText(stub)), h[i].calls, h[i].callId, Some(name), [])
  {
  }

  /** A result that shows the stub already is left as it is, attachments and all. */
  lemma {:induction false} StubIsLeft(h: seq<Message>, name: string, stub: seq<bv8>, i: nat)
    requires i < |h| && IsStub(h[i], stub)
    ensures Superseded(h, name, stub)[i] == h[i]
  {
  }

  lemma {:induction false} StaleCountSpec(h: seq<Message>, name: string, stub: seq<bv8>)
    ensures StaleCount(h, name, stub) == 0 <==> forall m | m in h :: !Stale(m, name, stub)
  {
    if h != [] {
      StaleCountSpec(h[1..], name, stub);
      assert forall m :: m in h <==> m == h[0] || m in h[1..];
    }
  }

  /**
    A second pass finds nothing to do exactly when the stub survives storage as it
    is, or there was no result to rewrite in the first place.
   */
  lemma {:induction false} SupersedeIdle(h: seq<Message>, name: string, stub: seq<bv8>)
    ensures var h' := Superseded(h, name, stub); var n := NewestHead(h);
            StaleCount(h'[..n], name, stub) == 0 <==>
            (CStr(KeptText(stub)) == stub || StaleCount(h[..n], name, stub) == 0)
  {
    StaleCountAt(Superseded(h, name, stub), NewestHead(h), name, stub);
    StaleCountAt(h, NewestHead(h), name, stub);
    forall i: nat | i < NewestHead(h)
      ensures Stale(Superseded(h, name, stub)[i], name, stub) <==>
              Stale(h[i], name, stub) && CStr(KeptText(stub)) != stub
    {
    }
  }

  lemma {:induction false} StaleCountAt(h: seq<Message>, n: nat, name: string, stub: seq<bv8>)
    requires n <= |h|
    ensures StaleCount(h[..n], name, stub) == 0 <==> forall i: nat | i < n :: !Stale(h[i], name, stub)
  {
    StaleCountSpec(h[..n], name, stub);
    forall i: nat | i < n ensures h[i] in h[..n] { assert h[..n][i] == h[i]; }
  }

  /** A result of the tool t, then the newest exchange head. */
  function StubProbe(): seq<Message> {
    [Message(Tool, Null, [], "1", Some("t"), []), Message(Assistant, Null, [ToolCall("2", "t", "{}")], "", None, [])]
  }

  /** The stub of one bad byte is stored as three, so every pass rewrites the result again. */
  lemma {:induction false} StubNeverSettles()
    ensures StaleCount(StubProbe()[..1], "t", [0xFF]) == 1
    ensures NewestHead(StubProbe()) == 1
    ensures StaleCount(Superseded(StubProbe(), "t", [0xFF])[..1], "t", [0xFF]) != 0
  {
    var h, stub: seq<bv8> := StubProbe(), [0xFF];
    assert h[..1] == [h[0]] && h[..1][1..] == [];
    BadByteStored();
    SupersedeIdle(h, "t", stub);
  }

  lemma {:induction false} BadByteStored()
    ensures CStr(KeptText([0xFF])) != [0xFF]
  {
    var s: seq<bv8> := [0xFF];
    assert s[1..] == [];
    assert Utf8Seq(s) == 0;
    assert Repaired(s) == REPLACEMENT + Repaired(s[1..]);
    assert KeptText(s)[0] == 0xEF;
  }

  lemma {:induction false} CStrNoNul(s: seq<bv8>)
    ensures (forall i | 0 <= i < |s| :: s[i] != 0) <==> CStr(s) == s
  {
    if s != [] { CStrNoNul(s[1..]); }
  }

  /** A well-formed stub without a NUL that fits survives storage. */
  lemma {:induction false} StubSurvives(stub: seq<bv8>)
    requires WellFormed(stub) && |stub| <= MAX_CONTENT && forall i | 0 <= i < |stub| :: stub[i] != 0
    ensures CStr(KeptText(stub)) == stub
  {
    KeptTextWellFormed(stub);
    CStrNoNul(stub);
  }
}
