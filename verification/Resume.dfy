/**
  Where turns, batches and sessions begin and end: what a restored log puts into the
  history, what a clear leaves, and which mode the agent is in afterwards.
 */
module Resume {
  import opened Wrappers
  import opened Messages
  import opened BatchSpec
  import opened Conversation
  import opened Transcript
  import S = Supersede
  import Repair

  // ------------------------------------------------------ what is taken over

  /** Message i of the log, if no system message, stands behind those of the ones before it. */
  lemma {:induction false} NoSystemAt(h: seq<Message>, i: nat)
    requires i < |h| && h[i].role != System
    ensures |OfRole(h[..i], System)| <= i
    ensures var k := i - |OfRole(h[..i], System)|; k < |NoSystem(h)| && NoSystem(h)[k] == h[i]
  {
    if i == 0 {
      assert h[..0] == [];
    } else {
      NoSystemAt(h[1..], i - 1);
      assert h[..i][1..] == h[1..][..i - 1];
    }
  }

  lemma {:induction false} NoSystemLen(h: seq<Message>)
    ensures |NoSystem(h)| + |OfRole(h, System)| == |h|
  {
    if h != [] { NoSystemLen(h[1..]); }
  }

  /** A log whose calls are all answered is taken over message by message, system messages aside. */
  lemma {:induction false} LogIsTakenOver(saved: seq<Message>, i: nat)
    requires Paired(saved) && i < |saved| && saved[i].role != System
    ensures |Restored(saved)| == |saved| - |OfRole(saved, System)| && |OfRole(saved[..i], System)| <= i
    ensures var k := i - |OfRole(saved[..i], System)|; k < |Restored(saved)| && Restored(saved)[k] == saved[i]
  {
    WholeLog(saved);
    NoSystemAt(saved, i);
    NoSystemLen(saved);
  }

  lemma {:induction false} WholeLog(saved: seq<Message>)
    requires Paired(saved)
    ensures Restored(saved) == NoSystem(saved)
  {
    PairedIsAnswered(saved);
    Repair.FixedIdleIffAnswered(saved);
  }

  lemma {:induction false} NoSystemRole(h: seq<Message>, role: Role)
    ensures OfRole(NoSystem(h), role) == if role == System then [] else OfRole(h, role)
  {
    if h != [] {
      var own := if h[0].role == System then [] else [h[0]];
      NoSystemRole(h[1..], role);
      OfRoleConcat(own, NoSystem(h[1..]), role);
      OfRoleOne(h[0], role);
    }
  }

  lemma {:induction false} NonToolRole(h: seq<Message>, role: Role)
    requires role != Tool
    ensures OfRole(Repair.NonTool(h), role) == OfRole(h, role)
  {
    if h != [] {
      var own := if h[0].role == Tool then [] else [h[0]];
      NonToolRole(h[1..], role);
      assert Repair.NonTool(h) == own + Repair.NonTool(h[1..]);
      OfRoleConcat(own, Repair.NonTool(h[1..]), role);
      OfRoleOne(h[0], role);
    }
  }

  /** Whatever the repair had to do, prompts and replies come back in order, and no system message does. */
  lemma {:induction false} RestoredRole(saved: seq<Message>, role: Role)
    requires role != Tool
    ensures OfRole(Restored(saved), role) == if role == System then [] else OfRole(saved, role)
  {
    NoSystemRole(Repair.Fixed(saved).msgs, role);
    Repair.FixedKeepsOrder(saved);
    NonToolRole(saved, role);
    NonToolRole(Repair.Fixed(saved).msgs, role);
  }

  // ------------------------------------------------------- volatile results

  predicate Volatile(name: string, volatile: seq<(string, seq<bv8>)>) {
    exists k | 0 <= k < |volatile| :: volatile[k].0 == name
  }

  /** What is no stale result of a volatile tool stays as it is. */
  lemma {:induction false} RestKept(h: seq<Message>, volatile: seq<(string, seq<bv8>)>, i: nat)
    requires i < |h|
    requires i >= S.NewestHead(h) || h[i].role != Tool || h[i].toolName.None? || !Volatile(h[i].toolName.value, volatile)
    ensures |SupersedeAll(h, volatile)| == |h| && SupersedeAll(h, volatile)[i] == h[i]
    ensures S.NewestHead(SupersedeAll(h, volatile)) == S.NewestHead(h)
    decreases |volatile|
  {
    if volatile != [] {
      var g := S.Superseded(h, volatile[0].0, volatile[0].1);
      S.SupersedeKeeps(h, volatile[0].0, volatile[0].1);
      S.SupersedeTouchesOnly(h, volatile[0].0, volatile[0].1, i);
      assert forall k | 0 <= k < |volatile| - 1 :: volatile[1..][k] == volatile[k + 1];
      RestKept(g, volatile[1..], i);
    }
  }

  /** One pass: a result of the tool before the newest head is the stub afterwards, and keeps its place and id. */
  lemma {:induction false} StubLands(h: seq<Message>, i: nat, name: string, stub: seq<bv8>, pass: string, text: seq<bv8>)
    requires i < S.NewestHead(h) && h[i].role == Tool && h[i].toolName == Some(name)
    requires pass == name ==> text == stub && S.CStr(KeptText(stub)) == stub
    ensures
      var g := S.Superseded(h, pass, text);
      && i < |g| == |h| && i < S.NewestHead(g) && g[i].role == Tool && g[i].toolName == Some(name) && g[i].callId == h[i].callId
      && (pass == name || S.IsStub(h[i], stub) ==> S.IsStub(g[i], stub))
  {
    S.SupersedeKeeps(h, pass, text);
  }

  /** Before the newest head, every result of a volatile tool is left as its stub. */
  lemma {:induction false} StaleAreStubs(h: seq<Message>, volatile: seq<(string, seq<bv8>)>, i: nat, name: string, stub: seq<bv8>)
    requires i < S.NewestHead(h) && h[i].role == Tool && h[i].toolName == Some(name)
    requires forall k | 0 <= k < |volatile| && volatile[k].0 == name :: volatile[k].1 == stub
    requires S.CStr(KeptText(stub)) == stub && (Volatile(name, volatile) || S.IsStub(h[i], stub))
    ensures i < |SupersedeAll(h, volatile)| == |h|
    ensures var m := SupersedeAll(h, volatile)[i]; S.IsStub(m, stub) && m.role == Tool && m.callId == h[i].callId
    decreases |volatile|
  {
    if volatile != [] {
      var more := volatile[1..];
      StubLands(h, i, name, stub, volatile[0].0, volatile[0].1);
      assert forall k | 0 <= k < |more| :: more[k] == volatile[k + 1];
      if k :| 0 <= k < |volatile| && volatile[k].0 == name {
        assert k == 0 || more[k - 1].0 == name;
      }
      StaleAreStubs(S.Superseded(h, volatile[0].0, volatile[0].1), more, i, name, stub);
    }
  }

  // ------------------------------------------------------- whole operations

  lemma {:induction false} SupersedeAllRole(h: seq<Message>, volatile: seq<(string, seq<bv8>)>, role: Role)
    requires role != Tool
    ensures OfRole(SupersedeAll(h, volatile), role) == OfRole(h, role)
    decreases |volatile|
  {
    if volatile != [] {
      SupersededKeeps(h, volatile[0].0, volatile[0].1, role);
      SupersedeAllRole(S.Superseded(h, volatile[0].0, volatile[0].1), volatile[1..], role);
    }
  }

  /** Restoring adds the prompts and replies of the log behind what is there; it starts nothing. */
  lemma {:induction false} RestoreAdds(p: Policy, a: Agent, act: Action, cz: Compressor, role: Role)
    requires act.Restore? && Can(p, a, act) && role != Tool
    ensures
      var b := Does(p, a, act, cz);
      && OfRole(b.history, role) == OfRole(a.history, role) + (if role == System then [] else OfRole(act.saved, role))
      && b.mode == a.mode && b.queued == a.queued && b.batch == a.batch
  {
    SupersedeAllRole(a.history + Restored(act.saved), act.volatile, role);
    OfRoleConcat(a.history, Restored(act.saved), role);
    RestoredRole(act.saved, role);
  }

  /** A clear and a restore switch to another conversation: its messages in order, behind the new prompt. */
  lemma {:induction false} ClearThenRestore(p: Policy, a: Agent, system: Content, saved: seq<Message>, cz: Compressor, i: nat)
    requires a.mode == Idle && Paired(saved) && i < |saved| && saved[i].role != System
    ensures
      var acts := [Clear(system), Restore(saved, [])];
      && Plays(p, a, acts, cz)
      && var h := Played(p, a, acts, cz).history;
         var k := 1 + i - |OfRole(saved[..i], System)|;
         && 1 <= k < |h| == 1 + |saved| - |OfRole(saved, System)|
         && h[0].role == System && h[0].content == system && h[k] == saved[i]
  {
    var b := Does(p, a, Clear(system), cz);
    var c := Does(p, b, Restore(saved, []), cz);
    TwoActions(p, a, b, c, Clear(system), Restore(saved, []), cz);
    LogIsTakenOver(saved, i);
    assert c.history == b.history + Restored(saved);
  }

  lemma {:induction false} TwoActions(p: Policy, a: Agent, b: Agent, c: Agent, x: Action, y: Action, cz: Compressor)
    requires Can(p, a, x) && Does(p, a, x, cz) == b && Can(p, b, y) && Does(p, b, y, cz) == c
    ensures Plays(p, a, [x, y], cz) && Played(p, a, [x, y], cz) == c
  {
    var acts := [x, y];
    assert acts[1..] == [y] && [y][1..] == [];
    assert Plays(p, c, [], cz) && Played(p, c, [], cz) == c;
    assert Plays(p, b, [y], cz) && Played(p, b, [y], cz) == c;
  }

  // -------------------------------------------------- turns and their batches

  /** A turn ends in an agent that can be asked again, unless there is something to go on with. */
  lemma {:induction false} TurnEnds(p: Policy, a: Agent, act: Action, cz: Compressor)
    requires Can(p, a, act) && (act.ReplyText? || act.ReplyFailed? || act.CompactDone?)
    ensures var b := Does(p, a, act, cz);
            && (b.mode == Idle <==> a.queued.None? && act.end.Rests?) && b.queued.None? && b.batch == a.batch
            && (b.mode == Idle ==> b.history == a.history + Replied(act))
  {
    assert a.history + [] == a.history;
  }

  /** A reply with calls starts a batch of just these calls behind its head. */
  lemma {:induction false} BatchStarts(p: Policy, a: Agent, act: Action, cz: Compressor)
    requires act.ReplyCalls? && Can(p, a, act)
    ensures
      var b := Does(p, a, act, cz);
      && b.mode == Tooling && b.queued == a.queued && b.history == a.history + [Message(Assistant, Null, act.calls, "", None, [])]
      && b.batch.Some? && b.batch.value.at == |a.history| && Begun(b.batch.value.state)
      && b.batch.value.state.remembered == act.remembered && |b.batch.value.state.calls| == |act.calls|
      && forall i | 0 <= i < |act.calls| ::
           b.batch.value.state.calls[i].id == act.calls[i].id && b.batch.value.state.calls[i].name == act.calls[i].name
  {
  }

  /** When the last call is done the turn goes on with another model call, or ends. */
  lemma {:induction false} BatchEnds(p: Policy, a: Agent, act: Action, cz: Compressor)
    requires act.ToolEvent? && Can(p, a, act)
    ensures
      var b := Does(p, a, act, cz);
      if Next(p, a.batch.value.state, act.e).ends == 0 then
        b.mode == a.mode && b.queued == a.queued && b.batch.Some? && b.batch.value.at == a.batch.value.at
        && b.batch.value.state == Next(p, a.batch.value.state, act.e) && b.history == Written(p, a, act)
      else
        && b.batch.None?
        && (act.goOn ==> b.mode == Thinking && b.queued == a.queued && b.history == Written(p, a, act))
        && (!act.goOn ==> b.queued.None? && (b.mode == Idle <==> a.queued.None? && act.end.Rests?))
        && (!act.goOn && b.mode == Idle ==> b.history == Written(p, a, act))
  {
  }

  /** Asking for a compaction makes an idle agent busy and changes nothing else. */
  lemma {:induction false} CompactionStarts(p: Policy, a: Agent, cz: Compressor)
    ensures
      var b := Does(p, a, DoCompact, cz);
      b.mode == (if a.mode == Idle then Thinking else a.mode)
      && b.history == a.history && b.queued == a.queued && b.batch == a.batch
  {
  }
}
