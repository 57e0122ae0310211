/**
  The conversation history as the engine edits it: one list, changed in place.
  Each method is tied to the relation or function its module states.
 */
module History {
  import opened Wrappers
  import opened Utf8
  import opened Messages
  import Repair
  import C = Compaction
  import S = Supersede

  class Log {
    var msgs: seq<Message>

    constructor ()
      ensures msgs == []
    {
      msgs := [];
    }

    /** Append one message, its content stored the way every insertion does. */
    method Add(role: Role, content: Option<seq<bv8>>, callId: string, toolName: Option<string>, cz: Compressor)
      modifies this
      ensures msgs == old(msgs) + [Message(role, Stored(content, cz), [], callId, toolName, [])]
    {
      var c := StoreContent(content, cz);
      msgs := msgs + [Message(role, c, [], callId, toolName, [])];
    }

    // ---------------------------------------------------------------- repair

    /** tool_result_present: scan the run that starts at first. */
    method ResultPresent(first: nat, id: string) returns (found: bool)
      requires first <= |msgs|
      ensures found <==> Repair.Present(msgs[first..first + RunLen(msgs[first..])], id)
    {
      var scan := first;
      while scan < |msgs| && msgs[scan].role == Tool
        invariant first <= scan <= |msgs|
        invariant RunLen(msgs[first..]) == scan - first + RunLen(msgs[scan..])
        invariant forall m | m in msgs[first..scan] :: !Repair.Answers(m, id)
      {
        assert msgs[scan..][1..] == msgs[scan + 1..];
        if msgs[scan].callId == id {
          assert msgs[scan] in msgs[first..first + RunLen(msgs[first..])];
          return true;
        }
        assert msgs[first..scan + 1] == msgs[first..scan] + [msgs[scan]];
        scan := scan + 1;
      }
      return false;
    }

    /** tool_result_later: the first result for id at or after from. */
    method ResultLater(from: nat, id: string) returns (at: nat)
      requires from <= |msgs|
      ensures at == from + Repair.LateIndex(msgs[from..], id)
    {
      at := from;
      while at < |msgs|
        invariant from <= at <= |msgs|
        invariant at + Repair.LateIndex(msgs[at..], id) == from + Repair.LateIndex(msgs[from..], id)
      {
        assert msgs[at..][1..] == msgs[at + 1..];
        if msgs[at].role == Tool && msgs[at].callId == id {
          return;
        }
        at := at + 1;
      }
    }

    /**
      One call of the head whose run sits between pre and rest: find its result,
      move a late one up behind insertAfter, or make one up.
     */
    method AnswerOne(tc: ToolCall, next: nat, insertAfter: nat, ghost pre: seq<Message>, ghost run: seq<Message>,
                     ghost rest: seq<Message>, ghost live: bool) returns (repaired: bool)
      requires msgs == pre + run + rest && insertAfter == |pre| + |run|
      requires AllTools(run) && (rest != [] ==> rest[0].role != Tool)
      requires next == |pre| + if live then 0 else |run|
      modifies this
      ensures var p := Repair.Pick(run, rest, tc, live);
              && msgs == pre + p.run + p.rest
              && |p.run| == |run| + (if repaired then 1 else 0)
              && |p.moved| + |p.synth| == (if repaired then 1 else 0)
              && (p.rest != [] ==> p.rest[0].role != Tool)
    {
      RunAt(pre, run, rest, live, next);
      var present := ResultPresent(next, tc.id);
      if present {
        return false;
      }
      PlaceResult(tc, insertAfter, pre, run, rest);
      return true;
    }

    /** The same, with what the next call relies on. */
    method AnswerNext(tc: ToolCall, next: nat, insertAfter: nat, ghost pre: seq<Message>, ghost run: seq<Message>,
                      ghost rest: seq<Message>, ghost live: bool) returns (hit: bool)
      requires msgs == pre + run + rest && insertAfter == |pre| + |run|
      requires AllTools(run) && (rest != [] ==> rest[0].role != Tool)
      requires next == |pre| + if live then 0 else |run|
      modifies this
      ensures var p := Repair.Pick(run, rest, tc, live);
              && msgs == pre + p.run + p.rest && AllTools(p.run) && (p.rest != [] ==> p.rest[0].role != Tool)
              && |p.run| == |run| + (if hit then 1 else 0) && |p.moved| + |p.synth| == (if hit then 1 else 0)
    {
      Repair.PickKeeps(run, rest, tc, live);
      hit := AnswerOne(tc, next, insertAfter, pre, run, rest, live);
    }

    /** Give tc a result behind insertAfter: its own late one, or a made-up one. */
    method PlaceResult(tc: ToolCall, insertAfter: nat, ghost pre: seq<Message>, ghost run: seq<Message>, ghost rest: seq<Message>)
      requires msgs == pre + run + rest && insertAfter == |pre| + |run|
      requires rest != [] ==> rest[0].role != Tool
      modifies this
      ensures var j := Repair.LateIndex(rest, tc.id);
              if j < |rest| then
                msgs == pre + (run + [rest[j]]) + Repair.Without(rest, j)
                && (Repair.Without(rest, j) != [] ==> Repair.Without(rest, j)[0].role != Tool)
              else msgs == pre + (run + [Repair.Synth(tc)]) + rest
    {
      RunBehind(pre, run, rest);
      var late := ResultLater(insertAfter, tc.id);
      LateKeepsFront(rest, tc.id);
      if late < |msgs| {
        // A late result moves up next to its call.
        MoveBehind(insertAfter, late, pre, run, rest);
      } else {
        var content := StoreContent(Some(Ascii(Repair.MISSING)), NoCompressor);
        InsertBehind(insertAfter, Message(Tool, content, [], tc.id, Some(tc.name), []), pre, run, rest);
      }
    }

    static lemma {:induction false} LateKeepsFront(rest: seq<Message>, id: string)
      requires rest != [] ==> rest[0].role != Tool
      ensures var j := Repair.LateIndex(rest, id);
              j < |rest| ==> Repair.Without(rest, j)[0].role != Tool
    {
    }

    /** TAILQ_REMOVE of the message at late, then TAILQ_INSERT_AFTER the one before at. */
    method MoveBehind(at: nat, late: nat, ghost pre: seq<Message>, ghost run: seq<Message>, ghost rest: seq<Message>)
      requires msgs == pre + run + rest && at == |pre| + |run| <= late < |msgs|
      modifies this
      ensures msgs == pre + (run + [rest[late - at]]) + Repair.Without(rest, late - at)
    {
      var m := msgs[late];
      MoveUp(pre, run, rest, late - at);
      msgs := msgs[..late] + msgs[late + 1..];
      msgs := msgs[..at] + [m] + msgs[at..];
    }

    method InsertBehind(at: nat, m: Message, ghost pre: seq<Message>, ghost run: seq<Message>, ghost rest: seq<Message>)
      requires msgs == pre + run + rest && at == |pre| + |run|
      modifies this
      ensures msgs == pre + (run + [m]) + rest
    {
      RunBehind(pre, run, rest);
      msgs := msgs[..at] + [m] + msgs[at..];
      assert pre + run + [m] + rest == pre + (run + [m]) + rest;
    }

    static lemma {:induction false} RunBehind(pre: seq<Message>, run: seq<Message>, rest: seq<Message>)
      ensures var h := pre + run + rest; var at := |pre| + |run|; h[..at] == pre + run && h[at..] == rest
    {
    }

    /**
      Answer the calls of the head at i, whose run ends before e. next is where the
      walk goes on: the message that followed the head before anything was inserted.
     */
    method AnswerCalls(i: nat, e: nat) returns (next: nat, repaired: nat)
      requires i < e <= |msgs| && IsHead(msgs[i])
      requires e == i + 1 + RunLen(msgs[i + 1..])
      modifies this
      ensures var f := Repair.FillRun(old(msgs[i + 1..e]), old(msgs[e..]), old(msgs[i].calls), e > i + 1);
              && msgs == old(msgs[..i + 1]) + f.run + f.rest
              && repaired == |f.moved| + |f.synth|
              && next == i + 1 + if e > i + 1 then 0 else |f.run|
    {
      RunStart(msgs, i, e);
      next, repaired := AnswerRun(msgs[i].calls, i, e, msgs[..i + 1], msgs[i + 1..e], msgs[e..]);
    }

    /** The loop over the calls; first and others are the run and what follows it. */
    method AnswerRun(calls: seq<ToolCall>, i: nat, e: nat, ghost pre: seq<Message>, ghost first: seq<Message>,
                     ghost others: seq<Message>) returns (next: nat, repaired: nat)
      requires msgs == pre + first + others && |pre| == i + 1 && |first| == e - i - 1
      requires AllTools(first) && (others != [] ==> others[0].role != Tool)
      modifies this
      ensures var f := Repair.FillRun(first, others, calls, e > i + 1);
              && msgs == pre + f.run + f.rest
              && repaired == |f.moved| + |f.synth|
              && next == i + 1 + if e > i + 1 then 0 else |f.run|
    {
      var insertAfter := e;  // index behind the last result of the run
      next, repaired := i + 1, 0;
      ghost var run, rest := first, others;
      ghost var live := e > i + 1;
      ghost var goal := Repair.FillRun(run, rest, calls, live);
      var k := 0;
      assert calls[0..] == calls;
      while k < |calls|
        invariant 0 <= k <= |calls|
        invariant msgs == pre + run + rest && AllTools(run) && (rest != [] ==> rest[0].role != Tool)
        invariant insertAfter == i + 1 + |run| && next == i + 1 + if live then 0 else |run|
        invariant Ahead(goal, Repair.FillRun(run, rest, calls[k..], live), repaired)
      {
        AheadStep(goal, run, rest, calls, k, live, repaired);
        ghost var p := Repair.Pick(run, rest, calls[k], live);
        var hit := AnswerNext(calls[k], next, insertAfter, pre, run, rest, live);
        run, rest := p.run, p.rest;
        if hit {
          insertAfter := insertAfter + 1;
          if e == i + 1 {
            next := next + 1;
          }
          repaired := repaired + 1;
        }
        k := k + 1;
      }
      AheadDone(goal, run, rest, calls, live, repaired);
    }

    /** f still leads to goal after count repairs. */
    static ghost predicate Ahead(goal: Repair.Fill, f: Repair.Fill, count: nat) {
      goal.run == f.run && goal.rest == f.rest
      && |goal.moved| + |goal.synth| == count + |f.moved| + |f.synth|
    }

    /** Answering one more call keeps the walk on its way. */
    static lemma {:induction false} AheadStep(goal: Repair.Fill, run: seq<Message>, rest: seq<Message>,
                                              calls: seq<ToolCall>, k: nat, live: bool, count: nat)
      requires k < |calls| && Ahead(goal, Repair.FillRun(run, rest, calls[k..], live), count)
      ensures var p := Repair.Pick(run, rest, calls[k], live);
              Ahead(goal, Repair.FillRun(p.run, p.rest, calls[k + 1..], live), count + |p.moved| + |p.synth|)
    {
      assert calls[k..][0] == calls[k] && calls[k..][1..] == calls[k + 1..];
    }

    static lemma {:induction false} AheadDone(goal: Repair.Fill, run: seq<Message>, rest: seq<Message>,
                                              calls: seq<ToolCall>, live: bool, count: nat)
      requires Ahead(goal, Repair.FillRun(run, rest, calls[|calls|..], live), count)
      ensures goal.run == run && goal.rest == rest && |goal.moved| + |goal.synth| == count
    {
      assert calls[|calls|..] == [];
    }

    static lemma {:induction false} RunStart(h: seq<Message>, i: nat, e: nat)
      requires i < e <= |h| && e == i + 1 + RunLen(h[i + 1..])
      ensures AllTools(h[i + 1..e]) && (h[e..] != [] ==> h[e..][0].role != Tool)
      ensures h == h[..i + 1] + h[i + 1..e] + h[e..]
    {
      RunLenSpec(h[i + 1..]);
      var run, t := h[i + 1..e], h[i + 1..];
      assert run == t[..e - i - 1];
    }

    /** What the presence scan sees: the whole run if it was live, else nothing. */
    static lemma {:induction false} RunAt(pre: seq<Message>, run: seq<Message>, rest: seq<Message>, live: bool, next: nat)
      requires AllTools(run) && (rest != [] ==> rest[0].role != Tool)
      requires next == |pre| + if live then 0 else |run|
      ensures var h := pre + run + rest;
              h[next..next + RunLen(h[next..])] == if live then run else []
    {
      var h := pre + run + rest;
      RunLenAll(run);
      RunLenConcat(run, rest);
      assert h[next..] == if live then run + rest else rest;
    }

    static lemma {:induction false} MoveUp(pre: seq<Message>, run: seq<Message>, rest: seq<Message>, j: nat)
      requires j < |rest|
      ensures var h, at := pre + run + rest, |pre| + |run|;
              var g := h[..at + j] + h[at + j + 1..];
              h[at + j] == rest[j] && g[..at] + [rest[j]] + g[at..] == pre + (run + [rest[j]]) + Repair.Without(rest, j)
    {
      var h, at := pre + run + rest, |pre| + |run|;
      var g := h[..at + j] + h[at + j + 1..];
      assert g[..at] == pre + run;
      assert g[at..] == Repair.Without(rest, j);
    }

    /** The end of the run of results that starts at from. */
    method RunEnd(from: nat) returns (e: nat)
      requires from <= |msgs|
      ensures e == from + RunLen(msgs[from..])
    {
      e := from;
      while e < |msgs| && msgs[e].role == Tool
        invariant from <= e <= |msgs|
        invariant from + RunLen(msgs[from..]) == e + RunLen(msgs[e..])
      {
        assert msgs[e..][1..] == msgs[e + 1..];
        e := e + 1;
      }
    }

    /** clm_history_repair_dangling_tool_calls. */
    method RepairDangling() returns (repaired: nat)
      modifies this
      ensures msgs == Repair.Fixed(old(msgs)).msgs
      ensures repaired == Repair.Fixed(old(msgs)).Count()
    {
      repaired := 0;
      var i := 0;
      ghost var goal := Repair.Fixed(msgs);
      while i < |msgs|
        invariant 0 <= i <= |msgs|
        invariant Leads(goal, msgs, i, repaired)
        decreases |Repair.Fixed(msgs[i..]).msgs|
      {
        ghost var before := msgs;
        if IsHead(msgs[i]) {
          var e := RunEnd(i + 1);
          var next, n := AnswerCalls(i, e);
          HeadStep(goal, before, i, e, msgs, next, repaired);
          i, repaired := next, repaired + n;
        } else {
          PlainStep(goal, msgs, i, repaired);
          i := i + 1;
        }
      }
    }

    /** The walk has reached i, and finishing from there gives goal. */
    static ghost predicate Leads(goal: Repair.Outcome, h: seq<Message>, i: nat, count: nat)
      requires i <= |h|
    {
      var o := Repair.Fixed(h[i..]);
      h[..i] + o.msgs == goal.msgs && count + o.Count() == goal.Count()
    }

    static lemma {:induction false} PlainStep(goal: Repair.Outcome, h: seq<Message>, i: nat, count: nat)
      requires i < |h| && !IsHead(h[i]) && Leads(goal, h, i, count)
      ensures Leads(goal, h, i + 1, count)
      ensures |Repair.Fixed(h[i + 1..]).msgs| < |Repair.Fixed(h[i..]).msgs|
    {
      assert h[i..][1..] == h[i + 1..];
      assert h[..i + 1] + Repair.Fixed(h[i + 1..]).msgs == h[..i] + ([h[i]] + Repair.Fixed(h[i + 1..]).msgs);
    }

    /** What Fixed says at a head, in terms of slices of the whole list. */
    static lemma {:induction false} FixedAtHead(h: seq<Message>, i: nat, e: nat)
      requires i < e <= |h| && IsHead(h[i]) && e == i + 1 + RunLen(h[i + 1..])
      ensures var f := Repair.FillRun(h[i + 1..e], h[e..], h[i].calls, e > i + 1);
              var o := Repair.Fixed(f.rest);
              Repair.Fixed(h[i..]) == Repair.Outcome([h[i]] + f.run + o.msgs, f.moved + o.moved, f.synth + o.synth)
    {
      var t := h[i..];
      HeadSlices(h, i, e);
      Repair.FixedHead(t);
    }

    static lemma {:induction false} HeadSlices(h: seq<Message>, i: nat, e: nat)
      requires i < e <= |h|
      ensures h[i..][1..] == h[i + 1..] && h[i..][1..e - i] == h[i + 1..e] && h[i..][e - i..] == h[e..]
    {
    }

    /** One head of the walk: what was done grows by the head and, unless it was live, its run. */
    static lemma {:induction false} HeadStep(goal: Repair.Outcome, h: seq<Message>, i: nat, e: nat,
                                             h': seq<Message>, next: nat, count: nat)
      requires i < e <= |h| && IsHead(h[i]) && e == i + 1 + RunLen(h[i + 1..])
      requires Leads(goal, h, i, count)
      requires var f := Repair.FillRun(h[i + 1..e], h[e..], h[i].calls, e > i + 1);
               h' == h[..i + 1] + f.run + f.rest && next == i + 1 + if e > i + 1 then 0 else |f.run|
      ensures next <= |h'|
      ensures var f := Repair.FillRun(h[i + 1..e], h[e..], h[i].calls, e > i + 1);
              Leads(goal, h', next, count + |f.moved| + |f.synth|)
      ensures |Repair.Fixed(h'[next..]).msgs| < |Repair.Fixed(h[i..]).msgs|
    {
      var f := Repair.FillRun(h[i + 1..e], h[e..], h[i].calls, e > i + 1);
      var o := Repair.Fixed(f.rest);
      RunStart(h, i, e);
      Repair.FillRunKeeps(h[i + 1..e], h[e..], h[i].calls, e > i + 1);
      FixedAtHead(h, i, e);
      Regroup(h[..i], h[i], f.run, o.msgs);
      assert h[..i + 1] == h[..i] + [h[i]];
      RunBehind(h[..i + 1], f.run, f.rest);
      RestBehind(h[..i + 1], f.run, f.rest);
      FixedSkipsTools(f.run, f.rest);
    }

    static lemma {:induction false} RestBehind(pre: seq<Message>, run: seq<Message>, rest: seq<Message>)
      ensures var h := pre + run + rest; h[..|pre|] == pre && h[|pre|..] == run + rest
    {
    }

    static lemma {:induction false} Regroup(a: seq<Message>, m: Message, b: seq<Message>, c: seq<Message>)
      ensures a + ([m] + b + c) == a + [m] + b + c == a + [m] + (b + c)
    {
    }

    static lemma {:induction false} FixedSkipsTools(run: seq<Message>, rest: seq<Message>)
      requires AllTools(run)
      ensures Repair.Fixed(run + rest) == Repair.Fixed(rest).(msgs := run + Repair.Fixed(rest).msgs)
      decreases |run|
    {
      if run == [] {
        assert run + rest == rest;
        assert run + Repair.Fixed(rest).msgs == Repair.Fixed(rest).msgs;
      } else {
        assert (run + rest)[1..] == run[1..] + rest;
        FixedSkipsTools(run[1..], rest);
      }
    }

    // ------------------------------------------------------------ supersede

    /** Index of the message that opened the current batch, or |msgs|. */
    method BatchHead() returns (head: nat)
      ensures head == S.NewestHead(msgs)
    {
      head := |msgs|;
      var i := |msgs|;
      while i > 0
        invariant 0 <= i <= |msgs| == head
        invariant forall j | i <= j < |msgs| :: !IsHead(msgs[j])
      {
        i := i - 1;
        if IsHead(msgs[i]) {
          return i;
        }
      }
    }

    /** clm_history_supersede_tool. */
    method SupersedeTool(name: string, stub: seq<bv8>) returns (stubbed: nat)
      modifies this
      ensures msgs == S.Superseded(old(msgs), name, stub)
      ensures stubbed == S.StaleCount(old(msgs)[..S.NewestHead(old(msgs))], name, stub)
    {
      var head := BatchHead();
      ghost var h := msgs;
      ghost var goal := S.Superseded(h, name, stub);
      stubbed := 0;
      var i := 0;
      while i < head
        invariant 0 <= i <= head == S.NewestHead(h) <= |msgs| == |h|
        invariant forall j | 0 <= j < |h| :: msgs[j] == if j < i then goal[j] else h[j]
        invariant stubbed + S.StaleCount(h[i..head], name, stub) == S.StaleCount(h[..head], name, stub)
      {
        assert h[i..head][1..] == h[i + 1..head];
        var hit := StubAt(i, name, stub);
        if hit {
          stubbed := stubbed + 1;
        }
        i := i + 1;
      }
    }

    /** One message of the pass. */
    method StubAt(i: nat, name: string, stub: seq<bv8>) returns (hit: bool)
      requires i < |msgs|
      modifies this
      ensures hit == S.Stale(old(msgs)[i], name, stub)
      ensures msgs == if hit then old(msgs)[i := S.Stubbed(old(msgs)[i], stub)] else old(msgs)
    {
      var m := msgs[i];
      hit := m.role == Tool && m.toolName == Some(name) && !(m.content.Plain? && S.CStr(m.content.bytes) == stub);
      if hit {
        var c := StoreContent(Some(stub), NoCompressor);
        msgs := msgs[i := m.(content := c, attachments := [])];
      }
    }

    // ----------------------------------------------------------- compaction

    /** Index of the first message behind the system prologue. */
    method PrologueEnd() returns (p: nat)
      ensures p == C.Prologue(msgs)
    {
      p := 0;
      while p < |msgs| && msgs[p].role == System
        invariant 0 <= p <= |msgs|
        invariant C.Prologue(msgs) == p + C.Prologue(msgs[p..])
      {
        assert msgs[p..][1..] == msgs[p + 1..];
        p := p + 1;
      }
    }

    /** The size of msgs[from..to]. */
    method SizeOf(from: nat, to: nat) returns (n: nat)
      requires from <= to <= |msgs|
      ensures n == Bytes(msgs[from..to])
    {
      n := 0;
      var i := from;
      while i < to
        invariant from <= i <= to
        invariant n + Bytes(msgs[i..to]) == Bytes(msgs[from..to])
      {
        assert msgs[i..to][1..] == msgs[i + 1..to];
        n := n + MessageBytes(msgs[i]);
        i := i + 1;
      }
    }

    /** fold_range. */
    method FoldRange(start: nat, cut: nat, summary: seq<bv8>, cz: Compressor) returns (folded: nat)
      requires start <= cut <= |msgs|
      modifies this
      ensures msgs == C.Folded(old(msgs), start, cut, C.SummaryMessage(summary, cz))
      ensures folded == cut - start
    {
      var c := StoreContent(Some(summary), cz);
      folded := 0;
      while folded < cut - start
        invariant 0 <= folded <= cut - start
        invariant msgs == old(msgs)[..start] + old(msgs)[start + folded..]
      {
        msgs := msgs[..start] + msgs[start + 1..];
        folded := folded + 1;
      }
      msgs := msgs[..start] + [Message(User, c, [], "", None, [])] + msgs[start..];
    }

    /**
      The backward walk of clm_history_compact_within. keepMinTurns is counted as
      the source counts it and never decides anything.
     */
    method WalkBack(p: nat, limit: nat, keepMinTurns: nat) returns (cut: Option<nat>)
      requires p == C.Prologue(msgs)
      ensures cut.Some? ==> C.BestCut(msgs, limit, cut.value)
      ensures cut.None? ==> forall i | p <= i < |msgs| :: !IsCutPoint(msgs[i])
    {
      var newest: Option<nat> := None;
      var bytes, turns := 0, 0;
      cut := None;
      var i := |msgs|;
      while i > p
        invariant p <= i <= |msgs|
        invariant bytes == Bytes(msgs[i..])
        invariant Walked(msgs, limit, i, newest, cut)
      {
        i := i - 1;
        BytesFront(msgs, i);
        bytes := bytes + MessageBytes(msgs[i]);
        WalkOn(msgs, limit, i, newest, cut);
        if IsCutPoint(msgs[i]) {
          if newest.None? {
            newest := Some(i);
          }
          if bytes > limit {
            BrokeOff(msgs, p, limit, i, newest, cut);
            return if cut.None? then newest else cut;
          }
          cut := Some(i);
          if msgs[i].role == User {
            turns := turns + 1;
            if turns >= keepMinTurns && bytes > limit {
              break;
            }
          }
        }
      }
      WalkedOut(msgs, limit, i, newest, cut);
      // Not even the newest exchange fits: keep it anyway.
      if cut.None? {
        cut := newest;
      }
    }

    /** The walk has reached i: newest is the last cut point from there on, cut the first, and it fits. */
    static ghost predicate Walked(h: seq<Message>, limit: nat, i: nat, newest: Option<nat>, cut: Option<nat>) {
      && i <= |h| && (newest.None? <==> cut.None?)
      && (newest.None? ==> forall j | i <= j < |h| :: !IsCutPoint(h[j]))
      && (newest.Some? ==>
            && i <= newest.value < |h| && IsCutPoint(h[newest.value])
            && forall j | newest.value < j < |h| :: !IsCutPoint(h[j]))
      && (cut.Some? ==>
            && i <= cut.value < |h| && IsCutPoint(h[cut.value]) && Bytes(h[cut.value..]) <= limit
            && forall j | i <= j < cut.value :: !IsCutPoint(h[j]))
    }

    /** One message further. */
    static lemma {:induction false} WalkOn(h: seq<Message>, limit: nat, i: nat, newest: Option<nat>, cut: Option<nat>)
      requires i < |h| && Walked(h, limit, i + 1, newest, cut)
      ensures !IsCutPoint(h[i]) ==> Walked(h, limit, i, newest, cut)
      ensures IsCutPoint(h[i]) && Bytes(h[i..]) <= limit ==>
                Walked(h, limit, i, if newest.None? then Some(i) else newest, Some(i))
    {
    }

    /** At the prologue the first cut point met is the best one. */
    static lemma {:induction false} WalkedOut(h: seq<Message>, limit: nat, i: nat, newest: Option<nat>, cut: Option<nat>)
      requires i == C.Prologue(h) && Walked(h, limit, i, newest, cut)
      ensures cut.Some? ==> C.BestCut(h, limit, cut.value)
    {
    }

    /** At a cut point that does not fit, the one before it is the best, or else the newest. */
    static lemma {:induction false} BrokeOff(h: seq<Message>, p: nat, limit: nat, i: nat, newest: Option<nat>, cut: Option<nat>)
      requires p == C.Prologue(h) <= i < |h| && IsCutPoint(h[i]) && Bytes(h[i..]) > limit && newest.Some?
      requires Walked(h, limit, i + 1, if cut.None? then None else newest, cut) && (cut.None? ==> newest == Some(i))
      ensures C.BestCut(h, limit, if cut.None? then newest.value else cut.value)
    {
      Earlier(h, i, limit);
    }

    /** Suffixes only grow towards the front, so nothing before i fits either. */
    static lemma {:induction false} Earlier(h: seq<Message>, i: nat, limit: nat)
      requires i < |h| && Bytes(h[i..]) > limit
      ensures forall j | 0 <= j <= i :: Bytes(h[j..]) > limit
    {
      forall j | 0 <= j <= i ensures Bytes(h[j..]) > limit { C.SuffixBytesShrink(h, j, i); }
    }

    /** clm_history_compact_within. */
    method CompactWithin(summary: seq<bv8>, keepBytes: nat, keepMinTurns: nat, cz: Compressor) returns (r: nat)
      modifies this
      ensures C.Within(old(msgs), summary, keepBytes, cz, msgs, r)
    {
      var p := PrologueEnd();
      var limit := Limit(p, keepBytes);
      var cut := WalkBack(p, limit, keepMinTurns);
      // The source steps forward from a fitting cut at the first message, which
      // C.FittingCutIsLater shows there is none of.
      if cut.None? || cut.value == p {
        NoFold(msgs, summary, keepBytes, cz, cut);
        return 0;
      }
      var removed := SizeOf(p, cut.value);
      if removed <= |summary| + 32 {
        NoFold(msgs, summary, keepBytes, cz, cut);
        return 0;
      }
      OneFold(msgs, summary, keepBytes, cz, cut.value);
      r := FoldRange(p, cut.value, summary, cz);
    }

    method Limit(p: nat, keepBytes: nat) returns (limit: nat)
      requires p == C.Prologue(msgs)
      ensures limit == C.KeepLimit(msgs, keepBytes)
    {
      var total := SizeOf(p, |msgs|);
      assert msgs[p..|msgs|] == msgs[p..];
      limit := if keepBytes > total / 2 then total / 2 else keepBytes;
    }

    static lemma {:induction false} NoFold(h: seq<Message>, summary: seq<bv8>, keepBytes: nat, cz: Compressor, cut: Option<nat>)
      requires cut.None? ==> forall i | C.Prologue(h) <= i < |h| :: !IsCutPoint(h[i])
      requires cut.Some? ==> C.BestCut(h, C.KeepLimit(h, keepBytes), cut.value) && !C.FoldsAt(h, summary, keepBytes, cut.value)
      ensures C.Within(h, summary, keepBytes, cz, h, 0)
    {
      forall c: nat | C.FoldsAt(h, summary, keepBytes, c) ensures false {
        if cut.Some? { C.BestCutUnique(h, C.KeepLimit(h, keepBytes), c, cut.value); }
      }
    }

    static lemma {:induction false} OneFold(h: seq<Message>, summary: seq<bv8>, keepBytes: nat, cz: Compressor, cut: nat)
      requires C.FoldsAt(h, summary, keepBytes, cut)
      ensures
        var f := C.Folded(h, C.Prologue(h), cut, C.SummaryMessage(summary, cz));
        C.Within(h, summary, keepBytes, cz, f, cut - C.Prologue(h))
    {
    }

    /** Walk back to the n-th user message from the end, not past p. */
    method NthUser(p: nat, n: nat) returns (i: nat, users: nat)
      requires p <= |msgs| && n > 0
      ensures p <= i <= |msgs| && users == C.CountUsers(msgs[i..]) <= n
      ensures users < n ==> i == p
      ensures users == n ==> i < |msgs| && msgs[i].role == User
    {
      i, users := |msgs|, 0;
      while i > p && users < n
        invariant p <= i <= |msgs|
        invariant users == C.CountUsers(msgs[i..]) <= n
        invariant users == n ==> i < |msgs| && msgs[i].role == User
      {
        i := i - 1;
        assert msgs[i..][1..] == msgs[i + 1..];
        if msgs[i].role == User {
          users := users + 1;
        }
      }
    }

    /** Walk back to the n-th exchange head from the end, not past start. */
    method NthHead(start: nat, n: nat) returns (i: nat, heads: nat)
      requires start <= |msgs| && n > 0
      ensures start <= i <= |msgs| && heads == C.CountHeads(msgs[i..]) <= n
      ensures heads < n ==> i == start
      ensures heads == n ==> i < |msgs| && IsHead(msgs[i])
    {
      i, heads := |msgs|, 0;
      while i > start && heads < n
        invariant start <= i <= |msgs|
        invariant heads == C.CountHeads(msgs[i..]) <= n
        invariant heads == n ==> i < |msgs| && IsHead(msgs[i])
      {
        i := i - 1;
        assert msgs[i..][1..] == msgs[i + 1..];
        if IsHead(msgs[i]) {
          heads := heads + 1;
        }
      }
    }

    /** Where the fallback starts: behind the mission message, else behind the prologue. */
    method FallbackFrom(p: nat) returns (start: nat)
      requires p == C.Prologue(msgs)
      ensures start == C.FallbackStart(msgs)
    {
      var mission := p;
      while mission < |msgs| && msgs[mission].role != User
        invariant p <= mission <= |msgs|
        invariant C.Mission(msgs, p) == C.Mission(msgs, mission)
      {
        mission := mission + 1;
      }
      start := if mission < |msgs| then mission + 1 else p;
    }

    /** clm_history_compact; None is the refusal of keepRecent == 0. */
    method CompactRecent(summary: seq<bv8>, keepRecent: nat, cz: Compressor) returns (r: Option<nat>)
      modifies this
      ensures keepRecent == 0 ==> r.None? && msgs == old(msgs)
      ensures keepRecent > 0 ==> r.Some? && C.Recent(old(msgs), summary, keepRecent, cz, msgs, r.value)
    {
      if keepRecent == 0 {
        return None;
      }
      var p := PrologueEnd();
      var i, users := NthUser(p, keepRecent);
      if users == keepRecent && i > p {
        assert C.TurnCut(msgs, keepRecent, i);
        var n := FoldRange(p, i, summary, cz);
        return Some(n);
      }
      NoTurnCut(msgs, keepRecent, i);
      // No user boundary: keep the mission, cut at an exchange head.
      var start := FallbackFrom(p);
      var j, heads := NthHead(start, keepRecent);
      if heads < keepRecent || j == start {
        NoHeadCut(msgs, keepRecent, j);
        return Some(0);
      }
      assert C.HeadCut(msgs, keepRecent, j);
      var n := FoldRange(start, j, summary, cz);
      return Some(n);
    }

    static lemma {:induction false} NoTurnCut(h: seq<Message>, keepRecent: nat, i: nat)
      requires i == C.Prologue(h) && C.CountUsers(h[i..]) <= keepRecent
      requires keepRecent > 0
      requires C.CountUsers(h[i..]) == keepRecent ==> i < |h| && h[i].role == User
      ensures forall c: nat :: !C.TurnCut(h, keepRecent, c)
    {
      forall c: nat | C.TurnCut(h, keepRecent, c) ensures false { C.CountsDrop(h, i, c); }
    }

    static lemma {:induction false} NoHeadCut(h: seq<Message>, keepRecent: nat, i: nat)
      requires i == C.FallbackStart(h) && C.CountHeads(h[i..]) <= keepRecent
      requires keepRecent > 0
      requires C.CountHeads(h[i..]) == keepRecent ==> i < |h| && IsHead(h[i])
      ensures forall c: nat :: !C.HeadCut(h, keepRecent, c)
    {
      forall c: nat | C.HeadCut(h, keepRecent, c) ensures false { C.CountsDrop(h, i, c); }
    }
  }
}
