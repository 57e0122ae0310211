/**
  Repair of dangling tool calls: every call gets a result in the run directly
  after its head. A late result moves up; a missing one is synthesised.
 */
module Repair {
  import opened Wrappers
  import opened Messages

  const MISSING := "[tool result missing: session ended before this tool call finished]"

  ghost function Synth(c: ToolCall): Message {
    Message(Tool, Stored(Some(Ascii(MISSING)), NoCompressor), [], c.id, Some(c.name), [])
  }

  predicate Answers(m: Message, id: string) { m.role == Tool && m.callId == id }

  /** tool_result_present over a run. */
  predicate Present(run: seq<Message>, id: string) { exists m | m in run :: Answers(m, id) }

  /** Index of the first result for id in rest, or its length. */
  function LateIndex(rest: seq<Message>, id: string): (j: nat)
    ensures j <= |rest|
    ensures j < |rest| ==> Answers(rest[j], id)
    ensures forall k | 0 <= k < j :: !Answers(rest[k], id)
  {
    if rest == [] || Answers(rest[0], id) then 0 else 1 + LateIndex(rest[1..], id)
  }

  function Without<T>(s: seq<T>, j: nat): seq<T>
    requires j < |s|
  {
    s[..j] + s[j + 1..]
  }

  /** The run of one head after its calls were answered, and what is left behind it. */
  datatype Fill = Fill(run: seq<Message>, rest: seq<Message>, moved: seq<Message>, synth: seq<Message>)

  /**
    One call: its result is there, or comes late and moves up, or is made up.
    live: the head had at least one result directly after it. With none, the scan
    for present results starts at a message that is no result, and finds none.
   */
  ghost function Pick(run: seq<Message>, rest: seq<Message>, c: ToolCall, live: bool): (p: Fill)
    ensures |p.rest| <= |rest|
  {
    var j := LateIndex(rest, c.id);
    if live && Present(run, c.id) then Fill(run, rest, [], [])
    else if j < |rest| then Fill(run + [rest[j]], Without(rest, j), [rest[j]], [])
    else Fill(run + [Synth(c)], rest, [], [Synth(c)])
  }

  ghost function FillRun(run: seq<Message>, rest: seq<Message>, calls: seq<ToolCall>, live: bool): (f: Fill)
    ensures |f.rest| <= |rest|
    decreases |calls|
  {
    if calls == [] then Fill(run, rest, [], [])
    else
      var p := Pick(run, rest, calls[0], live);
      var f := FillRun(p.run, p.rest, calls[1..], live);
      f.(moved := p.moved + f.moved, synth := p.synth + f.synth)
  }

  datatype Outcome = Outcome(msgs: seq<Message>, moved: seq<Message>, synth: seq<Message>) {
    function Count(): nat { |moved| + |synth| }
  }

  /** The whole repaired history. */
  ghost function Fixed(h: seq<Message>): Outcome
    decreases |h|
  {
    if h == [] then Outcome([], [], [])
    else if !IsHead(h[0]) then
      var o := Fixed(h[1..]);
      o.(msgs := [h[0]] + o.msgs)
    else
      var k := RunLen(h[1..]);
      var f := FillRun(h[1..1 + k], h[1 + k..], h[0].calls, k > 0);
      var o := Fixed(f.rest);
      Outcome([h[0]] + f.run + o.msgs, f.moved + o.moved, f.synth + o.synth)
  }

  lemma {:induction false} FixedHead(h: seq<Message>)
    requires h != [] && IsHead(h[0])
    ensures
      var k := RunLen(h[1..]);
      var f := FillRun(h[1..1 + k], h[1 + k..], h[0].calls, k > 0);
      var o := Fixed(f.rest);
      Fixed(h) == Outcome([h[0]] + f.run + o.msgs, f.moved + o.moved, f.synth + o.synth)
  {
  }

  /** The result made up for call c. */
  ghost predicate MadeUpFor(m: Message, c: ToolCall) {
    m == Message(Tool, Plain(Ascii("[tool result missing: session ended before this tool call finished]")), [], c.id,
                 Some(c.name), [])
  }

  lemma {:induction false} SynthIsMadeUp(c: ToolCall)
    ensures MadeUpFor(Synth(c), c)
  {
    AsciiIsKept(MISSING);
  }

  lemma {:induction false} FillSynth(run: seq<Message>, rest: seq<Message>, calls: seq<ToolCall>, live: bool, m: Message)
    requires m in FillRun(run, rest, calls, live).synth
    ensures exists c :: c in calls && MadeUpFor(m, c)
    decreases |calls|
  {
    if calls != [] {
      var p := Pick(run, rest, calls[0], live);
      if m in p.synth {
        SynthIsMadeUp(calls[0]);
        assert calls[0] in calls && MadeUpFor(m, calls[0]);
      } else {
        FillSynth(p.run, p.rest, calls[1..], live, m);
        var c :| c in calls[1..] && MadeUpFor(m, c);
        assert c in calls;
      }
    }
  }

  lemma {:induction false} FillRest(run: seq<Message>, rest: seq<Message>, calls: seq<ToolCall>, live: bool)
    ensures forall m | m in FillRun(run, rest, calls, live).rest :: m in rest
    decreases |calls|
  {
    if calls != [] {
      var p := Pick(run, rest, calls[0], live);
      FillRest(p.run, p.rest, calls[1..], live);
    }
  }

  /** Every made-up result is for a call of the history, with its id and name, and says that the result is missing. */
  lemma {:induction false} FixedSynth(h: seq<Message>, m: Message)
    requires m in Fixed(h).synth
    ensures exists a, c :: a in h && IsHead(a) && c in a.calls && MadeUpFor(m, c)
    decreases |h|
  {
    if !IsHead(h[0]) {
      FixedSynth(h[1..], m);
    } else {
      var k := RunLen(h[1..]);
      var run, rest := h[1..1 + k], h[1 + k..];
      var f := FillRun(run, rest, h[0].calls, k > 0);
      if m in f.synth {
        FillSynth(run, rest, h[0].calls, k > 0, m);
        assert h[0] in h;
      } else {
        FixedSynth(f.rest, m);
        FillRest(run, rest, h[0].calls, k > 0);
        var a, c :| a in f.rest && IsHead(a) && c in a.calls && MadeUpFor(m, c);
        assert a in h;
      }
    }
  }

  // ------------------------------------------------ what filling one run does

  ghost function NonTool(h: seq<Message>): seq<Message> {
    if h == [] then [] else (if h[0].role == Tool then [] else [h[0]]) + NonTool(h[1..])
  }

  lemma {:induction false} NonToolConcat(a: seq<Message>, b: seq<Message>)
    ensures NonTool(a + b) == NonTool(a) + NonTool(b)
  {
    if a == [] {
      assert a + b == b;
    } else {
      assert (a + b)[1..] == a[1..] + b;
      NonToolConcat(a[1..], b);
    }
  }

  lemma {:induction false} NonToolOfTools(a: seq<Message>)
    requires AllTools(a)
    ensures NonTool(a) == []
  {
    if a != [] { NonToolOfTools(a[1..]); }
  }

  lemma {:induction false} WithoutParts<T>(s: seq<T>, j: nat)
    requires j < |s|
    ensures s == s[..j] + [s[j]] + s[j + 1..]
    ensures multiset(s) == multiset(Without(s, j)) + multiset{s[j]}
  {
    assert s == s[..j] + [s[j]] + s[j + 1..];
  }

  lemma {:induction false} NonToolWithout(s: seq<Message>, j: nat)
    requires j < |s| && s[j].role == Tool
    ensures NonTool(Without(s, j)) == NonTool(s)
  {
    WithoutParts(s, j);
    NonToolGap(s[..j], s[j], s[j + 1..]);
  }

  lemma {:induction false} NonToolGap(a: seq<Message>, m: Message, b: seq<Message>)
    requires m.role == Tool
    ensures NonTool(a + [m] + b) == NonTool(a + b)
  {
    NonToolOf3(a, [m], b);
    NonToolConcat(a, b);
    NonToolOfTools([m]);
    assert NonTool(a) + [] == NonTool(a);
  }

  lemma {:induction false} ResultIdsWithout(s: seq<Message>, j: nat)
    requires j < |s| && s[j].role == Tool
    ensures ResultIds(s) == ResultIds(Without(s, j)) + multiset{s[j].callId}
  {
    WithoutParts(s, j);
    ResultIdsConcat(s[..j] + [s[j]], s[j + 1..]);
    ResultIdsConcat(s[..j], [s[j]]);
    ResultIdsConcat(s[..j], s[j + 1..]);
    assert ResultIds([s[j]]) == multiset{s[j].callId};
  }

  lemma {:induction false} PresentIffResult(run: seq<Message>, id: string)
    ensures Present(run, id) <==> id in ResultIds(run)
  {
    if run != [] {
      PresentIffResult(run[1..], id);
      if Present(run, id) {
        var m :| m in run && Answers(m, id);
        assert m == run[0] || m in run[1..];
      }
      if id in ResultIds(run) && !Answers(run[0], id) {
        var m :| m in run[1..] && Answers(m, id);
        assert m in run;
      }
    }
  }

  lemma {:induction false} LateIffResult(rest: seq<Message>, id: string)
    ensures LateIndex(rest, id) < |rest| <==> id in ResultIds(rest)
  {
    PresentIffResult(rest, id);
  }

  /** What a fill step keeps: only results are appended, and none is lost or copied. */
  ghost predicate Keeps(run: seq<Message>, rest: seq<Message>, f: Fill) {
    && AllTools(f.run) && run <= f.run
    && NonTool(f.rest) == NonTool(rest)
    && multiset(f.run) + multiset(f.rest) == multiset(run) + multiset(rest) + multiset(f.synth)
  }

  lemma {:induction false} PickKeeps(run: seq<Message>, rest: seq<Message>, c: ToolCall, live: bool)
    requires AllTools(run)
    ensures Keeps(run, rest, Pick(run, rest, c, live))
  {
    var j := LateIndex(rest, c.id);
    if j < |rest| {
      NonToolWithout(rest, j);
      WithoutParts(rest, j);
    }
  }

  lemma {:induction false} PickAnswers(run: seq<Message>, rest: seq<Message>, c: ToolCall, live: bool)
    ensures c.id in ResultIds(Pick(run, rest, c, live).run)
  {
    var j := LateIndex(rest, c.id);
    if live && Present(run, c.id) {
      PresentIffResult(run, c.id);
    } else {
      ResultIdsConcat(run, [if j < |rest| then rest[j] else Synth(c)]);
    }
  }

  /** Filling answers every call, keeps the other messages in order, and loses nothing. */
  lemma {:induction false} FillRunKeeps(run: seq<Message>, rest: seq<Message>, calls: seq<ToolCall>, live: bool)
    requires AllTools(run)
    ensures Keeps(run, rest, FillRun(run, rest, calls, live))
    ensures Covers(FillRun(run, rest, calls, live).run, calls)
    decreases |calls|
  {
    if calls != [] {
      var p := Pick(run, rest, calls[0], live);
      PickKeeps(run, rest, calls[0], live);
      PickAnswers(run, rest, calls[0], live);
      FillRunKeeps(p.run, p.rest, calls[1..], live);
      CoversMore(p.run, FillRun(p.run, p.rest, calls[1..], live).run, calls, calls[0].id);
    }
  }

  lemma {:induction false} CoversMore(run: seq<Message>, run': seq<Message>, calls: seq<ToolCall>, id: string)
    requires run <= run' && calls != [] && calls[0].id == id
    requires id in ResultIds(run) && Covers(run', calls[1..])
    ensures Covers(run', calls)
  {
    assert run' == run + run'[|run|..];
    ResultIdsConcat(run, run'[|run|..]);
    assert calls == [calls[0]] + calls[1..];
  }

  // ------------------------------------------------------------ whole history

  /** After repair every call is answered inside the run directly after its head. */
  lemma {:induction false} FixedAnswered(h: seq<Message>)
    ensures Answered(Fixed(h).msgs)
    decreases |h|
  {
    if h == [] {
    } else if !IsHead(h[0]) {
      FixedAnswered(h[1..]);
      assert ([h[0]] + Fixed(h[1..]).msgs)[1..] == Fixed(h[1..]).msgs;
    } else {
      var run, rest, live := HeadParts(h);
      var f := FillRun(run, rest, h[0].calls, live);
      FillRunKeeps(run, rest, h[0].calls, live);
      FixedAnswered(f.rest);
      AnsweredExchange(h[0], f.run, Fixed(f.rest).msgs);
    }
  }

  lemma {:induction false} HeadParts(h: seq<Message>) returns (run: seq<Message>, rest: seq<Message>, live: bool)
    requires h != [] && IsHead(h[0])
    ensures run == h[1..1 + RunLen(h[1..])] && rest == h[1 + RunLen(h[1..])..] && live == (run != [])
    ensures h == [h[0]] + run + rest
    ensures AllTools(run) && (rest != [] ==> rest[0].role != Tool)
  {
    var t := h[1..];
    var k := RunLen(t);
    RunLenSpec(t);
    run, rest, live := h[1..1 + k], h[1 + k..], k > 0;
    assert run == t[..k] && rest == t[k..];
  }

  lemma {:induction false} AnsweredExchange(head: Message, run: seq<Message>, rest: seq<Message>)
    requires IsHead(head) && AllTools(run) && Covers(run, head.calls) && Answered(rest)
    ensures Answered([head] + run + rest)
  {
    var t := run + rest;
    RunLenAll(run);
    RunLenConcat(run, rest);
    AnsweredToolsFirst(run, rest);
    CoversLonger(run, rest[..RunLen(rest)], head.calls);
    assert t[..RunLen(t)] == run + rest[..RunLen(rest)];
    assert ([head] + run + rest)[1..] == t;
    assert ([head] + run + rest)[1..1 + RunLen(t)] == t[..RunLen(t)];
  }

  lemma {:induction false} AnsweredToolsFirst(run: seq<Message>, rest: seq<Message>)
    requires AllTools(run) && Answered(rest)
    ensures Answered(run + rest)
  {
    assert (run + rest)[|run|..] == rest;
    ToolRunAnswered(run + rest, |run|);
  }

  lemma {:induction false} CoversLonger(run: seq<Message>, more: seq<Message>, calls: seq<ToolCall>)
    requires Covers(run, calls)
    ensures Covers(run + more, calls)
  {
    ResultIdsConcat(run, more);
  }

  /** Non-tool messages stay, in order. */
  lemma {:induction false} FixedKeepsOrder(h: seq<Message>)
    ensures NonTool(Fixed(h).msgs) == NonTool(h)
    decreases |h|
  {
    if h == [] {
    } else if !IsHead(h[0]) {
      FixedKeepsOrder(h[1..]);
      assert [h[0]] + h[1..] == h;
      NonToolConcat([h[0]], Fixed(h[1..]).msgs);
      NonToolConcat([h[0]], h[1..]);
    } else {
      var run, rest, live := HeadParts(h);
      var f := FillRun(run, rest, h[0].calls, live);
      FillRunKeeps(run, rest, h[0].calls, live);
      FixedKeepsOrder(f.rest);
      NonToolExchange(h[0], f.run, Fixed(f.rest).msgs);
      NonToolExchange(h[0], run, rest);
    }
  }

  /** Results are moved but never lost or duplicated; only the synthesised ones are new. */
  lemma {:induction false} FixedConserves(h: seq<Message>)
    ensures multiset(Fixed(h).msgs) == multiset(h) + multiset(Fixed(h).synth)
    decreases |h|
  {
    if h == [] {
    } else if !IsHead(h[0]) {
      FixedConserves(h[1..]);
      assert h == [h[0]] + h[1..];
    } else {
      var run, rest, live := HeadParts(h);
      var f := FillRun(run, rest, h[0].calls, live);
      FillRunKeeps(run, rest, h[0].calls, live);
      FixedConserves(f.rest);
      Recount(h[0], run, rest, f, Fixed(f.rest));
    }
  }

  lemma {:induction false} Recount(head: Message, run: seq<Message>, rest: seq<Message>, f: Fill, o: Outcome)
    requires Keeps(run, rest, f)
    requires multiset(o.msgs) == multiset(f.rest) + multiset(o.synth)
    ensures multiset([head] + f.run + o.msgs) == multiset([head] + run + rest) + multiset(f.synth + o.synth)
  {
    calc {
      multiset([head] + f.run + o.msgs);
      multiset{head} + multiset(f.run) + (multiset(f.rest) + multiset(o.synth));
      multiset{head} + (multiset(run) + multiset(rest) + multiset(f.synth)) + multiset(o.synth);
      multiset([head] + run + rest) + multiset(f.synth + o.synth);
    }
  }

  lemma {:induction false} NonToolExchange(head: Message, run: seq<Message>, rest: seq<Message>)
    requires head.role != Tool && AllTools(run)
    ensures NonTool([head] + run + rest) == [head] + NonTool(rest)
  {
    NonToolOf3([head], run, rest);
    NonToolOfTools(run);
    assert NonTool([head]) == [head];
  }

  lemma {:induction false} NonToolOf3(a: seq<Message>, b: seq<Message>, c: seq<Message>)
    ensures NonTool(a + b + c) == NonTool(a) + NonTool(b) + NonTool(c)
  {
    NonToolConcat(a + b, c);
    NonToolConcat(a, b);
  }

  // ------------------------------------------------------------- idempotence

  lemma {:induction false} FillNothing(run: seq<Message>, rest: seq<Message>, calls: seq<ToolCall>)
    requires Covers(run, calls)
    ensures FillRun(run, rest, calls, true) == Fill(run, rest, [], [])
    decreases |calls|
  {
    if calls != [] {
      PresentIffResult(run, calls[0].id);
      FillNothing(run, rest, calls[1..]);
    }
  }

  lemma {:induction false} FillSomething(run: seq<Message>, rest: seq<Message>, calls: seq<ToolCall>, live: bool)
    requires AllTools(run)
    requires !Covers(run, calls) || (!live && calls != [])
    ensures var f := FillRun(run, rest, calls, live); |f.moved| + |f.synth| > 0
    decreases |calls|
  {
    if live && Present(run, calls[0].id) {
      PresentIffResult(run, calls[0].id);
      assert calls == [calls[0]] + calls[1..];
      FillSomething(run, rest, calls[1..], live);
    }
  }

  /** Repair changes nothing, and reports nothing, exactly on an answered history. */
  lemma {:induction false} FixedIdleIffAnswered(h: seq<Message>)
    ensures Answered(h) ==> Fixed(h) == Outcome(h, [], [])
    ensures Fixed(h).Count() == 0 ==> Answered(h)
    decreases |h|
  {
    if h == [] {
    } else if !IsHead(h[0]) {
      FixedIdleIffAnswered(h[1..]);
      assert h == [h[0]] + h[1..];
    } else {
      var run, rest, live := HeadParts(h);
      var calls := h[0].calls;
      FixedIdleIffAnswered(rest);
      if Answered(h) {
        HeadRunLive(run, calls);
        FillNothing(run, rest, calls);
        AnsweredTail(h[1..], RunLen(h[1..]));
        assert h[1..][RunLen(h[1..])..] == rest;
      }
      if Fixed(h).Count() == 0 {
        if !Covers(run, calls) || !live { FillSomething(run, rest, calls, live); }
        FillNothing(run, rest, calls);
        AnsweredExchange(h[0], run, rest);
      }
    }
  }

  lemma {:induction false} HeadRunLive(run: seq<Message>, calls: seq<ToolCall>)
    requires calls != [] && Covers(run, calls)
    ensures run != []
  {
    assert calls[0] in calls;
  }

  lemma {:induction false} AnsweredTail(h: seq<Message>, k: nat)
    requires Answered(h) && k <= |h|
    ensures Answered(h[k..])
    decreases k
  {
    if k == 0 {
      assert h[0..] == h;
    } else {
      AnsweredTail(h[1..], k - 1);
      assert h[1..][k - 1..] == h[k..];
    }
  }

  /** A second repair returns 0 and changes nothing. */
  lemma {:induction false} RepairIdempotent(h: seq<Message>)
    ensures var once := Fixed(h).msgs; Fixed(once).msgs == once && Fixed(once).Count() == 0
  {
    FixedAnswered(h);
    FixedIdleIffAnswered(Fixed(h).msgs);
  }

  // ------------------------------------------------------- exact pairing

  ghost predicate Distinct(ids: multiset<string>) { forall x :: ids[x] <= 1 }

  ghost function CallIds(h: seq<Message>): multiset<string> {
    if h == [] then multiset{}
    else (if IsHead(h[0]) then IdsOf(h[0].calls) else multiset{}) + CallIds(h[1..])
  }

  /** Every result answers a call made before it, or one in asked. */
  ghost predicate Ordered(h: seq<Message>, asked: set<string>)
    decreases |h|
  {
    h == [] ||
    if h[0].role == Tool then h[0].callId in asked && Ordered(h[1..], asked)
    else Ordered(h[1..], if IsHead(h[0]) then asked + IdSet(h[0].calls) else asked)
  }

  ghost function IdSet(calls: seq<ToolCall>): set<string> { set c | c in calls :: c.id }

  lemma {:induction false} PickExact(run: seq<Message>, rest: seq<Message>, c: ToolCall, live: bool)
    requires Distinct(ResultIds(run) + ResultIds(rest))
    requires !live ==> c.id !in ResultIds(run)
    ensures var p := Pick(run, rest, c, live);
            && Distinct(ResultIds(p.run) + ResultIds(p.rest))
            && c.id !in ResultIds(p.rest) && ResultIds(p.rest) <= ResultIds(rest)
            && ResultIds(p.run) ==
                 ResultIds(run) + (if c.id in ResultIds(run) then multiset{} else multiset{c.id})
  {
    var j := LateIndex(rest, c.id);
    PresentIffResult(run, c.id);
    LateIffResult(rest, c.id);
    if j < |rest| {
      ResultIdsWithout(rest, j);
      ResultIdsConcat(run, [rest[j]]);
      assert ResultIds([rest[j]]) == multiset{c.id};
      assert (ResultIds(run) + ResultIds(rest))[c.id] <= 1;
      var p := Pick(run, rest, c, live);
      assert ResultIds(p.run) + ResultIds(p.rest) == ResultIds(run) + ResultIds(rest);
    } else {
      ResultIdsConcat(run, [Synth(c)]);
      assert ResultIds([Synth(c)]) == multiset{c.id};
      if !(live && Present(run, c.id)) {
        DistinctAdd(ResultIds(run) + ResultIds(rest), c.id);
        assert ResultIds(run) + multiset{c.id} + ResultIds(rest) == ResultIds(run) + ResultIds(rest) + multiset{c.id};
      }
    }
  }

  lemma {:induction false} DistinctAdd(ids: multiset<string>, x: string)
    requires Distinct(ids) && x !in ids
    ensures Distinct(ids + multiset{x})
  {
  }

  /** With distinct ids a run gains exactly the missing answers, and no answer stays behind. */
  lemma {:induction false} FillRunExact(run: seq<Message>, rest: seq<Message>, calls: seq<ToolCall>, live: bool)
    requires Distinct(IdsOf(calls)) && Distinct(ResultIds(run) + ResultIds(rest))
    requires !live ==> IdsOf(calls) !! ResultIds(run)
    ensures var f := FillRun(run, rest, calls, live);
            && ResultIds(f.run) == ResultIds(run) + (IdsOf(calls) - ResultIds(run))
            && ResultIds(f.rest) !! IdsOf(calls) && ResultIds(f.rest) <= ResultIds(rest)
    decreases |calls|
  {
    if calls != [] {
      var c := calls[0];
      var p := Pick(run, rest, c, live);
      var later := IdsOf(calls[1..]);
      DistinctTail(c.id, later);
      PickExact(run, rest, c, live);
      FillRunExact(p.run, p.rest, calls[1..], live);
      Gained(ResultIds(run), c.id, later, ResultIds(p.run));
      var f := FillRun(p.run, p.rest, calls[1..], live);
      assert c.id !in ResultIds(f.rest);
    }
  }

  lemma {:induction false} Gained(had: multiset<string>, x: string, later: multiset<string>, now: multiset<string>)
    requires x !in later
    requires now == had + (if x in had then multiset{} else multiset{x})
    ensures now + (later - now) == had + (multiset{x} + later - had)
  {
  }

  lemma {:induction false} DistinctTail(x: string, ids: multiset<string>)
    requires Distinct(multiset{x} + ids)
    ensures Distinct(ids) && x !in ids
  {
    assert (multiset{x} + ids)[x] <= 1;
    forall y ensures ids[y] <= 1 { assert (multiset{x} + ids)[y] <= 1; }
  }

  lemma {:induction false} OrderedTail(run: seq<Message>, rest: seq<Message>, asked: set<string>)
    requires AllTools(run) && Ordered(run + rest, asked)
    ensures Ordered(rest, asked)
    ensures forall x :: x in ResultIds(run) ==> x in asked
    decreases |run|
  {
    if run == [] {
      assert run + rest == rest;
    } else {
      assert (run + rest)[1..] == run[1..] + rest;
      OrderedTail(run[1..], rest, asked);
    }
  }

  lemma {:induction false} OrderedWithout(h: seq<Message>, j: nat, asked: set<string>)
    requires j < |h| && h[j].role == Tool && Ordered(h, asked)
    ensures Ordered(Without(h, j), asked)
    decreases j
  {
    if j == 0 {
      assert Without(h, 0) == h[1..];
    } else {
      var asked' := if IsHead(h[0]) then asked + IdSet(h[0].calls) else asked;
      OrderedWithout(h[1..], j - 1, asked');
      assert Without(h, j)[1..] == Without(h[1..], j - 1);
      assert Without(h, j)[0] == h[0];
    }
  }

  lemma {:induction false} FillRunOrdered(run: seq<Message>, rest: seq<Message>, calls: seq<ToolCall>, live: bool, asked: set<string>)
    requires Ordered(rest, asked)
    ensures Ordered(FillRun(run, rest, calls, live).rest, asked)
    decreases |calls|
  {
    if calls != [] {
      var p := Pick(run, rest, calls[0], live);
      var j := LateIndex(rest, calls[0].id);
      if j < |rest| { OrderedWithout(rest, j, asked); }
      FillRunOrdered(p.run, p.rest, calls[1..], live, asked);
    }
  }

  lemma {:induction false} OrderedForget(h: seq<Message>, asked: set<string>, gone: set<string>)
    requires Ordered(h, asked) && (forall x :: x in gone ==> x !in ResultIds(h))
    ensures Ordered(h, asked - gone)
    decreases |h|
  {
    if h != [] {
      if IsHead(h[0]) {
        OrderedForget(h[1..], asked + IdSet(h[0].calls), gone);
        OrderedMore(h[1..], asked + IdSet(h[0].calls) - gone, asked - gone + IdSet(h[0].calls));
      } else {
        OrderedForget(h[1..], asked, gone);
      }
    }
  }

  lemma {:induction false} OrderedMore(h: seq<Message>, asked: set<string>, more: set<string>)
    requires Ordered(h, asked) && asked <= more
    ensures Ordered(h, more)
    decreases |h|
  {
    if h != [] {
      if IsHead(h[0]) {
        OrderedMore(h[1..], asked + IdSet(h[0].calls), more + IdSet(h[0].calls));
      } else {
        OrderedMore(h[1..], asked, more);
      }
    }
  }

  lemma {:induction false} CallIdsOfNonTool(h: seq<Message>)
    ensures CallIds(NonTool(h)) == CallIds(h)
  {
    if h != [] {
      CallIdsOfNonTool(h[1..]);
      if h[0].role == Tool {
        assert NonTool(h) == NonTool(h[1..]);
      } else {
        assert NonTool(h)[1..] == NonTool(h[1..]);
      }
    }
  }

  lemma {:induction false} SubDistinct(a: multiset<string>, b: multiset<string>)
    requires a <= b && Distinct(b)
    ensures Distinct(a)
  {
  }

  /** Every call id and every result id occurs once, and each result comes after its call. */
  ghost predicate Clean(h: seq<Message>) {
    Ordered(h, {}) && Distinct(CallIds(h)) && Distinct(ResultIds(h))
  }

  lemma {:induction false} CallIdsAfterRun(run: seq<Message>, rest: seq<Message>)
    requires AllTools(run)
    ensures CallIds(run + rest) == CallIds(rest)
  {
    CallIdsOfNonTool(run + rest);
    CallIdsOfNonTool(rest);
    NonToolConcat(run, rest);
    NonToolOfTools(run);
    assert [] + NonTool(rest) == NonTool(rest);
  }

  /** What a clean history says about its first exchange and what follows. */
  lemma {:induction false} CleanExchange(head: Message, run: seq<Message>, rest: seq<Message>)
    requires IsHead(head) && AllTools(run) && Clean([head] + run + rest)
    ensures Distinct(IdsOf(head.calls)) && Distinct(CallIds(rest))
    ensures Distinct(ResultIds(run) + ResultIds(rest)) && Distinct(ResultIds(run))
    ensures Ordered(rest, IdSet(head.calls))
    ensures ResultIds(run) <= IdsOf(head.calls)
  {
    var h := [head] + run + rest;
    var asked := IdSet(head.calls);
    assert h[1..] == run + rest;
    assert {} + asked == asked;
    OrderedTail(run, rest, asked);
    ResultIdsConcat(run, rest);
    CallIdsAfterRun(run, rest);
    SubDistinct(IdsOf(head.calls), CallIds(h));
    SubDistinct(CallIds(rest), CallIds(h));
    SubDistinct(ResultIds(run), ResultIds(h));
    forall x | x in ResultIds(run) ensures ResultIds(run)[x] <= IdsOf(head.calls)[x] {
      IdsOfContains(head.calls, x);
    }
  }

  /** Filling the first run of a clean history pairs it exactly and leaves a clean rest. */
  lemma {:induction false} FillClean(head: Message, run: seq<Message>, rest: seq<Message>, live: bool)
    requires IsHead(head) && AllTools(run) && Clean([head] + run + rest) && live == (run != [])
    ensures var f := FillRun(run, rest, head.calls, live);
            ResultIds(f.run) == IdsOf(head.calls) && Clean(f.rest)
  {
    CleanExchange(head, run, rest);
    FillRunExact(run, rest, head.calls, live);
    FillLeavesOrdered(head, run, rest, live);
    FillLeavesDistinct(run, rest, head.calls, live);
  }

  lemma {:induction false} FillLeavesOrdered(head: Message, run: seq<Message>, rest: seq<Message>, live: bool)
    requires IsHead(head) && AllTools(run) && Clean([head] + run + rest) && live == (run != [])
    ensures Ordered(FillRun(run, rest, head.calls, live).rest, {})
  {
    var calls, asked := head.calls, IdSet(head.calls);
    var f := FillRun(run, rest, calls, live);
    CleanExchange(head, run, rest);
    FillRunExact(run, rest, calls, live);
    FillRunOrdered(run, rest, calls, live, asked);
    forall x | x in asked ensures x !in ResultIds(f.rest) { IdsOfContains(calls, x); }
    OrderedForget(f.rest, asked, asked);
    assert asked - asked == {};
  }

  lemma {:induction false} FillLeavesDistinct(run: seq<Message>, rest: seq<Message>, calls: seq<ToolCall>, live: bool)
    requires AllTools(run) && live == (run != [])
    requires Distinct(CallIds(rest)) && Distinct(ResultIds(run) + ResultIds(rest))
    requires ResultIds(FillRun(run, rest, calls, live).rest) <= ResultIds(rest)
    ensures Distinct(CallIds(FillRun(run, rest, calls, live).rest))
    ensures Distinct(ResultIds(FillRun(run, rest, calls, live).rest))
  {
    var f := FillRun(run, rest, calls, live);
    FillRunKeeps(run, rest, calls, live);
    CallIdsOfNonTool(f.rest);
    CallIdsOfNonTool(rest);
    SubDistinct(ResultIds(f.rest), ResultIds(run) + ResultIds(rest));
  }

  /**
    Repair leaves a clean history exactly paired: so a result is made up only for
    a call that has none.
   */
  lemma {:induction false} FixedPaired(h: seq<Message>)
    requires Clean(h)
    ensures Paired(Fixed(h).msgs)
    decreases |h|
  {
    if h == [] {
    } else if !IsHead(h[0]) {
      SubDistinct(CallIds(h[1..]), CallIds(h));
      SubDistinct(ResultIds(h[1..]), ResultIds(h));
      FixedPaired(h[1..]);
      PairedPlain(h[0], Fixed(h[1..]).msgs);
    } else {
      var run, rest, live := HeadParts(h);
      var f := FillRun(run, rest, h[0].calls, live);
      FillRunKeeps(run, rest, h[0].calls, live);
      FillClean(h[0], run, rest, live);
      FixedPaired(f.rest);
      PairedExchange(h[0], f.run, Fixed(f.rest).msgs);
    }
  }
}
