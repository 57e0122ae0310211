/**
  The agent's history over whole runs: prompts, notifications, replies, tool
  batches, folds and restores, in any order the busy gate lets through. Whenever
  no batch is running, every call message is followed by exactly its results.
 */
module Conversation {
  import opened Wrappers
  import opened Messages
  import opened BatchSpec
  import C = Compaction
  import S = Supersede
  import Repair

  datatype Mode = Idle | Thinking | Tooling

  /** A running batch: where its head sits in the history, and its calls. */
  datatype Live = Live(at: nat, state: State)

  datatype Agent = Agent(history: seq<Message>, mode: Mode, batch: Option<Live>, queued: Option<seq<bv8>>)

  predicate Busy(a: Agent) { a.mode != Idle }

  ghost function UserText(text: seq<bv8>, cz: Compressor): Message {
    Message(Role.User, Stored(Some(text), cz), [], "", None, [])
  }

  function Joined(queued: Option<seq<bv8>>, text: seq<bv8>): seq<bv8> {
    if queued.None? then text else queued.value + Ascii("\n\n") + text
  }

  /** clm_agent_submit with the optional context line in front; refused while busy. */
  ghost function Submit(a: Agent, context: Option<seq<bv8>>, text: seq<bv8>, cz: Compressor): Agent {
    if Busy(a) then a
    else
      var lead := if context.Some? then [UserText(context.value, cz)] else [];
      a.(history := a.history + lead + [UserText(text, cz)], mode := Thinking)
  }

  /** clm_agent_notify: queued while busy, else submitted. */
  ghost function Notify(a: Agent, text: seq<bv8>, cz: Compressor): Agent {
    if Busy(a) then a.(queued := Some(Joined(a.queued, text))) else Submit(a, None, text, cz)
  }

  /** agent_flush_pending_notify, at the top of every model call. */
  ghost function Flush(a: Agent, cz: Compressor): Agent {
    if a.queued.None? then a
    else a.(history := a.history + [UserText(a.queued.value, cz)], queued := None)
  }

  /** clm_agent_compact: refused while busy. */
  function AskCompact(a: Agent): Agent { if Busy(a) then a else a.(mode := Thinking) }

  /** What the host does from inside cb_on_turn_done. */
  datatype Callback = Rests | Asks(context: Option<seq<bv8>>, text: seq<bv8>) | Compacts

  ghost function Landed(a: Agent, end: Callback, cz: Compressor): Agent {
    match end
    case Rests => a
    case Asks(context, text) => Submit(a, context, text, cz)
    case Compacts => AskCompact(a)
  }

  /**
    agent_turn_done: land, tell the host, then submit what was queued too late; that
    submit is refused like any other when the host has made the agent busy.
   */
  ghost function TurnDone(a: Agent, end: Callback, cz: Compressor): Agent {
    var b := Landed(a.(mode := Idle, queued := None), end, cz);
    if a.queued.None? then b else Submit(b, None, a.queued.value, cz)
  }

  ghost function AssistantText(c: Content): Message { Message(Assistant, c, [], "", None, []) }

  /**
    What the outside world makes the agent do. A fold comes in the middle of a turn,
    or between DoCompact, clm_agent_compact on an idle agent, and CompactDone, when
    the model call for the summary has ended one way or the other.
   */
  datatype Action =
    | DoSubmit(context: Option<seq<bv8>>, text: seq<bv8>)
    | DoNotify(text: seq<bv8>)
    | DoFlush
    | ReplyText(reply: Content, end: Callback)
    | ReplyCalls(calls: seq<ToolCall>, remembered: map<string, bool>)
    | ReplyFailed(partial: Option<Content>, end: Callback)
    | DoCompact
    | CompactDone(end: Callback)
    | ToolEvent(e: Event, content: Content, attachments: seq<Attachment>, stub: Option<seq<bv8>>, goOn: bool,
                end: Callback)
    | Fold(summary: seq<bv8>, keepBytes: nat, folded: seq<Message>, r: nat)
    | Clear(system: Content)
    | Restore(saved: seq<Message>, volatile: seq<(string, seq<bv8>)>)

  /** clm_tools_dispatch's view of the calls. */
  function FreshCalls(calls: seq<ToolCall>): seq<Call> {
    seq(|calls|, i requires 0 <= i < |calls| => Fresh(calls[i].id, calls[i].name))
  }

  ghost function SupersedeAll(h: seq<Message>, volatile: seq<(string, seq<bv8>)>): seq<Message>
    decreases |volatile|
  {
    if volatile == [] then h else SupersedeAll(S.Superseded(h, volatile[0].0, volatile[0].1), volatile[1..])
  }

  /** What clm_agent_restore_history takes over. */
  function NoSystem(h: seq<Message>): seq<Message> {
    if h == [] then [] else (if h[0].role == System then [] else [h[0]]) + NoSystem(h[1..])
  }

  /** A saved log is repaired before it is restored. */
  ghost function Restored(saved: seq<Message>): seq<Message> { NoSystem(Repair.Fixed(saved).msgs) }

  ghost predicate Can(p: Policy, a: Agent, act: Action) {
    match act
    case DoSubmit(_, _) => true
    case DoNotify(_) => true
    case DoFlush => a.mode == Thinking
    case ReplyText(_, _) => a.mode == Thinking
    case ReplyCalls(calls, _) => a.mode == Thinking && calls != []
    case ReplyFailed(_, _) => a.mode == Thinking
    case DoCompact => true
    case CompactDone(_) => a.mode == Thinking
    case ToolEvent(e, _, _, _, _, _) => a.batch.Some? && Known(p, a.batch.value.state) && Enabled(p, a.batch.value.state, e)
    case Fold(summary, keepBytes, folded, r) =>
      a.mode == Thinking && exists cz :: C.Within(a.history, summary, keepBytes, cz, folded, r)
    case Clear(_) => !Busy(a)
    case Restore(saved, _) => !Busy(a) && (Repair.Clean(saved) || Paired(saved))
  }

  /** The history after a batch event, before the end of the batch is looked at. */
  ghost function Written(p: Policy, a: Agent, act: Action): seq<Message>
    requires act.ToolEvent? && Can(p, a, act)
  {
    WrittenAs(a, act, Next(p, a.batch.value.state, act.e))
  }

  /** t is the batch after the event. */
  ghost function WrittenAs(a: Agent, act: Action, t: State): seq<Message>
    requires act.ToolEvent? && a.batch.Some?
  {
    var s := a.batch.value.state;
    if |t.order| <= |s.order| || t.order[|s.order|] >= |s.calls| then a.history
    else
      var c := s.calls[t.order[|s.order|]];
      var old' := if act.stub.Some? then S.Superseded(a.history, c.name, act.stub.value) else a.history;
      old' + [Message(Tool, act.content, [], c.id, Some(c.name), act.attachments)]
  }

  /** One tool event: a call that got done writes its result; the last one ends the batch. */
  ghost function AfterTool(p: Policy, a: Agent, act: Action, cz: Compressor): Agent
    requires act.ToolEvent? && Can(p, a, act)
  {
    var t := Next(p, a.batch.value.state, act.e);
    var h := Written(p, a, act);
    if t.ends == 0 then a.(history := h, batch := Some(a.batch.value.(state := t)))
    else
      var b := a.(history := h, batch := None);
      if act.goOn then b.(mode := Thinking) else TurnDone(b, act.end, cz)
  }

  ghost function Does(p: Policy, a: Agent, act: Action, cz: Compressor): Agent
    requires Can(p, a, act)
  {
    match act
    case DoSubmit(context, text) => Submit(a, context, text, cz)
    case DoNotify(text) => Notify(a, text, cz)
    case DoFlush => Flush(a, cz)
    case ReplyText(reply, end) => TurnDone(a.(history := a.history + [AssistantText(reply)]), end, cz)
    case ReplyCalls(calls, remembered) =>
      a.(history := a.history + [Message(Assistant, Null, calls, "", None, [])],
         mode := Tooling,
         batch := Some(Live(|a.history|, State(FreshCalls(calls), 1, [], 0, remembered))))
    case ReplyFailed(partial, end) =>
      TurnDone(if partial.Some? then a.(history := a.history + [AssistantText(partial.value)]) else a, end, cz)
    case ToolEvent(_, _, _, _, _, _) => AfterTool(p, a, act, cz)
    case DoCompact => AskCompact(a)
    case CompactDone(end) => TurnDone(a, end, cz)
    case Fold(_, _, folded, _) => a.(history := folded)
    case Clear(system) => a.(history := [Message(System, system, [], "", None, [])])
    case Restore(saved, volatile) => a.(history := SupersedeAll(a.history + Restored(saved), volatile))
  }

  // --------------------------------------------------------------- pairing

  function CallIds(calls: seq<Call>): multiset<string> {
    if calls == [] then multiset{} else multiset{calls[0].id} + CallIds(calls[1..])
  }

  function DoneId(c: Call): multiset<string> { if c.phase == Done then multiset{c.id} else multiset{} }

  function DoneIds(calls: seq<Call>): multiset<string> {
    if calls == [] then multiset{} else DoneId(calls[0]) + DoneIds(calls[1..])
  }

  ghost predicate Sound(p: Policy, a: Agent) {
    && (a.mode == Tooling <==> a.batch.Some?)
    && match a.batch
       case None => Paired(a.history)
       case Some(l) =>
         && l.at < |a.history| && Paired(a.history[..l.at]) && IsHead(a.history[l.at])
         && AllTools(a.history[l.at + 1..])
         && CallIds(l.state.calls) == IdsOf(a.history[l.at].calls)
         && ResultIds(a.history[l.at + 1..]) == DoneIds(l.state.calls)
         && Inv(p, l.state) && l.state.ends == 0
  }

  // ------------------------------------------------ what one batch event adds

  lemma {:induction false} PutCallIds(calls: seq<Call>, i: nat, c: Call)
    requires i < |calls| && c.id == calls[i].id
    ensures CallIds(calls[i := c]) == CallIds(calls)
  {
    if i == 0 {
      assert calls[0 := c][1..] == calls[1..];
    } else {
      assert calls[i := c][1..] == calls[1..][i - 1 := c];
      PutCallIds(calls[1..], i - 1, c);
    }
  }

  lemma {:induction false} PutFront(calls: seq<Call>, i: nat, c: Call)
    requires i < |calls|
    ensures calls[i := c][0] == if i == 0 then c else calls[0]
    ensures calls[i := c][1..] == if i == 0 then calls[1..] else calls[1..][i - 1 := c]
  {
  }

  lemma {:induction false} PutDoneIds(calls: seq<Call>, i: nat, c: Call)
    requires i < |calls|
    ensures DoneIds(calls[i := c]) + DoneId(calls[i]) == DoneIds(calls) + DoneId(c)
  {
    PutFront(calls, i, c);
    if i > 0 {
      PutDoneIds(calls[1..], i - 1, c);
      Swap3(DoneId(calls[0]), DoneIds(calls[1..][i - 1 := c]), DoneId(calls[i]), DoneIds(calls[1..]), DoneId(c));
    }
  }

  lemma {:induction false} Swap3(x: multiset<string>, a: multiset<string>, b: multiset<string>,
                                 c: multiset<string>, d: multiset<string>)
    requires a + b == c + d
    ensures (x + a) + b == (x + c) + d
  {
    assert (x + a) + b == x + (a + b);
    assert (x + c) + d == x + (c + d);
  }

  lemma {:induction false} PutIds(calls: seq<Call>, i: nat, c: Call)
    requires i < |calls| && c.id == calls[i].id
    ensures CallIds(calls[i := c]) == CallIds(calls)
    ensures c.phase == Done && calls[i].phase != Done ==> DoneIds(calls[i := c]) == DoneIds(calls) + multiset{c.id}
    ensures (c.phase == Done <==> calls[i].phase == Done) ==> DoneIds(calls[i := c]) == DoneIds(calls)
  {
    PutCallIds(calls, i, c);
    PutDoneIds(calls, i, c);
    Cancel(DoneIds(calls[i := c]), DoneIds(calls), DoneId(c));
  }

  lemma {:induction false} Cancel(a: multiset<string>, b: multiset<string>, x: multiset<string>)
    ensures a + x == b + x ==> a == b
  {
    if a + x == b + x {
      forall k ensures a[k] == b[k] { assert (a + x)[k] == (b + x)[k]; }
    }
  }

  ghost predicate SameIds(a: seq<Call>, b: seq<Call>) {
    |a| == |b| && CallIds(a) == CallIds(b) && forall i | 0 <= i < |a| :: a[i].id == b[i].id
  }

  ghost predicate Idles(s: State, t: State) { t.order == s.order && DoneIds(t.calls) == DoneIds(s.calls) }

  ghost predicate Gains(s: State, t: State, i: nat) {
    i < |s.calls| && t.order == s.order + [i] && DoneIds(t.calls) == DoneIds(s.calls) + multiset{s.calls[i].id}
  }

  /** t comes from s with the same ids and either nothing finished, or exactly call i. */
  ghost predicate Advances(s: State, t: State, i: nat) {
    SameIds(s.calls, t.calls) && (Idles(s, t) || Gains(s, t, i))
  }

  /** Only calls and order matter. */
  lemma {:induction false} Elsewhere(s: State, s': State, t: State, t': State, i: nat)
    requires s.calls == s'.calls && s.order == s'.order && t.calls == t'.calls && t.order == t'.order
    requires Advances(s, t, i)
    ensures Advances(s', t', i)
  {
  }

  lemma {:induction false} FinishAdvances(s: State, i: nat)
    requires i < |s.calls| && s.calls[i].phase != Done
    ensures Advances(s, Finish(s, i), i)
  {
    FinishParts(s, i);
    GainsBy(s, Finish(s, i), i, s.calls[i].(phase := Done, armed := false, results := s.calls[i].results + 1));
  }

  lemma {:induction false} FinishParts(s: State, i: nat)
    requires i < |s.calls|
    ensures var c := s.calls[i].(phase := Done, armed := false, results := s.calls[i].results + 1);
            Finish(s, i).calls == s.calls[i := c] && Finish(s, i).order == s.order + [i]
  {
  }

  lemma {:induction false} GainsBy(s: State, t: State, i: nat, c: Call)
    requires i < |s.calls| && s.calls[i].phase != Done && c.phase == Done && c.id == s.calls[i].id
    requires t.calls == s.calls[i := c] && t.order == s.order + [i]
    ensures Advances(s, t, i)
  {
    PutIds(s.calls, i, c);
    assert Gains(s, t, i);
  }

  lemma {:induction false} SettleParts(s: State)
    ensures Settle(s).calls == s.calls && Settle(s).order == s.order
  {
  }

  lemma {:induction false} PutAdvances(s: State, i: nat, c: Call)
    requires i < |s.calls| && c.id == s.calls[i].id && (c.phase == Done <==> s.calls[i].phase == Done)
    ensures Advances(s, Put(s, i, c), i)
  {
    PutIds(s.calls, i, c);
  }

  lemma {:induction false} AdvancesVia(s: State, i: nat, c: Call, t: State)
    requires i < |s.calls| && c.id == s.calls[i].id && c.phase != Done && s.calls[i].phase != Done
    requires Advances(Put(s, i, c), t, i)
    ensures Advances(s, t, i)
  {
    PutIds(s.calls, i, c);
    assert SameIds(s.calls, Put(s, i, c).calls);
  }

  lemma {:induction false} EnterAdvances(s: State, i: nat, timed: bool)
    requires i < |s.calls| && s.calls[i].phase != Done
    ensures Advances(s, Enter(s, i, timed), i)
  {
    PutAdvances(s, i, Enter(s, i, timed).calls[i]);
    Elsewhere(s, s, Put(s, i, Enter(s, i, timed).calls[i]), Enter(s, i, timed), i);
  }

  lemma {:induction false} GateAdvances(p: Policy, s: State, i: nat, timed: bool)
    requires i < |s.calls| && s.calls[i].phase != Done && s.calls[i].name in p.tools
    ensures Advances(s, Gate(p, s, i, timed), i)
  {
    FinishAdvances(s, i);
    PutAdvances(s, i, s.calls[i].(phase := Asking));
    EnterAdvances(s, i, timed);
  }

  lemma {:induction false} HookAdvances(p: Policy, s: State, i: nat, timed: bool)
    requires i < |s.calls| && s.calls[i].phase != Done && s.calls[i].name in p.tools
    ensures Advances(s, Hook(p, s, i, timed), i)
  {
    PutAdvances(s, i, s.calls[i].(phase := Hooked));
    GateAdvances(p, s, i, timed);
  }

  lemma {:induction false} StartAdvances(p: Policy, s: State, i: nat, timed: bool)
    requires i < |s.calls| && s.calls[i].phase != Done
    ensures Advances(s, Start(p, s, i, timed), i)
  {
    if s.calls[i].name in p.tools { HookAdvances(p, s, i, timed); } else { FinishAdvances(s, i); }
  }

  /** The call an event is about. */
  function Subject(e: Event): nat { if e.Hold? || e.Unhold? then 0 else e.i }

  /** Every batch event finishes at most the call it is about, and keeps the ids. */
  lemma {:induction false} NextAdvances(p: Policy, s: State, e: Event)
    requires Inv(p, s) && Known(p, s) && Enabled(p, s, e)
    ensures Advances(s, Next(p, s, e), Subject(e))
  {
    if e.Hold? || e.Unhold? || e.SetStop? || e.CancelOne? {
      SmallAdvances(p, s, e);
    } else if e.Dispatch? || e.TokensReady? {
      StartEventAdvances(p, s, e);
    } else if e.HookAnswer? {
      AnswerAdvances(p, s, e.i, e.verdict, e.timed);
    } else if e.UserAnswer? {
      UserAdvances(p, s, e.i, e.allow, e.always, e.timed);
    } else if e.Report? {
      ReportAdvances(p, s, e.i);
    } else {
      TimeoutAdvances(p, s, e.i);
    }
  }

  lemma {:induction false} StartEventAdvances(p: Policy, s: State, e: Event)
    requires Known(p, s) && Enabled(p, s, e) && (e.Dispatch? || e.TokensReady?)
    ensures Advances(s, Next(p, s, e), e.i)
  {
    PutAdvances(s, e.i, s.calls[e.i].(phase := Parked));
    StartAdvances(p, s, e.i, e.timed);
  }

  lemma {:induction false} SmallAdvances(p: Policy, s: State, e: Event)
    requires Known(p, s) && Enabled(p, s, e) && (e.Hold? || e.Unhold? || e.SetStop? || e.CancelOne?)
    ensures Advances(s, Next(p, s, e), Subject(e))
  {
    match e {
      case Hold =>
      case Unhold => SettleParts(s.(holds := s.holds - 1));
      case SetStop(i, on) => PutAdvances(s, i, s.calls[i].(stoppable := on));
      case CancelOne(i) => if s.calls[i].phase in {Parked, Hooked} { FinishAdvances(s, i); }
    }
  }

  lemma {:induction false} UserAdvances(p: Policy, s: State, i: nat, allow: bool, always: bool, timed: bool)
    requires Known(p, s) && Enabled(p, s, UserAnswer(i, allow, always, timed))
    ensures Advances(s, Next(p, s, UserAnswer(i, allow, always, timed)), i)
  {
    var m := if always then s.(remembered := s.remembered[s.calls[i].name := allow]) else s;
    if allow { EnterAdvances(m, i, timed); } else { FinishAdvances(m, i); }
    Elsewhere(m, s, Next(p, s, UserAnswer(i, allow, always, timed)), Next(p, s, UserAnswer(i, allow, always, timed)), i);
  }

  lemma {:induction false} AnswerAdvances(p: Policy, s: State, i: nat, v: Verdict, timed: bool)
    requires Known(p, s) && Enabled(p, s, HookAnswer(i, v, timed))
    ensures Advances(s, Next(p, s, HookAnswer(i, v, timed)), i)
  {
    var c := s.calls[i].(verdicts := s.calls[i].verdicts + [v]);
    var m := Put(s, i, c);
    if v == Deny { FinishAdvances(m, i); } else { HookAdvances(p, m, i, timed); }
    AdvancesVia(s, i, c, Next(p, s, HookAnswer(i, v, timed)));
  }

  lemma {:induction false} ReportAdvances(p: Policy, s: State, i: nat)
    requires Known(p, s) && Enabled(p, s, Report(i))
    ensures Advances(s, Next(p, s, Report(i)), i)
  {
    var c := s.calls[i].(owed := false);
    PutAdvances(s, i, c);
    if c.phase != Done {
      FinishAdvances(Put(s, i, c), i);
      AdvancesVia(s, i, c, Next(p, s, Report(i)));
    }
  }

  lemma {:induction false} TimeoutAdvances(p: Policy, s: State, i: nat)
    requires Inv(p, s) && Known(p, s) && Enabled(p, s, Timeout(i))
    ensures Advances(s, Next(p, s, Timeout(i)), i)
  {
    var c := s.calls[i];
    assert CallOk(p, c);
    if c.stoppable {
      PutAdvances(s, i, c.(phase := Expired, armed := false));
    } else {
      FinishAdvances(Put(s, i, c.(early := true)), i);
      AdvancesVia(s, i, c.(early := true), Next(p, s, Timeout(i)));
    }
  }

  lemma {:induction false} AllDoneIds(calls: seq<Call>)
    requires AllDone(calls)
    ensures DoneIds(calls) == CallIds(calls)
  {
    if calls != [] { AllDoneIds(calls[1..]); }
  }

  lemma {:induction false} FreshIds(calls: seq<ToolCall>)
    ensures CallIds(FreshCalls(calls)) == IdsOf(calls) && DoneIds(FreshCalls(calls)) == multiset{}
  {
    if calls != [] {
      assert FreshCalls(calls)[1..] == FreshCalls(calls[1..]);
      FreshIds(calls[1..]);
    }
  }

  // ------------------------------------------------------------ every action

  lemma {:induction false} PairedPlus(h: seq<Message>, m: Message)
    requires Paired(h) && !IsHead(m) && m.role != Tool
    ensures Paired(h + [m])
  {
    PairedPlain(m, []);
    assert [m] + [] == [m];
    PairedConcat(h, [m]);
  }

  lemma {:induction false} SubmitSound(p: Policy, a: Agent, context: Option<seq<bv8>>, text: seq<bv8>, cz: Compressor)
    requires Sound(p, a)
    ensures Sound(p, Submit(a, context, text, cz))
  {
    if !Busy(a) {
      var lead := if context.Some? then [UserText(context.value, cz)] else [];
      if context.Some? { PairedPlus(a.history, UserText(context.value, cz)); }
      assert context.None? ==> a.history + lead == a.history;
      PairedPlus(a.history + lead, UserText(text, cz));
    }
  }

  lemma {:induction false} LandedSound(p: Policy, a: Agent, end: Callback, cz: Compressor)
    requires Sound(p, a)
    ensures Sound(p, Landed(a, end, cz))
  {
    match end {
      case Rests =>
      case Asks(context, text) => SubmitSound(p, a, context, text, cz);
      case Compacts => CompactSound(p, a);
    }
  }

  lemma {:induction false} TurnDoneSound(p: Policy, a: Agent, end: Callback, cz: Compressor)
    requires a.batch.None? && Paired(a.history)
    ensures Sound(p, TurnDone(a, end, cz))
  {
    var b := a.(mode := Idle, queued := None);
    LandedSound(p, b, end, cz);
    if a.queued.Some? { SubmitSound(p, Landed(b, end, cz), None, a.queued.value, cz); }
  }

  lemma {:induction false} DispatchSound(p: Policy, a: Agent, calls: seq<ToolCall>, remembered: map<string, bool>, cz: Compressor)
    requires Sound(p, a) && Can(p, a, ReplyCalls(calls, remembered))
    ensures Sound(p, Does(p, a, ReplyCalls(calls, remembered), cz))
  {
    var b := Does(p, a, ReplyCalls(calls, remembered), cz);
    FreshIds(calls);
    BegunInv(p, b.batch.value.state);
    assert b.history[..|a.history|] == a.history;
    assert b.history[|a.history| + 1..] == [];
    assert b.batch.value.state.calls[0].phase == Waiting;
  }

  /** Superseding during a batch leaves the head, the run and the pairing before it. */
  lemma {:induction false} SupersedeLive(h: seq<Message>, at: nat, name: string, stub: seq<bv8>)
    requires at < |h| && Paired(h[..at]) && IsHead(h[at]) && AllTools(h[at + 1..])
    ensures var g := S.Superseded(h, name, stub);
            Paired(g[..at]) && g[at..] == h[at..]
  {
    var g := S.Superseded(h, name, stub);
    var run := h[at + 1..];
    assert S.NewestHead(h) == at by {
      assert forall i | at < i < |h| :: h[i] == run[i - at - 1];
    }
    forall i | at <= i < |h| ensures g[i] == h[i] { S.SupersedeTouchesOnly(h, name, stub, i); }
    assert S.SameShape(h[..at], g[..at]);
    S.ShapePairing(h[..at], g[..at]);
  }

  /** A finished call's result lands at the end of the run. */
  lemma {:induction false} ResultLands(h: seq<Message>, at: nat, m: Message)
    requires at < |h| && AllTools(h[at + 1..]) && m.role == Tool
    ensures var g := h + [m];
            && g[..at] == h[..at] && g[at] == h[at] && AllTools(g[at + 1..])
            && ResultIds(g[at + 1..]) == ResultIds(h[at + 1..]) + multiset{m.callId}
  {
    var g := h + [m];
    assert g[at + 1..] == h[at + 1..] + [m];
    ResultIdsConcat(h[at + 1..], [m]);
    assert [m][1..] == [];
  }

  lemma {:induction false} BatchPaired(h: seq<Message>, at: nat)
    requires at < |h| && Paired(h[..at]) && IsHead(h[at]) && AllTools(h[at + 1..])
    requires ResultIds(h[at + 1..]) == IdsOf(h[at].calls)
    ensures Paired(h)
  {
    PairedExchange(h[at], h[at + 1..], []);
    PairedConcat(h[..at], [h[at]] + h[at + 1..] + []);
    AroundHead(h, at);
  }

  lemma {:induction false} AroundHead<T>(h: seq<T>, at: nat)
    requires at < |h|
    ensures h == h[..at] + ([h[at]] + h[at + 1..] + [])
  {
  }

  /** Head and pairing stay; the run gains a result for exactly the call that got done. */
  lemma {:induction false} WrittenRun(p: Policy, a: Agent, act: Action)
    requires act.ToolEvent? && Sound(p, a) && Can(p, a, act)
    ensures var l := a.batch.value; var t := Next(p, l.state, act.e); var h := Written(p, a, act);
            && l.at < |h| && Paired(h[..l.at]) && h[l.at] == a.history[l.at] && AllTools(h[l.at + 1..])
            && ResultIds(h[l.at + 1..]) == DoneIds(t.calls)
            && CallIds(t.calls) == CallIds(l.state.calls)
  {
    NextAdvances(p, a.batch.value.state, act.e);
    WrittenAsRun(a, act, Next(p, a.batch.value.state, act.e), Subject(act.e));
  }

  lemma {:induction false} WrittenAsRun(a: Agent, act: Action, t: State, i: nat)
    requires act.ToolEvent? && a.batch.Some? && Advances(a.batch.value.state, t, i)
    requires var l := a.batch.value;
             && l.at < |a.history| && Paired(a.history[..l.at]) && IsHead(a.history[l.at])
             && AllTools(a.history[l.at + 1..]) && ResultIds(a.history[l.at + 1..]) == DoneIds(l.state.calls)
    ensures var l := a.batch.value; var h := WrittenAs(a, act, t);
            && l.at < |h| && Paired(h[..l.at]) && h[l.at] == a.history[l.at] && AllTools(h[l.at + 1..])
            && ResultIds(h[l.at + 1..]) == DoneIds(t.calls) && CallIds(t.calls) == CallIds(l.state.calls)
  {
    var l := a.batch.value;
    if !Idles(l.state, t) {
      assert t.order[|l.state.order|] == i;
      var c := l.state.calls[i];
      WrittenResult(a.history, l.at, c.name, act.stub, Message(Tool, act.content, [], c.id, Some(c.name), act.attachments));
    }
  }

  /** A result behind the run of the live head, its older fellows stubbed. */
  lemma {:induction false} WrittenResult(h: seq<Message>, at: nat, name: string, stub: Option<seq<bv8>>, m: Message)
    requires at < |h| && Paired(h[..at]) && IsHead(h[at]) && AllTools(h[at + 1..]) && m.role == Tool
    ensures
      var g := (if stub.Some? then S.Superseded(h, name, stub.value) else h) + [m];
      && at < |g| && Paired(g[..at]) && g[at] == h[at] && AllTools(g[at + 1..])
      && ResultIds(g[at + 1..]) == ResultIds(h[at + 1..]) + multiset{m.callId}
  {
    var g := if stub.Some? then S.Superseded(h, name, stub.value) else h;
    if stub.Some? { SupersedeLive(h, at, name, stub.value); }
    TailSame(h, g, at);
    ResultLands(g, at, m);
  }

  lemma {:induction false} TailSame(h: seq<Message>, g: seq<Message>, at: nat)
    requires |h| == |g| && at < |h| && g[at..] == h[at..]
    ensures g[at] == h[at] && g[at + 1..] == h[at + 1..]
  {
    assert g[at] == g[at..][0] && h[at] == h[at..][0];
    assert g[at + 1..] == g[at..][1..] && h[at + 1..] == h[at..][1..];
  }

  lemma {:induction false} ToolSound(p: Policy, a: Agent, act: Action, cz: Compressor)
    requires act.ToolEvent? && Sound(p, a) && Can(p, a, act)
    ensures Sound(p, AfterTool(p, a, act, cz))
  {
    var l := a.batch.value;
    var t := Next(p, l.state, act.e);
    var h := Written(p, a, act);
    WrittenRun(p, a, act);
    NextInv(p, l.state, act.e);
    if t.ends > 0 {
      AllDoneIds(t.calls);
      BatchPaired(h, l.at);
      BatchEndsSound(p, a, h, act.goOn, act.end, cz);
    }
  }

  /** The end of a batch, into the next model call or the end of the turn. */
  lemma {:induction false} BatchEndsSound(p: Policy, a: Agent, h: seq<Message>, goOn: bool, end: Callback, cz: Compressor)
    requires a.mode == Tooling && Paired(h)
    ensures
      var b := a.(history := h, batch := None);
      Sound(p, if goOn then b.(mode := Thinking) else TurnDone(b, end, cz))
  {
    TurnDoneSound(p, a.(history := h, batch := None), end, cz);
  }

  lemma {:induction false} SupersedeAllPaired(h: seq<Message>, volatile: seq<(string, seq<bv8>)>)
    requires Paired(h)
    ensures Paired(SupersedeAll(h, volatile))
    decreases |volatile|
  {
    if volatile != [] {
      S.SupersedeKeeps(h, volatile[0].0, volatile[0].1);
      SupersedeAllPaired(S.Superseded(h, volatile[0].0, volatile[0].1), volatile[1..]);
    }
  }

  lemma {:induction false} NoSystemTools(run: seq<Message>, rest: seq<Message>)
    requires AllTools(run)
    ensures NoSystem(run + rest) == run + NoSystem(rest)
    decreases |run|
  {
    if run == [] {
      assert run + rest == rest;
    } else {
      assert (run + rest)[1..] == run[1..] + rest;
      NoSystemTools(run[1..], rest);
    }
  }

  lemma {:induction false} NoSystemExchange(h: seq<Message>, k: nat)
    requires k < |h| && IsHead(h[0]) && AllTools(h[1..1 + k])
    ensures NoSystem(h) == [h[0]] + h[1..1 + k] + NoSystem(h[1 + k..])
  {
    assert h[1..] == h[1..1 + k] + h[1 + k..];
    NoSystemTools(h[1..1 + k], h[1 + k..]);
  }

  /** Leaving out the system messages keeps pairing. */
  lemma {:induction false} NoSystemPaired(h: seq<Message>)
    requires Paired(h)
    ensures Paired(NoSystem(h))
    decreases |h|
  {
    if h == [] {
    } else if IsHead(h[0]) {
      HeadIsAnswered(h);
      var k := RunLen(h[1..]);
      NoSystemPaired(h[1 + k..]);
      NoSystemExchange(h, k);
      PairedExchange(h[0], h[1..1 + k], NoSystem(h[1 + k..]));
    } else {
      NoSystemPaired(h[1..]);
      PairedPlain(h[0], NoSystem(h[1..]));
      assert [] + NoSystem(h[1..]) == NoSystem(h[1..]);
    }
  }

  /** Whatever crash cut the log short, what is restored from it is paired. */
  lemma {:induction false} RestoredPaired(saved: seq<Message>)
    requires Repair.Clean(saved) || Paired(saved)
    ensures Paired(Restored(saved))
  {
    if Paired(saved) {
      PairedIsAnswered(saved);
      Repair.FixedIdleIffAnswered(saved);
    } else {
      Repair.FixedPaired(saved);
    }
    NoSystemPaired(Repair.Fixed(saved).msgs);
  }

  /** Whatever the agent is made to do keeps the history sound. */
  lemma {:induction false} DoesSound(p: Policy, a: Agent, act: Action, cz: Compressor)
    requires Sound(p, a) && Can(p, a, act)
    ensures Sound(p, Does(p, a, act, cz))
  {
    if act.DoSubmit? || act.DoNotify? || act.DoFlush? || act.DoCompact? {
      AskedSound(p, a, act, cz);
    } else if act.ReplyText? || act.ReplyCalls? || act.ReplyFailed? || act.CompactDone? {
      ReplySound(p, a, act, cz);
    } else if act.ToolEvent? {
      ToolSound(p, a, act, cz);
    } else if act.Fold? {
      FoldSound(p, a, act, cz);
    } else if act.Clear? {
      ClearSound(p, a, act, cz);
    } else {
      RestoreSound(p, a, act, cz);
    }
  }

  lemma {:induction false} AskedSound(p: Policy, a: Agent, act: Action, cz: Compressor)
    requires act.DoSubmit? || act.DoNotify? || act.DoFlush? || act.DoCompact?
    requires Sound(p, a) && Can(p, a, act)
    ensures Sound(p, Does(p, a, act, cz))
  {
    match act {
      case DoSubmit(context, text) => SubmitSound(p, a, context, text, cz);
      case DoNotify(text) => NotifySound(p, a, text, cz);
      case DoFlush => FlushSound(p, a, cz);
      case DoCompact => CompactSound(p, a);
    }
  }

  lemma {:induction false} NotifySound(p: Policy, a: Agent, text: seq<bv8>, cz: Compressor)
    requires Sound(p, a)
    ensures Sound(p, Notify(a, text, cz))
  {
    if !Busy(a) { SubmitSound(p, a, None, text, cz); }
  }

  lemma {:induction false} CompactSound(p: Policy, a: Agent)
    requires Sound(p, a)
    ensures Sound(p, AskCompact(a))
  {
  }

  lemma {:induction false} ReplySound(p: Policy, a: Agent, act: Action, cz: Compressor)
    requires act.ReplyText? || act.ReplyCalls? || act.ReplyFailed? || act.CompactDone?
    requires Sound(p, a) && Can(p, a, act)
    ensures Sound(p, Does(p, a, act, cz))
  {
    match act {
      case ReplyText(reply, end) => TextSound(p, a, reply, end, cz);
      case ReplyCalls(calls, remembered) => DispatchSound(p, a, calls, remembered, cz);
      case ReplyFailed(partial, end) =>
        if partial.Some? { TextSound(p, a, partial.value, end, cz); } else { TurnDoneSound(p, a, end, cz); }
      case CompactDone(end) => TurnDoneSound(p, a, end, cz);
    }
  }

  lemma {:induction false} FlushSound(p: Policy, a: Agent, cz: Compressor)
    requires Sound(p, a) && a.mode == Thinking
    ensures Sound(p, Flush(a, cz))
  {
    if a.queued.Some? { PairedPlus(a.history, UserText(a.queued.value, cz)); }
  }

  lemma {:induction false} TextSound(p: Policy, a: Agent, text: Content, end: Callback, cz: Compressor)
    requires Sound(p, a) && a.mode == Thinking
    ensures Sound(p, TurnDone(a.(history := a.history + [AssistantText(text)]), end, cz))
  {
    PairedPlus(a.history, AssistantText(text));
    TurnDoneSound(p, a.(history := a.history + [AssistantText(text)]), end, cz);
  }

  lemma {:induction false} RestoreSound(p: Policy, a: Agent, act: Action, cz: Compressor)
    requires act.Restore? && Sound(p, a) && Can(p, a, act)
    ensures Sound(p, Does(p, a, act, cz))
  {
    RestoredPaired(act.saved);
    PairedConcat(a.history, Restored(act.saved));
    SupersedeAllPaired(a.history + Restored(act.saved), act.volatile);
  }

  lemma {:induction false} FoldSound(p: Policy, a: Agent, act: Action, cz: Compressor)
    requires act.Fold? && Sound(p, a) && Can(p, a, act)
    ensures Sound(p, Does(p, a, act, cz))
  {
    var cz' :| C.Within(a.history, act.summary, act.keepBytes, cz', act.folded, act.r);
    C.WithinKeepsPairing(a.history, act.summary, act.keepBytes, cz', act.folded, act.r);
  }

  lemma {:induction false} ClearSound(p: Policy, a: Agent, act: Action, cz: Compressor)
    requires act.Clear? && Sound(p, a) && Can(p, a, act)
    ensures Sound(p, Does(p, a, act, cz))
  {
    var m := Message(System, act.system, [], "", None, []);
    PairedPlus([], m);
    assert [] + [m] == [m];
  }

  ghost predicate Plays(p: Policy, a: Agent, acts: seq<Action>, cz: Compressor)
    decreases |acts|
  {
    acts == [] || (Can(p, a, acts[0]) && Plays(p, Does(p, a, acts[0], cz), acts[1..], cz))
  }

  ghost function Played(p: Policy, a: Agent, acts: seq<Action>, cz: Compressor): Agent
    requires Plays(p, a, acts, cz)
    decreases |acts|
  {
    if acts == [] then a else Played(p, Does(p, a, acts[0], cz), acts[1..], cz)
  }

  lemma {:induction false} PlayedSound(p: Policy, a: Agent, acts: seq<Action>, cz: Compressor)
    requires Sound(p, a) && Plays(p, a, acts, cz)
    ensures Sound(p, Played(p, a, acts, cz))
    decreases |acts|
  {
    if acts != [] {
      DoesSound(p, a, acts[0], cz);
      PlayedSound(p, Does(p, a, acts[0], cz), acts[1..], cz);
    }
  }

  /** A new agent: the system prompt, nothing running. */
  ghost function NewAgent(system: Content): Agent {
    Agent([Message(System, system, [], "", None, [])], Idle, None, None)
  }

  /**
    In every reachable state with no batch running, each call message is followed
    directly by results whose ids are a permutation of its call ids. So repair has
    nothing to do there, and a fold meets its precondition.
   */
  lemma {:induction false} PairedWhenNoBatch(p: Policy, system: Content, acts: seq<Action>, cz: Compressor)
    requires Plays(p, NewAgent(system), acts, cz)
    ensures var a := Played(p, NewAgent(system), acts, cz);
            && (a.batch.Some? <==> a.mode == Tooling)
            && (a.batch.None? ==> Paired(a.history) && Repair.Fixed(a.history) == Repair.Outcome(a.history, [], []))
  {
    var start := NewAgent(system);
    PairedPlus([], start.history[0]);
    assert [] + [start.history[0]] == start.history;
    PlayedSound(p, start, acts, cz);
    var a := Played(p, start, acts, cz);
    if a.batch.None? {
      PairedIsAnswered(a.history);
      Repair.FixedIdleIffAnswered(a.history);
    }
  }
}
