/**
  One assistant message's tool calls as a state machine over phases. There is no
  counter here: the batch is over when every call is done and nothing holds it
  open. What the engine's counter and flags do is proved against this machine.
 */
module BatchSpec {
  import opened Wrappers

  datatype Verdict = Pass | Deny | Ask

  datatype Phase =
    | Waiting   // not reached by the dispatch loop
    | Parked    // waiting for rate-limit tokens
    | Hooked    // waiting for a pre_tool hook
    | Asking    // waiting for a permission answer
    | Running   // invoked
    | Expired   // timed out, asked to stop, not finished
    | Done

  /**
    A call and its past. owed: the tool was handed the invocation and has not
    reported. armed: the timeout may still fire. early: finished by a timeout
    while the tool could not be stopped.
   */
  datatype Call = Call(
    id: string, name: string, phase: Phase, verdicts: seq<Verdict>,
    owed: bool, armed: bool, stoppable: bool, early: bool, invokes: nat, results: nat)

  /** What does not change during a batch. tools maps a name to its no-prompt flag. */
  datatype Policy = Policy(hooks: nat, asks: bool, tools: map<string, bool>)

  datatype State = State(calls: seq<Call>, holds: nat, order: seq<nat>, ends: nat, remembered: map<string, bool>)

  function Fresh(id: string, name: string): Call {
    Call(id, name, Waiting, [], false, false, false, false, 0, 0)
  }

  function Put(s: State, i: nat, c: Call): State
    requires i < |s.calls|
  {
    s.(calls := s.calls[i := c])
  }

  predicate AllDone(calls: seq<Call>) { forall i | 0 <= i < |calls| :: calls[i].phase == Done }

  predicate AnyWaiting(calls: seq<Call>) { exists i | 0 <= i < |calls| :: calls[i].phase == Waiting }

  /** The batch ends at the moment nothing is open any more. */
  function Settle(s: State): State {
    if AllDone(s.calls) && s.holds == 0 then s.(ends := s.ends + 1) else s
  }

  /** Record the result of call i. */
  function Finish(s: State, i: nat): State
    requires i < |s.calls|
  {
    var c := s.calls[i];
    Settle(Put(s, i, c.(phase := Done, armed := false, results := c.results + 1)).(order := s.order + [i]))
  }

  /** Hand call i to its tool; the caller holds the batch open until the tool returns. */
  function Enter(s: State, i: nat, timed: bool): State
    requires i < |s.calls|
  {
    var c := s.calls[i];
    Put(s, i, c.(phase := Running, owed := true, armed := timed, invokes := c.invokes + 1)).(holds := s.holds + 1)
  }

  function Forced(c: Call): bool { Ask in c.verdicts }

  /** The permission gate, default deny. */
  function Gate(p: Policy, s: State, i: nat, timed: bool): State
    requires i < |s.calls| && s.calls[i].name in p.tools
  {
    var c := s.calls[i];
    if p.tools[c.name] && !Forced(c) then Enter(s, i, timed)
    else if c.name in s.remembered && !s.remembered[c.name] then Finish(s, i)
    else if c.name in s.remembered && !Forced(c) then Enter(s, i, timed)
    else if !p.asks then Finish(s, i)
    else Put(s, i, c.(phase := Asking))
  }

  /** The next hook, or the gate after the last one. */
  function Hook(p: Policy, s: State, i: nat, timed: bool): State
    requires i < |s.calls| && s.calls[i].name in p.tools
  {
    var c := s.calls[i];
    if |c.verdicts| < p.hooks then Put(s, i, c.(phase := Hooked)) else Gate(p, s, i, timed)
  }

  function Start(p: Policy, s: State, i: nat, timed: bool): State
    requires i < |s.calls|
  {
    if s.calls[i].name !in p.tools then Finish(s, i) else Hook(p, s, i, timed)
  }

  function Release(s: State): State
    requires s.holds > 0
  {
    Settle(s.(holds := s.holds - 1))
  }

  /**
    Everything that can happen to a batch. timed says whether a timeout gets armed
    if the call is invoked. Opening and closing a hold bracket the dispatch loop, a
    cancel pass, and each run of a tool's own code; the dispatch loop releases its
    hold only when it has reached every call. A tool that has not reported may set
    its way to be stopped, and may withdraw it.
   */
  datatype Event =
    | Dispatch(i: nat, park: bool, timed: bool)
    | TokensReady(i: nat, timed: bool)
    | HookAnswer(i: nat, verdict: Verdict, timed: bool)
    | UserAnswer(i: nat, allow: bool, always: bool, timed: bool)
    | SetStop(i: nat, on: bool)
    | Report(i: nat)
    | Timeout(i: nat)
    | CancelOne(i: nat)
    | Hold
    | Unhold

  predicate Enabled(p: Policy, s: State, e: Event) {
    match e
    case Hold => s.ends == 0
    case Unhold => s.holds > 0 && (s.holds == 1 ==> !AnyWaiting(s.calls))
    case Dispatch(i, _, _) => s.holds > 0 && i < |s.calls| && s.calls[i].phase == Waiting
    case TokensReady(i, _) => i < |s.calls| && s.calls[i].phase == Parked
    case HookAnswer(i, _, _) => i < |s.calls| && s.calls[i].phase == Hooked
    case UserAnswer(i, _, _, _) => i < |s.calls| && s.calls[i].phase == Asking
    case SetStop(i, _) => i < |s.calls| && s.calls[i].owed
    case Report(i) => i < |s.calls| && s.calls[i].owed
    case Timeout(i) => i < |s.calls| && s.calls[i].armed
    case CancelOne(i) => s.holds > 0 && i < |s.calls|
  }

  /** A call only reaches a hook or a prompt when its tool is known. */
  ghost predicate Known(p: Policy, s: State) {
    forall i | 0 <= i < |s.calls| :: s.calls[i].phase in {Hooked, Asking} ==> s.calls[i].name in p.tools
  }

  function Next(p: Policy, s: State, e: Event): State
    requires Enabled(p, s, e) && Known(p, s)
  {
    match e
    case Hold => s.(holds := s.holds + 1)
    case Unhold => Release(s)
    case Dispatch(i, park, timed) =>
      if park then Put(s, i, s.calls[i].(phase := Parked)) else Start(p, s, i, timed)
    case TokensReady(i, timed) => Start(p, s, i, timed)
    case HookAnswer(i, v, timed) =>
      var s' := Put(s, i, s.calls[i].(verdicts := s.calls[i].verdicts + [v]));
      if v == Deny then Finish(s', i) else Hook(p, s', i, timed)
    case UserAnswer(i, allow, always, timed) =>
      var s' := if always then s.(remembered := s.remembered[s.calls[i].name := allow]) else s;
      if allow then Enter(s', i, timed) else Finish(s', i)
    case SetStop(i, on) => Put(s, i, s.calls[i].(stoppable := on))
    case Report(i) =>
      var s' := Put(s, i, s.calls[i].(owed := false));
      if s.calls[i].phase == Done then s' else Finish(s', i)
    case Timeout(i) =>
      var c := s.calls[i];
      if c.stoppable then Put(s, i, c.(phase := Expired, armed := false))
      else Finish(Put(s, i, c.(early := true)), i)
    case CancelOne(i) =>
      if s.calls[i].phase in {Parked, Hooked} then Finish(s, i) else s
  }

  /** A batch right after its head was written: one hold for the dispatch loop. */
  predicate Begun(s: State) {
    && |s.calls| > 0 && s.holds == 1 && s.order == [] && s.ends == 0
    && forall i | 0 <= i < |s.calls| :: s.calls[i] == Fresh(s.calls[i].id, s.calls[i].name)
  }

  // -------------------------------------------------------------- invariant

  /** Everything a call's past must agree with. */
  ghost predicate CallOk(p: Policy, c: Call) {
    && (c.phase in {Hooked, Asking, Running, Expired} ==> c.name in p.tools)
    && c.results == (if c.phase == Done then 1 else 0)
    && c.invokes <= 1
    && (c.invokes > 0 ==> c.phase in {Running, Expired, Done} && Passed(p, c))
    && (c.phase in {Running, Expired} ==> c.invokes == 1 && c.owed)
    && (c.phase == Done && c.owed ==> c.early)
    && (c.early ==> c.phase == Done) && (c.stoppable ==> c.invokes == 1)
    && (c.owed ==> c.invokes == 1)
    && (c.armed ==> c.phase == Running)
    && (c.phase in {Waiting, Parked} ==> c.verdicts == [])
    && (c.phase == Hooked ==> |c.verdicts| < p.hooks)
    && (c.phase == Asking ==> |c.verdicts| == p.hooks && p.asks)
    && (Deny in c.verdicts ==> c.phase == Done)
  }

  /** Every hook was asked about the call and none denied it. */
  predicate Passed(p: Policy, c: Call) { c.name in p.tools && |c.verdicts| == p.hooks && Deny !in c.verdicts }

  ghost predicate CallsOk(p: Policy, calls: seq<Call>) { forall i | 0 <= i < |calls| :: CallOk(p, calls[i]) }

  /** Results were recorded for exactly the done calls, each once. */
  ghost predicate OrderOk(calls: seq<Call>, order: seq<nat>) {
    && (forall k | k in order :: k < |calls|)
    && (forall i | 0 <= i < |calls| :: multiset(order)[i] == calls[i].results)
  }

  ghost predicate Inv(p: Policy, s: State) {
    && CallsOk(p, s.calls) && OrderOk(s.calls, s.order)
    && s.ends == (if AllDone(s.calls) && s.holds == 0 then 1 else 0)
    && (AnyWaiting(s.calls) ==> s.holds > 0)
  }

  /** The invariant of a batch that has not ended, but for what call i says of itself. */
  ghost predicate OpenBut(p: Policy, s: State, i: nat) {
    && i < |s.calls| && s.calls[i].results == 0
    && (forall j | 0 <= j < |s.calls| && j != i :: CallOk(p, s.calls[j]))
    && OrderOk(s.calls, s.order)
    && s.ends == 0 && (AnyWaiting(s.calls) ==> s.holds > 0)
  }

  /** A call that nothing has run yet. */
  ghost predicate Ready(p: Policy, c: Call) {
    && c.invokes == 0 && !c.owed && !c.armed && !c.early && !c.stoppable && c.results == 0
    && Deny !in c.verdicts && |c.verdicts| <= p.hooks
  }

  lemma {:induction false} BegunInv(p: Policy, s: State)
    requires Begun(s)
    ensures Inv(p, s)
  {
    assert s.calls[0].phase == Waiting;
  }

  lemma {:induction false} InvKnown(p: Policy, s: State)
    requires Inv(p, s)
    ensures Known(p, s)
  {
    assert forall i | 0 <= i < |s.calls| :: CallOk(p, s.calls[i]);
  }

  /** A step that moves one unfinished call to another unfinished phase. */
  lemma {:induction false} PutInv(p: Policy, s: State, i: nat, c: Call)
    requires OpenBut(p, s, i) && CallOk(p, c) && c.results == 0
    requires c.phase == Waiting ==> s.calls[i].phase == Waiting
    ensures Inv(p, Put(s, i, c))
  {
    var t := Put(s, i, c);
    WaitingBefore(s, i, c);
    assert t.calls[i].phase != Done;
  }

  lemma {:induction false} WaitingBefore(s: State, i: nat, c: Call)
    requires i < |s.calls| && (c.phase == Waiting ==> s.calls[i].phase == Waiting)
    ensures AnyWaiting(Put(s, i, c).calls) ==> AnyWaiting(s.calls)
  {
    var t := Put(s, i, c);
    if AnyWaiting(t.calls) {
      var j :| 0 <= j < |t.calls| && t.calls[j].phase == Waiting;
      assert s.calls[j].phase == Waiting;
    }
  }

  /** Finishing a call that may be finished re-establishes the invariant. */
  lemma {:induction false} FinishInv(p: Policy, s: State, i: nat)
    requires OpenBut(p, s, i)
    requires CallOk(p, s.calls[i].(phase := Done, armed := false, results := 1))
    ensures Inv(p, Finish(s, i))
  {
    var c := s.calls[i].(phase := Done, armed := false, results := 1);
    var t := Put(s, i, c).(order := s.order + [i]);
    assert OrderOk(t.calls, t.order) by {
      forall j | 0 <= j < |t.calls| ensures multiset(t.order)[j] == t.calls[j].results {}
    }
    WaitingBefore(s, i, c);
  }

  lemma {:induction false} EnterInv(p: Policy, s: State, i: nat, timed: bool)
    requires OpenBut(p, s, i) && Ready(p, s.calls[i]) && Passed(p, s.calls[i])
    ensures Inv(p, Enter(s, i, timed))
  {
    var c := s.calls[i].(phase := Running, owed := true, armed := timed, invokes := s.calls[i].invokes + 1);
    PutInv(p, s, i, c);
    assert Put(s, i, c).calls[i].phase != Done;
  }

  lemma {:induction false} GateInv(p: Policy, s: State, i: nat, timed: bool)
    requires OpenBut(p, s, i) && Ready(p, s.calls[i]) && s.calls[i].name in p.tools
    requires |s.calls[i].verdicts| == p.hooks
    ensures Inv(p, Gate(p, s, i, timed))
  {
    var c := s.calls[i];
    if p.tools[c.name] && !Forced(c) {
      EnterInv(p, s, i, timed);
    } else if c.name in s.remembered && !s.remembered[c.name] {
      FinishInv(p, s, i);
    } else if c.name in s.remembered && !Forced(c) {
      EnterInv(p, s, i, timed);
    } else if !p.asks {
      FinishInv(p, s, i);
    } else {
      PutInv(p, s, i, c.(phase := Asking));
    }
  }

  lemma {:induction false} HookInv(p: Policy, s: State, i: nat, timed: bool)
    requires OpenBut(p, s, i) && Ready(p, s.calls[i]) && s.calls[i].name in p.tools
    ensures Inv(p, Hook(p, s, i, timed))
  {
    if |s.calls[i].verdicts| < p.hooks {
      PutInv(p, s, i, s.calls[i].(phase := Hooked));
    } else {
      GateInv(p, s, i, timed);
    }
  }

  lemma {:induction false} StartInv(p: Policy, s: State, i: nat, timed: bool)
    requires OpenBut(p, s, i) && Ready(p, s.calls[i])
    ensures Inv(p, Start(p, s, i, timed))
  {
    if s.calls[i].name !in p.tools { FinishInv(p, s, i); } else { HookInv(p, s, i, timed); }
  }

  /** While a call is not done the batch is open. */
  lemma {:induction false} NotDoneOpen(p: Policy, s: State, i: nat)
    requires Inv(p, s) && i < |s.calls| && s.calls[i].phase != Done
    ensures OpenBut(p, s, i) && CallOk(p, s.calls[i])
  {
  }

  lemma {:induction false} HookAnswerInv(p: Policy, s: State, i: nat, v: Verdict, timed: bool)
    requires Inv(p, s) && Known(p, s) && i < |s.calls| && s.calls[i].phase == Hooked
    ensures Inv(p, Next(p, s, HookAnswer(i, v, timed)))
  {
    NotDoneOpen(p, s, i);
    var c := s.calls[i].(verdicts := s.calls[i].verdicts + [v]);
    var t := Put(s, i, c);
    WaitingBefore(s, i, c);
    assert OpenBut(p, t, i);
    if v == Deny { FinishInv(p, t, i); } else { HookInv(p, t, i, timed); }
  }

  lemma {:induction false} SamePhase(s: State, i: nat, c: Call)
    requires i < |s.calls| && c.phase == s.calls[i].phase
    ensures AllDone(Put(s, i, c).calls) <==> AllDone(s.calls)
  {
    var t := Put(s, i, c);
    assert forall j | 0 <= j < |t.calls| :: t.calls[j].phase == s.calls[j].phase;
    if AllDone(t.calls) { forall j | 0 <= j < |s.calls| ensures s.calls[j].phase == Done { assert t.calls[j].phase == Done; } }
  }

  lemma {:induction false} SetStopInv(p: Policy, s: State, i: nat, on: bool)
    requires Inv(p, s) && Known(p, s) && i < |s.calls| && s.calls[i].owed
    ensures Inv(p, Next(p, s, SetStop(i, on)))
  {
    assert CallOk(p, s.calls[i]);
    var c := s.calls[i].(stoppable := on);
    WaitingBefore(s, i, c);
    SamePhase(s, i, c);
  }

  lemma {:induction false} ReportInv(p: Policy, s: State, i: nat)
    requires Inv(p, s) && Known(p, s) && i < |s.calls| && s.calls[i].owed
    ensures Inv(p, Next(p, s, Report(i)))
  {
    assert CallOk(p, s.calls[i]);
    var c := s.calls[i].(owed := false);
    var t := Put(s, i, c);
    WaitingBefore(s, i, c);
    if c.phase == Done {
      SamePhase(s, i, c);
    } else {
      NotDoneOpen(p, s, i);
      FinishInv(p, t, i);
    }
  }

  lemma {:induction false} TimeoutInv(p: Policy, s: State, i: nat)
    requires Inv(p, s) && Known(p, s) && i < |s.calls| && s.calls[i].armed
    ensures Inv(p, Next(p, s, Timeout(i)))
  {
    assert CallOk(p, s.calls[i]);
    NotDoneOpen(p, s, i);
    var c := s.calls[i];
    if c.stoppable {
      PutInv(p, s, i, c.(phase := Expired, armed := false));
    } else {
      WaitingBefore(s, i, c.(early := true));
      FinishInv(p, Put(s, i, c.(early := true)), i);
    }
  }

  lemma {:induction false} UnholdInv(p: Policy, s: State)
    requires Inv(p, s) && Enabled(p, s, Unhold)
    ensures Inv(p, Release(s))
  {
  }

  /** Whatever happens, the invariant holds afterwards. */
  lemma {:induction false} NextInv(p: Policy, s: State, e: Event)
    requires Inv(p, s) && Known(p, s) && Enabled(p, s, e)
    ensures Inv(p, Next(p, s, e))
    ensures Known(p, Next(p, s, e))
  {
    match e {
      case Hold =>
      case Unhold => UnholdInv(p, s);
      case Dispatch(i, park, timed) =>
        NotDoneOpen(p, s, i);
        if park { PutInv(p, s, i, s.calls[i].(phase := Parked)); } else { StartInv(p, s, i, timed); }
      case TokensReady(i, timed) =>
        NotDoneOpen(p, s, i);
        StartInv(p, s, i, timed);
      case HookAnswer(i, v, timed) => HookAnswerInv(p, s, i, v, timed);
      case UserAnswer(i, allow, always, timed) =>
        NotDoneOpen(p, s, i);
        var t := if always then s.(remembered := s.remembered[s.calls[i].name := allow]) else s;
        assert OpenBut(p, t, i);
        if allow { EnterInv(p, t, i, timed); } else { FinishInv(p, t, i); }
      case SetStop(i, on) => SetStopInv(p, s, i, on);
      case Report(i) => ReportInv(p, s, i);
      case Timeout(i) => TimeoutInv(p, s, i);
      case CancelOne(i) =>
        if s.calls[i].phase in {Parked, Hooked} {
          NotDoneOpen(p, s, i);
          FinishInv(p, s, i);
        }
    }
    InvKnown(p, Next(p, s, e));
  }

  // ------------------------------------------------------------- whole runs

  ghost predicate Legal(p: Policy, s: State, evs: seq<Event>)
    decreases |evs|
  {
    evs == [] || (Known(p, s) && Enabled(p, s, evs[0]) && Legal(p, Next(p, s, evs[0]), evs[1..]))
  }

  ghost function After(p: Policy, s: State, evs: seq<Event>): State
    requires Legal(p, s, evs)
    decreases |evs|
  {
    if evs == [] then s else After(p, Next(p, s, evs[0]), evs[1..])
  }

  lemma {:induction false} RunInv(p: Policy, s: State, evs: seq<Event>)
    requires Inv(p, s) && Legal(p, s, evs)
    ensures Inv(p, After(p, s, evs)) && Known(p, After(p, s, evs))
    decreases |evs|
  {
    InvKnown(p, s);
    if evs != [] {
      NextInv(p, s, evs[0]);
      RunInv(p, Next(p, s, evs[0]), evs[1..]);
    }
  }

  /**
    Over every interleaving: each call has one result exactly when it is done, the
    batch has ended exactly once when all are done and no hold is left, and before
    that not at all.
   */
  lemma {:induction false} EndsOnce(p: Policy, s: State, evs: seq<Event>)
    requires Begun(s) && Legal(p, s, evs)
    ensures var t := After(p, s, evs);
            && t.ends == (if AllDone(t.calls) && t.holds == 0 then 1 else 0)
            && forall i | 0 <= i < |t.calls| ::
                 t.calls[i].results == multiset(t.order)[i] == if t.calls[i].phase == Done then 1 else 0
  {
    BegunInv(p, s);
    RunInv(p, s, evs);
    var t := After(p, s, evs);
    assert forall i | 0 <= i < |t.calls| :: CallOk(p, t.calls[i]);
  }

  /** Until the batch has ended something can always happen next. */
  lemma {:induction false} NoDeadlock(p: Policy, s: State) returns (e: Event)
    requires Inv(p, s) && s.ends == 0
    ensures Enabled(p, s, e) && !e.Hold? && !e.CancelOne? && !e.SetStop?
  {
    if AnyWaiting(s.calls) {
      var i :| 0 <= i < |s.calls| && s.calls[i].phase == Waiting;
      return Dispatch(i, false, false);
    }
    if s.holds > 0 {
      return Unhold;
    }
    var i :| 0 <= i < |s.calls| && s.calls[i].phase != Done;
    var c := s.calls[i];
    assert CallOk(p, c);
    assert c.phase != Waiting;
    match c.phase {
      case Parked => e := TokensReady(i, false);
      case Hooked => e := HookAnswer(i, Deny, false);
      case Asking => e := UserAnswer(i, false, false, false);
      case Running => e := Report(i);
      case Expired => e := Report(i);
    }
  }

  /**
    After the end only a call whose timeout could not stop it can still reach the
    batch, by its late report or on the way to it, and that changes no result.
   */
  lemma {:induction false} QuietAfterEnd(p: Policy, s: State, e: Event)
    requires Inv(p, s) && s.ends == 1 && Enabled(p, s, e) && Known(p, s)
    ensures (e.Report? || e.SetStop?) && s.calls[e.i].early && s.calls[e.i].owed
    ensures var t := Next(p, s, e); t.ends == 1 && t.order == s.order && t.holds == 0
  {
    assert AllDone(s.calls) && s.holds == 0;
    assert !e.Unhold? && !e.Hold? && !e.CancelOne?;
    assert CallOk(p, s.calls[e.i]);
  }

  /** An ended batch is out of reach exactly when no abandoned call is still to report. */
  lemma {:induction false} OutOfReachIff(p: Policy, s: State)
    requires Inv(p, s) && s.ends == 1 && Known(p, s)
    ensures (forall e :: !Enabled(p, s, e)) <==> (forall i | 0 <= i < |s.calls| :: !(s.calls[i].early && s.calls[i].owed))
  {
    forall e | Enabled(p, s, e) ensures exists i :: 0 <= i < |s.calls| && s.calls[i].early && s.calls[i].owed {
      QuietAfterEnd(p, s, e);
    }
    if i :| 0 <= i < |s.calls| && s.calls[i].early && s.calls[i].owed {
      assert Enabled(p, s, Report(i));
    }
  }

  /** Every timeout in the run finds its call with a way to be stopped. */
  ghost predicate Stoppable(p: Policy, s: State, evs: seq<Event>)
    requires Legal(p, s, evs)
    decreases |evs|
  {
    evs == [] ||
    ((evs[0].Timeout? ==> s.calls[evs[0].i].stoppable) && Stoppable(p, Next(p, s, evs[0]), evs[1..]))
  }

  ghost predicate NoneEarly(calls: seq<Call>) { forall i | 0 <= i < |calls| :: !calls[i].early }

  lemma {:induction false} NextEarly(p: Policy, s: State, e: Event)
    requires Known(p, s) && Enabled(p, s, e) && NoneEarly(s.calls)
    requires e.Timeout? ==> s.calls[e.i].stoppable
    ensures NoneEarly(Next(p, s, e).calls)
  {
    match e {
      case Dispatch(i, park, timed) => StartEarly(p, s, i, timed);
      case TokensReady(i, timed) => StartEarly(p, s, i, timed);
      case HookAnswer(i, v, timed) =>
        var t := Put(s, i, s.calls[i].(verdicts := s.calls[i].verdicts + [v]));
        assert NoneEarly(t.calls);
        FinishEarly(t, i);
        HookEarly(p, t, i, timed);
      case _ =>
    }
  }

  lemma {:induction false} FinishEarly(s: State, i: nat)
    requires i < |s.calls| && NoneEarly(s.calls)
    ensures NoneEarly(Finish(s, i).calls)
  {
  }

  lemma {:induction false} GateEarly(p: Policy, s: State, i: nat, timed: bool)
    requires i < |s.calls| && NoneEarly(s.calls) && s.calls[i].name in p.tools
    ensures NoneEarly(Gate(p, s, i, timed).calls)
  {
    FinishEarly(s, i);
  }

  lemma {:induction false} HookEarly(p: Policy, s: State, i: nat, timed: bool)
    requires i < |s.calls| && NoneEarly(s.calls) && s.calls[i].name in p.tools
    ensures NoneEarly(Hook(p, s, i, timed).calls)
  {
    GateEarly(p, s, i, timed);
  }

  lemma {:induction false} StartEarly(p: Policy, s: State, i: nat, timed: bool)
    requires i < |s.calls| && NoneEarly(s.calls)
    ensures NoneEarly(Start(p, s, i, timed).calls)
  {
    FinishEarly(s, i);
    if s.calls[i].name in p.tools { HookEarly(p, s, i, timed); }
  }

  /** If every tool that can time out can be stopped, nothing reaches the batch after its end. */
  lemma {:induction false} StoppableIsSafe(p: Policy, s: State, evs: seq<Event>)
    requires Begun(s) && Legal(p, s, evs) && Stoppable(p, s, evs)
    ensures After(p, s, evs).ends == 1 ==> forall e :: !Enabled(p, After(p, s, evs), e)
  {
    BegunInv(p, s);
    RunInv(p, s, evs);
    StayNotEarly(p, s, evs);
    if After(p, s, evs).ends == 1 { OutOfReachIff(p, After(p, s, evs)); }
  }

  lemma {:induction false} StayNotEarly(p: Policy, s: State, evs: seq<Event>)
    requires NoneEarly(s.calls) && Legal(p, s, evs) && Stoppable(p, s, evs)
    ensures NoneEarly(After(p, s, evs).calls)
    decreases |evs|
  {
    if evs != [] {
      NextEarly(p, s, evs[0]);
      StayNotEarly(p, Next(p, s, evs[0]), evs[1..]);
    }
  }

  /**
    The other way round: a timeout that cannot stop its call leaves the tool owing
    a report for a call that is already done.
   */
  lemma {:induction false} UnstoppableIsAbandoned(p: Policy, s: State, i: nat)
    requires Inv(p, s) && Known(p, s) && Enabled(p, s, Timeout(i)) && !s.calls[i].stoppable
    ensures var t := Next(p, s, Timeout(i));
            t.calls[i].phase == Done && t.calls[i].early && Enabled(p, t, Report(i))
  {
    assert CallOk(p, s.calls[i]);
  }

  /** So does a timeout that comes after the tool withdrew its way to be stopped. */
  lemma {:induction false} WithdrawnIsAbandoned(p: Policy, s: State, i: nat)
    requires Inv(p, s) && Known(p, s) && Enabled(p, s, SetStop(i, false)) && s.calls[i].armed
    ensures var t := Next(p, s, SetStop(i, false));
            && Inv(p, t) && Known(p, t) && Enabled(p, t, Timeout(i))
            && Next(p, t, Timeout(i)).calls[i].early && Enabled(p, Next(p, t, Timeout(i)), Report(i))
  {
    var t := Next(p, s, SetStop(i, false));
    NextInv(p, s, SetStop(i, false));
    UnstoppableIsAbandoned(p, t, i);
  }

  /** The shortest run after which a late report reaches a batch that is gone. */
  lemma {:induction false} AbandonedRun()
    ensures var p := Policy(0, false, map["t" := true]);
            var s := State([Fresh("1", "t")], 1, [], 0, map[]);
            var evs := [Dispatch(0, false, true), Unhold, Unhold, Timeout(0)];
            Begun(s) && Legal(p, s, evs) && After(p, s, evs).ends == 1 && Enabled(p, After(p, s, evs), Report(0))
  {
    var p := Policy(0, false, map["t" := true]);
    var s := State([Fresh("1", "t")], 1, [], 0, map[]);
    var c := Call("1", "t", Running, [], true, true, false, false, 1, 0);
    var s1 := State([c], 2, [], 0, map[]);
    AbandonedStart(p, s);
    var s2, s3 := s1.(holds := 1), s1.(holds := 0);
    assert s1.calls[0].phase == Running && !AllDone(s1.calls);
    assert Next(p, s1, Unhold) == s2 && Next(p, s2, Unhold) == s3;
    AbandonedEnd(p, s3);
    FourEvents(p, s, s1, s2, s3, Next(p, s3, Timeout(0)), Dispatch(0, false, true), Unhold, Unhold, Timeout(0));
  }

  lemma {:induction false} AbandonedStart(p: Policy, s: State)
    requires p == Policy(0, false, map["t" := true]) && s == State([Fresh("1", "t")], 1, [], 0, map[])
    ensures Begun(s) && Known(p, s) && Enabled(p, s, Dispatch(0, false, true))
    ensures Next(p, s, Dispatch(0, false, true)) ==
            State([Call("1", "t", Running, [], true, true, false, false, 1, 0)], 2, [], 0, map[])
  {
    assert !Forced(s.calls[0]);
    var c := Call("1", "t", Running, [], true, true, false, false, 1, 0);
    var t := Next(p, s, Dispatch(0, false, true));
    assert t == Enter(s, 0, true);
    assert s.calls[0 := c] == [c];
    assert t.calls == [c];
  }

  lemma {:induction false} AbandonedEnd(p: Policy, s: State)
    requires p == Policy(0, false, map["t" := true])
    requires s == State([Call("1", "t", Running, [], true, true, false, false, 1, 0)], 0, [], 0, map[])
    ensures Known(p, s) && Enabled(p, s, Timeout(0))
    ensures Next(p, s, Timeout(0)).ends == 1 && Enabled(p, Next(p, s, Timeout(0)), Report(0))
  {
    var t := Next(p, s, Timeout(0));
    assert |t.calls| == 1 && t.calls[0].phase == Done && t.calls[0].owed;
    assert AllDone(t.calls);
  }

  lemma {:induction false} FourEvents(p: Policy, s0: State, s1: State, s2: State, s3: State, s4: State,
                                      e0: Event, e1: Event, e2: Event, e3: Event)
    requires Known(p, s0) && Enabled(p, s0, e0) && Next(p, s0, e0) == s1
    requires Known(p, s1) && Enabled(p, s1, e1) && Next(p, s1, e1) == s2
    requires Known(p, s2) && Enabled(p, s2, e2) && Next(p, s2, e2) == s3
    requires Known(p, s3) && Enabled(p, s3, e3) && Next(p, s3, e3) == s4
    ensures Legal(p, s0, [e0, e1, e2, e3]) && After(p, s0, [e0, e1, e2, e3]) == s4
  {
    assert [e3][1..] == [] && Legal(p, s4, []) && After(p, s4, []) == s4;
    assert [e2, e3][1..] == [e3] && Legal(p, s3, [e3]) && After(p, s3, [e3]) == s4;
    assert [e1, e2, e3][1..] == [e2, e3] && Legal(p, s2, [e2, e3]) && After(p, s2, [e2, e3]) == s4;
    assert [e0, e1, e2, e3][1..] == [e1, e2, e3] && Legal(p, s1, [e1, e2, e3]) && After(p, s1, [e1, e2, e3]) == s4;
  }
}
