/**
  Timeouts and stopping over whole runs: a call invoked with a timeout can time out
  until it reports, and a tool that left a way to be stopped is asked to stop and
  waited for, never given up.
 */
module Timeouts {
  import opened BatchSpec
  import P = Permission
  import T = ToolBatch

  /** No event reports for call i, or changes how it can be stopped. */
  ghost predicate LeavesAlone(evs: seq<Event>, i: nat) {
    forall k | 0 <= k < |evs| :: !OnStop(evs[k], i) && !OnReport(evs[k], i)
  }

  predicate OnStop(e: Event, i: nat) { e.SetStop? && e.i == i }

  predicate OnReport(e: Event, i: nat) { e.Report? && e.i == i }

  predicate OnTimeout(e: Event, i: nat) { e.Timeout? && e.i == i }

  /** Invoked, not finished, and with a way to be stopped. */
  predicate InHand(c: Call) { c.phase in {Running, Expired} && c.owed && c.stoppable && c.results == 0 }

  /** An event about another call, or about none, leaves call i as it is. */
  lemma {:induction false} Elsewhere(p: Policy, s: State, e: Event, i: nat)
    requires Inv(p, s) && Known(p, s) && Enabled(p, s, e) && i < |s.calls|
    requires e.Hold? || e.Unhold? || e.i != i
    ensures |Next(p, s, e).calls| == |s.calls| && Next(p, s, e).calls[i] == s.calls[i]
  {
    if !e.Hold? && !e.Unhold? { P.NextDoes(p, s, e); }
  }

  lemma {:induction false} SameCalls(p: Policy, s: State, e: Event)
    requires Inv(p, s) && Known(p, s) && Enabled(p, s, e)
    ensures |Next(p, s, e).calls| == |s.calls|
  {
    if !e.Hold? && !e.Unhold? { P.NextDoes(p, s, e); }
  }

  lemma {:induction false} StepInHand(p: Policy, s: State, e: Event, i: nat)
    requires Inv(p, s) && Known(p, s) && Enabled(p, s, e) && i < |s.calls| && InHand(s.calls[i])
    requires !OnStop(e, i) && !OnReport(e, i)
    ensures |Next(p, s, e).calls| == |s.calls| && InHand(Next(p, s, e).calls[i])
    ensures s.calls[i].phase == Expired ==> Next(p, s, e).calls[i].phase == Expired
  {
    assert CallOk(p, s.calls[i]);
    if e.Hold? || e.Unhold? || e.i != i { Elsewhere(p, s, e, i); }
  }

  lemma {:induction false} RunInHand(p: Policy, s: State, evs: seq<Event>, i: nat)
    requires Inv(p, s) && Legal(p, s, evs) && i < |s.calls| && InHand(s.calls[i]) && LeavesAlone(evs, i)
    ensures var t := After(p, s, evs);
            && Inv(p, t) && Known(p, t) && |t.calls| == |s.calls| && InHand(t.calls[i])
            && (s.calls[i].phase == Expired ==> t.calls[i].phase == Expired)
    decreases |evs|
  {
    InvKnown(p, s);
    if evs != [] {
      StepInHand(p, s, evs[0], i);
      NextInv(p, s, evs[0]);
      assert LeavesAlone(evs[1..], i);
      RunInHand(p, Next(p, s, evs[0]), evs[1..], i);
    }
  }

  lemma {:induction false} SetInHand(p: Policy, s: State, i: nat)
    requires Inv(p, s) && Known(p, s) && Enabled(p, s, SetStop(i, true)) && s.calls[i].phase != Done
    ensures var t := Next(p, s, SetStop(i, true));
            Inv(p, t) && |t.calls| == |s.calls| && InHand(t.calls[i])
  {
    assert CallOk(p, s.calls[i]);
    NextInv(p, s, SetStop(i, true));
  }

  /** Once its tool has set a way to be stopped, a cancel pass asks the call to stop, whatever happens meanwhile. */
  lemma {:induction false} SetCallIsStopped(p: Policy, s: State, i: nat, evs: seq<Event>)
    requires Inv(p, s) && Known(p, s) && Enabled(p, s, SetStop(i, true)) && s.calls[i].phase != Done
    requires Legal(p, Next(p, s, SetStop(i, true)), evs) && LeavesAlone(evs, i)
    ensures var t := After(p, Next(p, s, SetStop(i, true)), evs); i in T.Batch.Stops(t.calls, |t.calls|)
  {
    SetInHand(p, s, i);
    RunInHand(p, Next(p, s, SetStop(i, true)), evs, i);
  }

  lemma {:induction false} TimeoutKeepsInHand(p: Policy, s: State, i: nat)
    requires Inv(p, s) && Known(p, s) && Enabled(p, s, Timeout(i)) && InHand(s.calls[i])
    ensures var t := Next(p, s, Timeout(i));
            && Inv(p, t) && |t.calls| == |s.calls| && InHand(t.calls[i]) && t.calls[i].phase == Expired
            && t.order == s.order
  {
    NextInv(p, s, Timeout(i));
  }

  lemma {:induction false} ReportEnds(p: Policy, s: State, i: nat)
    requires Inv(p, s) && Known(p, s) && i < |s.calls| && InHand(s.calls[i])
    ensures Enabled(p, s, Report(i)) && i !in s.order
    ensures var t := Next(p, s, Report(i));
            && t.calls[i].phase == Done && t.calls[i].results == 1 && !t.calls[i].early && t.order == s.order + [i]
  {
    assert CallOk(p, s.calls[i]);
    assert multiset(s.order)[i] == 0;
    NextInv(p, s, Report(i));
    assert CallOk(p, Next(p, s, Report(i)).calls[i]);
  }

  /**
    A tool sets its way to be stopped, then times out, then reports, with anything
    but a change of that way in between: the timeout writes no result and leaves the
    call unfinished, and the report writes its only one.
   */
  lemma {:induction false} TimedOutCallIsAwaited(p: Policy, s: State, i: nat, before: seq<Event>, behind: seq<Event>)
    requires Inv(p, s) && Known(p, s) && Enabled(p, s, SetStop(i, true)) && s.calls[i].phase != Done
    requires Legal(p, Next(p, s, SetStop(i, true)), before) && LeavesAlone(before, i)
    requires Known(p, After(p, Next(p, s, SetStop(i, true)), before))
    requires Enabled(p, After(p, Next(p, s, SetStop(i, true)), before), Timeout(i))
    requires Legal(p, Next(p, After(p, Next(p, s, SetStop(i, true)), before), Timeout(i)), behind)
    requires LeavesAlone(behind, i)
    ensures
      var t := After(p, Next(p, s, SetStop(i, true)), before);
      var u := Next(p, t, Timeout(i));
      var v := After(p, u, behind);
      && i < |u.calls| && u.calls[i].phase == Expired && u.calls[i].results == 0 && u.order == t.order
      && Inv(p, v) && Known(p, v) && Enabled(p, v, Report(i)) && v.calls[i].phase == Expired && i !in v.order
      && var w := Next(p, v, Report(i));
         w.calls[i].phase == Done && w.calls[i].results == 1 && w.order == v.order + [i]
  {
    SetInHand(p, s, i);
    var t := After(p, Next(p, s, SetStop(i, true)), before);
    RunInHand(p, Next(p, s, SetStop(i, true)), before, i);
    TimeoutKeepsInHand(p, t, i);
    RunInHand(p, Next(p, t, Timeout(i)), behind, i);
    ReportEnds(p, After(p, Next(p, t, Timeout(i)), behind), i);
  }

  // ------------------------------------------------------- armed timeouts

  /** t, behind s, has call i running with its timeout as asked for, and one hold more. */
  ghost predicate RunsArmed(s: State, t: State, i: nat, timed: bool) {
    && i < |t.calls| && t.calls[i].armed == timed && t.calls[i].phase == Running && t.calls[i].owed
    && t.holds == s.holds + 1
  }

  lemma {:induction false} EnterArmed(s: State, i: nat, timed: bool)
    requires i < |s.calls|
    ensures RunsArmed(s, Enter(s, i, timed), i, timed)
  {
  }

  lemma {:induction false} FinishInvokes(s: State, i: nat)
    requires i < |s.calls|
    ensures |Finish(s, i).calls| == |s.calls| && Finish(s, i).calls[i].invokes == s.calls[i].invokes
  {
  }

  lemma {:induction false} GateArmed(p: Policy, s: State, i: nat, timed: bool)
    requires i < |s.calls| && s.calls[i].name in p.tools
    ensures var t := Gate(p, s, i, timed);
            |t.calls| == |s.calls| && (t.calls[i].invokes > s.calls[i].invokes ==> RunsArmed(s, t, i, timed))
  {
    FinishInvokes(s, i);
    EnterArmed(s, i, timed);
  }

  lemma {:induction false} StartArmed(p: Policy, s: State, i: nat, timed: bool)
    requires i < |s.calls|
    ensures var t := Start(p, s, i, timed);
            |t.calls| == |s.calls| && (t.calls[i].invokes > s.calls[i].invokes ==> RunsArmed(s, t, i, timed))
  {
    FinishInvokes(s, i);
    if s.calls[i].name in p.tools { GateArmed(p, s, i, timed); }
  }

  lemma {:induction false} AnswerArmed(p: Policy, s: State, i: nat, v: Verdict, timed: bool)
    requires Known(p, s) && Enabled(p, s, HookAnswer(i, v, timed))
    ensures var t := Next(p, s, HookAnswer(i, v, timed));
            |t.calls| == |s.calls| && (t.calls[i].invokes > s.calls[i].invokes ==> RunsArmed(s, t, i, timed))
  {
    var s' := Put(s, i, s.calls[i].(verdicts := s.calls[i].verdicts + [v]));
    FinishInvokes(s', i);
    GateArmed(p, s', i, timed);
  }

  lemma {:induction false} UserArmed(p: Policy, s: State, e: Event)
    requires Known(p, s) && Enabled(p, s, e) && e.UserAnswer?
    ensures var t := Next(p, s, e);
            |t.calls| == |s.calls| && (t.calls[e.i].invokes > s.calls[e.i].invokes ==> RunsArmed(s, t, e.i, e.timed))
  {
    var s' := if e.always then s.(remembered := s.remembered[s.calls[e.i].name := e.allow]) else s;
    FinishInvokes(s', e.i);
    EnterArmed(s', e.i, e.timed);
  }

  /** Only these events invoke a call, and they arm its timeout as asked for. */
  lemma {:induction false} InvokedIsArmed(p: Policy, s: State, e: Event, i: nat)
    requires Inv(p, s) && Known(p, s) && Enabled(p, s, e) && i < |s.calls|
    requires |Next(p, s, e).calls| == |s.calls| && Next(p, s, e).calls[i].invokes > s.calls[i].invokes
    ensures e.Dispatch? || e.TokensReady? || e.HookAnswer? || e.UserAnswer?
    ensures e.i == i && RunsArmed(s, Next(p, s, e), i, e.timed)
  {
    if e.Hold? || e.Unhold? || e.i != i {
      Elsewhere(p, s, e, i);
    } else if e.Dispatch? || e.TokensReady? {
      StartArmed(p, s, i, e.timed);
    } else if e.HookAnswer? {
      AnswerArmed(p, s, i, e.verdict, e.timed);
    } else if e.UserAnswer? {
      UserArmed(p, s, e);
    }
  }

  lemma {:induction false} StepArmed(p: Policy, s: State, e: Event, i: nat)
    requires Inv(p, s) && Known(p, s) && Enabled(p, s, e) && i < |s.calls| && s.calls[i].armed
    requires !OnReport(e, i) && !OnTimeout(e, i)
    ensures |Next(p, s, e).calls| == |s.calls| && Next(p, s, e).calls[i].armed
  {
    assert CallOk(p, s.calls[i]);
    if e.Hold? || e.Unhold? || e.i != i { Elsewhere(p, s, e, i); }
  }

  /** A call that is invoked with a timeout can time out at every moment until it has reported or did time out. */
  lemma {:induction false} TimeoutStaysPossible(p: Policy, s: State, e: Event, i: nat, evs: seq<Event>)
    requires Inv(p, s) && Known(p, s) && Enabled(p, s, e) && i < |s.calls|
    requires |Next(p, s, e).calls| == |s.calls| && Next(p, s, e).calls[i].invokes > s.calls[i].invokes
    requires (e.Dispatch? || e.TokensReady? || e.HookAnswer? || e.UserAnswer?) && e.timed
    requires Legal(p, Next(p, s, e), evs)
    requires forall k | 0 <= k < |evs| :: !OnReport(evs[k], i) && !OnTimeout(evs[k], i)
    ensures Enabled(p, After(p, Next(p, s, e), evs), Timeout(i))
  {
    InvokedIsArmed(p, s, e, i);
    NextInv(p, s, e);
    RunArmed(p, Next(p, s, e), evs, i);
  }

  lemma {:induction false} RunArmed(p: Policy, s: State, evs: seq<Event>, i: nat)
    requires Inv(p, s) && Legal(p, s, evs) && i < |s.calls| && s.calls[i].armed
    requires forall k | 0 <= k < |evs| :: !OnReport(evs[k], i) && !OnTimeout(evs[k], i)
    ensures Enabled(p, After(p, s, evs), Timeout(i))
    decreases |evs|
  {
    InvKnown(p, s);
    if evs != [] {
      StepArmed(p, s, evs[0], i);
      NextInv(p, s, evs[0]);
      RunArmed(p, Next(p, s, evs[0]), evs[1..], i);
    }
  }

  // -------------------------------------------------- calls not yet started

  /** A call that waits for tokens or for a hook is retired by a cancel pass, with a result; nothing else is. */
  lemma {:induction false} CancelRetires(p: Policy, s: State, i: nat)
    requires Inv(p, s) && Known(p, s) && Enabled(p, s, CancelOne(i))
    ensures
      var t := Next(p, s, CancelOne(i));
      if s.calls[i].phase in {Parked, Hooked} then
        t.calls[i].phase == Done && t.calls[i].results == 1 && t.calls[i].invokes == 0 && t.order == s.order + [i]
      else t == s
  {
    assert CallOk(p, s.calls[i]);
  }

  /** Tokens or a slot in the dispatch loop bring a known call to its first hook, if there is one; an unknown tool fails. */
  lemma {:induction false} StartedCall(p: Policy, s: State, e: Event)
    requires Inv(p, s) && Known(p, s) && Enabled(p, s, e) && (e.Dispatch? || e.TokensReady?)
    ensures
      var d := Next(p, s, e).calls[e.i];
      && d.verdicts == []
      && if e.Dispatch? && e.park then d.phase == Parked
         else if d.name !in p.tools then d.phase == Done && d.invokes == 0
         else if p.hooks > 0 then d.phase == Hooked
         else d.phase !in {Waiting, Parked, Hooked}
  {
    assert CallOk(p, s.calls[e.i]);
  }

  /** The next hook is asked until the last one has answered; its verdict is kept. */
  lemma {:induction false} HookedCall(p: Policy, s: State, i: nat, v: Verdict, timed: bool)
    requires Inv(p, s) && Known(p, s) && Enabled(p, s, HookAnswer(i, v, timed))
    ensures
      var d := Next(p, s, HookAnswer(i, v, timed)).calls[i];
      && d.verdicts == s.calls[i].verdicts + [v]
      && if v == Deny then d.phase == Done && d.invokes == 0
         else if |d.verdicts| < p.hooks then d.phase == Hooked
         else d.phase !in {Waiting, Parked, Hooked}
  {
    assert CallOk(p, s.calls[i]);
  }
}
