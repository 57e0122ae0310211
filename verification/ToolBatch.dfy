/**
  The tool batch as the engine runs it: flags per invocation, one pending counter
  with temporary holds, and a test for zero wherever the counter drops. Each
  method is one entry point or one return of control, so that a tool, a hook or a
  prompt may call back at any place between them.
 */
module ToolBatch {
  import opened Wrappers
  import opened BatchSpec

  /** struct clm_tool_invocation: what the engine keeps of one call. */
  datatype Invocation = Invocation(
    id: string, name: string,
    completed: bool, timedOut: bool,
    rlTimer: bool, timer: bool,
    gate: bool, gateNext: nat,
    awaitingPerm: bool, forceAsk: bool,
    hasCancel: bool)

  /** The flags of c say phase a.phase, and both tell the same past. */
  ghost predicate Tied(c: Invocation, a: Call) {
    && Alike(c, a)
    && (c.completed <==> a.phase == Done)
    && (c.rlTimer <==> a.phase == Parked)
    && (c.gate <==> a.phase == Hooked)
    && (c.awaitingPerm <==> a.phase == Asking)
    && (a.phase != Done ==> c.gateNext == |a.verdicts| + (if a.phase == Hooked then 1 else 0))
    && (a.phase !in {Expired, Done} ==> !c.timedOut)
  }

  ghost predicate Alike(c: Invocation, a: Call) {
    && c.id == a.id && c.name == a.name
    && c.forceAsk == Forced(a) && c.hasCancel == a.stoppable
    && (c.timer <==> a.armed)
  }

  /** A call between two phases: no flag is up. */
  ghost predicate Between(c: Invocation, a: Call) {
    && Alike(c, a) && a.phase != Done && !c.completed && !c.rlTimer && !c.gate && !c.awaitingPerm
  }

  /** A call on its way through hooks and gate: never invoked, no timeout set or fired. */
  ghost predicate Uninvoked(c: Invocation, a: Call) {
    a.phase !in {Running, Expired} && !c.timer && !c.timedOut && c.gateNext == |a.verdicts|
  }

  ghost function OpenCount(calls: seq<Call>): nat {
    if calls == [] then 0 else (if calls[0].phase == Done then 0 else 1) + OpenCount(calls[1..])
  }

  lemma {:induction false} OpenCountPut(calls: seq<Call>, i: nat, c: Call)
    requires i < |calls|
    ensures OpenCount(calls[i := c]) ==
            OpenCount(calls) - (if calls[i].phase == Done then 0 else 1) + (if c.phase == Done then 0 else 1)
  {
    if i > 0 {
      assert calls[i := c][1..] == calls[1..][i - 1 := c];
      OpenCountPut(calls[1..], i - 1, c);
    } else {
      assert calls[0 := c][1..] == calls[1..];
    }
  }

  lemma {:induction false} OpenCountZero(calls: seq<Call>)
    ensures OpenCount(calls) == 0 <==> AllDone(calls)
  {
    if calls != [] {
      OpenCountZero(calls[1..]);
      assert forall j | 0 <= j < |calls[1..]| :: calls[1..][j] == calls[j + 1];
      if AllDone(calls[1..]) && calls[0].phase == Done {
        forall j | 0 <= j < |calls| ensures calls[j].phase == Done { if j > 0 { assert calls[1..][j - 1].phase == Done; } }
      }
    }
  }

  ghost function OrderIds(calls: seq<Call>, order: seq<nat>): seq<string>
    requires forall k | k in order :: k < |calls|
  {
    seq(|order|, k requires 0 <= k < |order| => assert order[k] in order; calls[order[k]].id)
  }

  lemma {:induction false} OrderIdsPut(calls: seq<Call>, i: nat, c: Call, order: seq<nat>)
    requires i < |calls| && c.id == calls[i].id
    requires forall k | k in order :: k < |calls|
    ensures OrderIds(calls[i := c], order) == OrderIds(calls, order)
    ensures OrderIds(calls[i := c], order + [i]) == OrderIds(calls, order) + [c.id]
  {
    assert forall k | 0 <= k < |order| :: order[k] in order;
    assert OrderIds(calls[i := c], order + [i]) == OrderIds(calls[i := c], order) + [c.id];
  }

  class Batch {
    const policy: Policy
    var remembered: map<string, bool>
    var inv: seq<Invocation>
    var pending: nat            // outstanding completions plus holds
    var results: seq<string>    // ids of the results written to the history, in order
    var toolsDone: nat          // how often clm_agent_tools_done was called
    var freed: bool
    ghost var model: State

    /** The engine's fields say what the model says; counter and model agree on the end. */
    ghost predicate Linked()
      reads this
    {
      && |inv| == |model.calls| && remembered == model.remembered
      && pending == OpenCount(model.calls) + model.holds
      && toolsDone == model.ends && (freed <==> model.ends > 0)
      && (forall k | k in model.order :: k < |model.calls|)
      && results == OrderIds(model.calls, model.order)
    }

    ghost predicate TiedBut(i: int)
      reads this
    {
      |inv| == |model.calls| && forall j | 0 <= j < |inv| && j != i :: Tied(inv[j], model.calls[j])
    }

    ghost predicate Valid()
      reads this
    {
      Linked() && TiedBut(-1) && Inv(policy, model)
    }

    /** Call i is between two phases, everything else is in place, nothing has ended. */
    ghost predicate Midway(i: nat)
      reads this
    {
      && i < |inv| && Linked() && TiedBut(i) && Between(inv[i], model.calls[i])
      && model.ends == 0
    }

    /** clm_tools_dispatch up to its dispatch loop: calls mirrored, one hold taken. */
    constructor (policy: Policy, remembered: map<string, bool>, calls: seq<(string, string)>)
      requires calls != []
      ensures Valid() && Begun(model) && this.policy == policy && model.remembered == remembered
      ensures model.calls == seq(|calls|, i requires 0 <= i < |calls| => Fresh(calls[i].0, calls[i].1))
      ensures results == [] && !freed
    {
      this.policy := policy;
      this.remembered := remembered;
      inv := seq(|calls|, i requires 0 <= i < |calls| =>
        Invocation(calls[i].0, calls[i].1, false, false, false, false, false, 0, false, false, false));
      pending := |calls| + 1;
      results := [];
      toolsDone, freed := 0, false;
      model := State(seq(|calls|, i requires 0 <= i < |calls| => Fresh(calls[i].0, calls[i].1)), 1, [], 0, remembered);
      new;
      AllOpen(model.calls);
      BegunInv(policy, model);
    }

    static lemma {:induction false} AllOpen(calls: seq<Call>)
      requires forall i | 0 <= i < |calls| :: calls[i].phase != Done
      ensures OpenCount(calls) == |calls|
    {
      if calls != [] { AllOpen(calls[1..]); }
    }

    /** Moving one open call to another open phase leaves counter and results right. */
    lemma {:induction false} Moved(i: nat, c: Call)
      requires Linked() && i < |inv| && c.id == model.calls[i].id
      requires c.phase == Done <==> model.calls[i].phase == Done
      ensures OpenCount(model.calls[i := c]) == OpenCount(model.calls)
      ensures OrderIds(model.calls[i := c], model.order) == results
    {
      OpenCountPut(model.calls, i, c);
      OrderIdsPut(model.calls, i, c, model.order);
    }

    /** batch_finalize. */
    method BatchFinalize()
      requires !freed
      modifies this`toolsDone, this`freed
      ensures freed && toolsDone == old(toolsDone) + 1
    {
      toolsDone := toolsDone + 1;
      freed := true;
    }

    /** Drop one from the counter and end the batch at zero. */
    method DropPending()
      requires !freed
      modifies this`pending, this`toolsDone, this`freed
      ensures pending == if old(pending) > 0 then old(pending) - 1 else 0
      ensures freed == (pending == 0)
      ensures toolsDone == old(toolsDone) + if freed then 1 else 0
    {
      if pending > 0 {
        pending := pending - 1;
      }
      if pending == 0 {
        BatchFinalize();
      }
    }

    /** inv_finalize. */
    method InvFinalize(i: nat)
      requires Midway(i)
      modifies this
      ensures Linked() && TiedBut(-1) && model == Finish(old(model), i)
    {
      NoteResult(i);
      DropPending();
    }

    /** The call is done and its result written; the counter is still one too high. */
    method NoteResult(i: nat)
      requires Midway(i)
      modifies this`inv, this`results, this`model
      ensures TiedBut(-1) && model == Finish(old(model), i) && |inv| == |model.calls| && !freed
      ensures pending == OpenCount(model.calls) + model.holds + 1 && (pending == 1 <==> model.ends == 1)
      ensures toolsDone == old(model).ends == 0 && model.ends <= 1 && remembered == model.remembered
      ensures (forall k | k in model.order :: k < |model.calls|) && results == OrderIds(model.calls, model.order)
    {
      ghost var a := model.calls[i].(phase := Done, armed := false, results := model.calls[i].results + 1);
      OpenCountPut(model.calls, i, a);
      OrderIdsPut(model.calls, i, a, model.order);
      OpenCountZero(model.calls[i := a]);
      inv := inv[i := inv[i].(completed := true, timer := false)];
      results := results + [inv[i].id];
      model := Finish(model, i);
    }

    /** run_invoke up to the call of the tool: arm the timeout, hold the batch, hand over. */
    method RunInvoke(i: nat, timed: bool)
      requires Midway(i) && Uninvoked(inv[i], model.calls[i])
      modifies this
      ensures Linked() && TiedBut(-1) && model == Enter(old(model), i, timed)
    {
      ghost var a := Enter(model, i, timed).calls[i];
      OpenCountPut(model.calls, i, a);
      OrderIdsPut(model.calls, i, a, model.order);
      if timed {
        inv := inv[i := inv[i].(timer := true)];
      }
      pending := pending + 1;
      model := Enter(model, i, timed);
    }

    /** permission_gate. */
    method PermissionGate(i: nat, timed: bool)
      requires Midway(i) && Uninvoked(inv[i], model.calls[i])
      requires inv[i].name in policy.tools
      modifies this
      ensures Linked() && TiedBut(-1) && model == Gate(policy, old(model), i, timed)
    {
      var name := inv[i].name;
      if policy.tools[name] && !inv[i].forceAsk {
        RunInvoke(i, timed);
        return;
      }
      if name in remembered && (!remembered[name] || !inv[i].forceAsk) {
        if remembered[name] {
          RunInvoke(i, timed);
        } else {
          InvFinalize(i);
        }
        return;
      }
      if !policy.asks {
        InvFinalize(i);
        return;
      }
      Moved(i, model.calls[i].(phase := Asking));
      inv := inv[i := inv[i].(awaitingPerm := true)];
      model := Put(model, i, model.calls[i].(phase := Asking));
    }

    /** gate_run. */
    method GateRun(i: nat, timed: bool)
      requires Midway(i) && Uninvoked(inv[i], model.calls[i])
      requires inv[i].name in policy.tools
      modifies this
      ensures Linked() && TiedBut(-1) && model == Hook(policy, old(model), i, timed)
    {
      if inv[i].gateNext >= policy.hooks {
        PermissionGate(i, timed);
        return;
      }
      Moved(i, model.calls[i].(phase := Hooked));
      inv := inv[i := inv[i].(gateNext := inv[i].gateNext + 1, gate := true)];
      model := Put(model, i, model.calls[i].(phase := Hooked));
    }

    /** dispatch_one. */
    method DispatchOne(i: nat, timed: bool)
      requires Midway(i) && Uninvoked(inv[i], model.calls[i])
      modifies this
      ensures Linked() && TiedBut(-1) && model == Start(policy, old(model), i, timed)
    {
      if inv[i].name !in policy.tools {
        InvFinalize(i);
      } else {
        GateRun(i, timed);
      }
    }

    // ------------------------------------------------------ what can happen

    /** Pick call i up out of its phase: take down its flag and look at what is left. */
    lemma {:induction false} Facts(i: nat)
      requires Valid() && i < |inv|
      ensures Tied(inv[i], model.calls[i]) && CallOk(policy, model.calls[i]) && Known(policy, model)
      ensures model.calls[i].phase != Done ==> model.ends == 0 && !freed
    {
      InvKnown(policy, model);
    }

    /** One turn of the dispatch loop: run the call now, or park it until tokens refill. */
    method DispatchNext(i: nat, park: bool, timed: bool)
      requires Valid() && Known(policy, model) && Enabled(policy, model, Dispatch(i, park, timed))
      modifies this
      ensures Valid() && model == Next(policy, old(model), Dispatch(i, park, timed))
    {
      Facts(i);
      NextInv(policy, model, Dispatch(i, park, timed));
      if park {
        Park(i);
      } else {
        UntimedYet(i);
        DispatchOne(i, timed);
      }
    }

    /** Wait for the rate-limit timer. */
    method Park(i: nat)
      requires Valid() && i < |inv| && model.calls[i].phase == Waiting
      modifies this`inv, this`model
      ensures Linked() && TiedBut(-1) && model == Put(old(model), i, old(model).calls[i].(phase := Parked))
    {
      Facts(i);
      Moved(i, model.calls[i].(phase := Parked));
      inv := inv[i := inv[i].(rlTimer := true)];
      model := Put(model, i, model.calls[i].(phase := Parked));
    }

    /** A call that was never invoked has no timeout running or fired. */
    lemma {:induction false} UntimedYet(i: nat)
      requires Valid() && i < |inv| && model.calls[i].phase in {Waiting, Parked, Hooked, Asking}
      ensures !inv[i].timer
    {
      Facts(i);
    }

    /** on_rl_timer. */
    method OnRlTimer(i: nat, timed: bool)
      requires Valid() && Known(policy, model) && Enabled(policy, model, TokensReady(i, timed))
      modifies this
      ensures Valid() && model == Next(policy, old(model), TokensReady(i, timed))
    {
      Facts(i);
      NextInv(policy, model, TokensReady(i, timed));
      inv := inv[i := inv[i].(rlTimer := false)];
      DispatchOne(i, timed);
    }

    /** clm_tool_gate_respond to a gate that still has its call. */
    method GateRespond(i: nat, verdict: Verdict, timed: bool)
      requires Valid() && Known(policy, model) && Enabled(policy, model, HookAnswer(i, verdict, timed))
      modifies this
      ensures Valid() && model == Next(policy, old(model), HookAnswer(i, verdict, timed))
    {
      Facts(i);
      NextInv(policy, model, HookAnswer(i, verdict, timed));
      Answered(i, verdict);
      if verdict == Deny {
        InvFinalize(i);
      } else {
        GateRun(i, timed);
      }
    }

    /** Take the gate down and note the verdict; an Ask forces the permission prompt. */
    method Answered(i: nat, verdict: Verdict)
      requires Valid() && i < |inv| && model.calls[i].phase == Hooked
      modifies this
      ensures Midway(i) && Uninvoked(inv[i], model.calls[i])
      ensures model == Put(old(model), i, old(model).calls[i].(verdicts := old(model).calls[i].verdicts + [verdict]))
    {
      Facts(i);
      ghost var a := model.calls[i].(verdicts := model.calls[i].verdicts + [verdict]);
      Moved(i, a);
      inv := inv[i := inv[i].(gate := false)];
      if verdict == Ask {
        inv := inv[i := inv[i].(forceAsk := true)];
      }
      model := Put(model, i, a);
    }

    /** clm_tool_permission_respond. */
    method PermissionRespond(i: nat, allow: bool, always: bool, timed: bool) returns (accepted: bool)
      requires Valid() && i < |inv|
      modifies this
      ensures Valid() && accepted == (old(model).calls[i].phase == Asking)
      ensures !accepted ==> model == old(model)
      ensures accepted ==> Known(policy, old(model)) && model == Next(policy, old(model), UserAnswer(i, allow, always, timed))
    {
      Facts(i);
      if !inv[i].awaitingPerm {
        return false;  // already answered, or not parked
      }
      NextInv(policy, model, UserAnswer(i, allow, always, timed));
      TakePrompt(i, allow, always);
      if allow {
        RunInvoke(i, timed);
      } else {
        InvFinalize(i);
      }
      return true;
    }

    /** Take the prompt down and remember the answer, if asked to. */
    method TakePrompt(i: nat, allow: bool, always: bool)
      requires Valid() && i < |inv| && model.calls[i].phase == Asking
      modifies this`inv, this`remembered, this`model
      ensures Midway(i) && Uninvoked(inv[i], model.calls[i])
      ensures model == if always then old(model).(remembered := old(model).remembered[old(model).calls[i].name := allow])
                       else old(model)
    {
      Facts(i);
      inv := inv[i := inv[i].(awaitingPerm := false)];
      if always {
        remembered := remembered[inv[i].name := allow];
        model := model.(remembered := model.remembered[model.calls[i].name := allow]);
      }
    }

    /** clm_tool_invocation_set_cancel, called by a tool that has not reported; NULL withdraws the callback. */
    method SetCancel(i: nat, on: bool)
      requires Valid() && Known(policy, model) && Enabled(policy, model, SetStop(i, on))
      modifies this
      ensures Valid() && model == Next(policy, old(model), SetStop(i, on))
      ensures i < |inv| && inv[i].hasCancel == model.calls[i].stoppable == on
    {
      Facts(i);
      NextInv(policy, model, SetStop(i, on));
      NoteCancel(i, on);
    }

    method NoteCancel(i: nat, on: bool)
      requires Valid() && i < |inv|
      modifies this`inv, this`model
      ensures Linked() && TiedBut(-1) && model == Put(old(model), i, old(model).calls[i].(stoppable := on))
    {
      Facts(i);
      Moved(i, model.calls[i].(stoppable := on));
      inv := inv[i := inv[i].(hasCancel := on)];
      model := Put(model, i, model.calls[i].(stoppable := on));
    }

    /** clm_tool_complete and its kin: a second report is ignored. */
    method Complete(i: nat)
      requires Valid() && Known(policy, model) && Enabled(policy, model, BatchSpec.Report(i))
      modifies this
      ensures Valid() && model == Next(policy, old(model), BatchSpec.Report(i))
    {
      Facts(i);
      NextInv(policy, model, BatchSpec.Report(i));
      ghost var a := model.calls[i].(owed := false);
      OpenCountPut(model.calls, i, a);
      OrderIdsPut(model.calls, i, a, model.order);
      model := Put(model, i, a);
      if inv[i].completed {
        return;
      }
      InvFinalize(i);
    }

    /** on_timeout. Asking the tool to stop returns before it reports. */
    method OnTimeout(i: nat)
      requires Valid() && Known(policy, model) && Enabled(policy, model, BatchSpec.Timeout(i))
      modifies this
      ensures Valid() && model == Next(policy, old(model), BatchSpec.Timeout(i))
    {
      Facts(i);
      NextInv(policy, model, BatchSpec.Timeout(i));
      if inv[i].hasCancel {
        Expire(i);
      } else {
        Abandon(i);
        InvFinalize(i);
      }
    }

    /** Flag the timeout and ask the tool to stop; its report will come. */
    method Expire(i: nat)
      requires Valid() && i < |inv| && model.calls[i].armed
      modifies this
      ensures Linked() && TiedBut(-1)
      ensures model == Put(old(model), i, old(model).calls[i].(phase := Expired, armed := false))
    {
      Facts(i);
      Moved(i, model.calls[i].(phase := Expired, armed := false));
      inv := inv[i := inv[i].(timedOut := true, timer := false)];
      model := Put(model, i, model.calls[i].(phase := Expired, armed := false));
    }

    /** Flag the timeout of a tool that cannot be stopped. */
    method Abandon(i: nat)
      requires Valid() && i < |inv| && model.calls[i].armed
      modifies this
      ensures Midway(i)
      ensures model == Put(old(model), i, old(model).calls[i].(early := true))
    {
      Facts(i);
      Moved(i, model.calls[i].(early := true));
      inv := inv[i := inv[i].(timedOut := true)];
      model := Put(model, i, model.calls[i].(early := true));
    }

    /** Take a hold: the start of a cancel pass. */
    method HoldOpen()
      requires Valid() && Enabled(policy, model, Hold)
      modifies this
      ensures Valid() && Known(policy, old(model)) && model == Next(policy, old(model), Hold)
    {
      InvKnown(policy, model);
      NextInv(policy, model, Hold);
      pending := pending + 1;
      model := model.(holds := model.holds + 1);
    }

    /** Drop a hold: the end of the dispatch loop, of a cancel pass, or of a tool's own code. */
    method LetGo()
      requires Valid() && Enabled(policy, model, Unhold)
      modifies this
      ensures Valid() && Known(policy, old(model)) && model == Next(policy, old(model), Unhold)
    {
      InvKnown(policy, model);
      NextInv(policy, model, Unhold);
      OpenCountZero(model.calls);
      model := Release(model);
      DropPending();
    }

    /** One turn of the loop of clm_tools_cancel. stop: the tool is asked to stop. */
    method CancelNext(i: nat) returns (stop: bool)
      requires Valid() && Known(policy, model) && Enabled(policy, model, BatchSpec.CancelOne(i))
      modifies this
      ensures Valid() && model == Next(policy, old(model), BatchSpec.CancelOne(i))
      ensures stop <==> old(model).calls[i].phase in {Running, Expired} && old(model).calls[i].stoppable
    {
      Facts(i);
      NextInv(policy, model, BatchSpec.CancelOne(i));
      if inv[i].completed {
        return false;
      }
      if inv[i].rlTimer {
        // It never started: drop the timer and retire it here.
        inv := inv[i := inv[i].(rlTimer := false)];
        InvFinalize(i);
        return false;
      }
      if inv[i].awaitingPerm {
        return false;  // the answer that is still owed retires it
      }
      if inv[i].gate {
        // A late answer finds the gate empty and only frees it.
        inv := inv[i := inv[i].(gate := false)];
        InvFinalize(i);
        return false;
      }
      return inv[i].hasCancel;
    }

    /** The dispatch loop of clm_tools_dispatch when nothing calls back in between. */
    method DispatchAll(park: seq<bool>, timed: seq<bool>)
      requires Valid() && Begun(model) && |park| == |timed| == |inv|
      modifies this
      ensures Valid() && Reached(model.calls, park, |park|)
    {
      var i := 0;
      while i < |inv|
        invariant 0 <= i <= |inv| == |park| && Valid() && model.holds > 0
        invariant Reached(model.calls, park, i)
      {
        Facts(i);
        ReachedStep(policy, model, park, i, timed[i]);
        DispatchNext(i, park[i], timed[i]);
        i := i + 1;
      }
      LetGo();
    }

    /** The loop has reached the first n calls; the parked ones wait, the others have started. */
    static ghost predicate Reached(calls: seq<Call>, park: seq<bool>, n: nat)
      requires n <= |park|
    {
      && |calls| == |park|
      && (forall j | 0 <= j < n :: if park[j] then calls[j].phase == Parked else calls[j].phase !in {Waiting, Parked})
      && (forall j | n <= j < |calls| :: calls[j].phase == Waiting)
    }

    static lemma {:induction false} ReachedStep(p: Policy, s: State, park: seq<bool>, i: nat, timed: bool)
      requires i < |park| && Reached(s.calls, park, i) && s.holds > 0 && Known(p, s)
      ensures Enabled(p, s, Dispatch(i, park[i], timed))
      ensures var t := Next(p, s, Dispatch(i, park[i], timed)); t.holds > 0 && Reached(t.calls, park, i + 1)
    {
      StartLocal(p, s, i, timed);
    }

    /** Starting a call leaves the others where they are and never drops a hold. */
    static lemma {:induction false} StartLocal(p: Policy, s: State, i: nat, timed: bool)
      requires i < |s.calls| && s.holds > 0
      ensures var t := Start(p, s, i, timed);
              && |t.calls| == |s.calls| && t.holds >= s.holds && t.calls[i].phase !in {Waiting, Parked}
              && forall j | 0 <= j < |s.calls| && j != i :: t.calls[j] == s.calls[j]
    {
    }

    /** What a cancel pass makes of a call's phase. */
    static function Cancelled(phase: Phase): Phase {
      if phase in {Parked, Hooked} then Done else phase
    }

    static ghost predicate CancelledUpTo(was: seq<Call>, now: seq<Call>, n: nat) {
      && |was| == |now|
      && (forall j | 0 <= j < n && j < |now| :: now[j].phase == Cancelled(was[j].phase))
      && (forall j | n <= j < |now| :: now[j] == was[j])
    }

    /** The running calls among the first n that can be asked to stop. */
    static function Stops(calls: seq<Call>, n: nat): set<nat> {
      set j: nat | j < n && j < |calls| && calls[j].phase in {Running, Expired} && calls[j].stoppable
    }

    static lemma {:induction false} CancelStep(p: Policy, was: seq<Call>, s: State, i: nat)
      requires i < |s.calls| && CancelledUpTo(was, s.calls, i) && s.holds > 0 && Known(p, s)
      ensures var t := Next(p, s, BatchSpec.CancelOne(i)); CancelledUpTo(was, t.calls, i + 1) && t.holds == s.holds
      ensures Stops(was, i + 1) ==
              Stops(was, i) + if s.calls[i].phase in {Running, Expired} && s.calls[i].stoppable then {i} else {}
    {
    }

    /**
      clm_tools_cancel when nothing calls back in between: calls that never started
      are retired, prompts keep waiting for their answer, running tools are asked to
      stop and stay until they report.
     */
    method CancelAll() returns (stops: set<nat>)
      requires Valid() && model.ends == 0
      modifies this
      ensures Valid() && CancelledUpTo(old(model.calls), model.calls, |inv|)
      ensures stops == Stops(old(model.calls), |inv|)
    {
      ghost var was := model.calls;
      HoldOpen();
      stops := {};
      var i := 0;
      while i < |inv|
        invariant 0 <= i <= |inv| && Valid() && model.holds > 0
        invariant CancelledUpTo(was, model.calls, i) && stops == Stops(was, i)
        invariant AnyWaiting(model.calls) ==> model.holds > 1
      {
        var stop := CancelAt(i, was);
        stops := if stop then stops + {i} else stops;
        i := i + 1;
      }
      LetGo();
    }

    /** One call of the cancel pass. */
    method CancelAt(i: nat, ghost was: seq<Call>) returns (stop: bool)
      requires Valid() && model.holds > 0 && (AnyWaiting(model.calls) ==> model.holds > 1)
      requires i < |inv| && CancelledUpTo(was, model.calls, i)
      modifies this
      ensures Valid() && model.holds > 0 && (AnyWaiting(model.calls) ==> model.holds > 1)
      ensures |inv| == old(|inv|) && CancelledUpTo(was, model.calls, i + 1)
      ensures Stops(was, i + 1) == Stops(was, i) + if stop then {i} else {}
    {
      Facts(i);
      CancelStep(policy, was, model, i);
      stop := CancelNext(i);
    }
  }
}
