/**
  The MCP stdio client as the code keeps it: flags, a count of handles still to
  close, an intent, a list of pending requests, a token bucket. Every entry point
  does what McpSpec says.
 */
module McpClient {
  import opened Wrappers
  import opened McpSpec

  function Open(h: Handle): nat { if h == Gone then 0 else 1 }

  class Client {
    var closing: bool
    var closeRemaining: nat
    var closeIntent: Goal
    var procSpawned: bool
    var dead: bool
    var discarded: bool
    var onReady: bool
    var nextId: nat
    var pending: seq<Pending>
    var restartTokens: real
    var lastRefill: nat
    var answers: seq<(nat, How)>   // what the tool invocations were told, in order
    var told: seq<bool>            // what the on_ready callback was told, in order
    var freed: nat
    ghost var grants: nat
    ghost var model: Life

    /** Flags and counter say what the handles say. */
    ghost predicate Linked()
      reads this
    {
      && closing == model.down && closeIntent == model.goal
      && (closing ==> closeRemaining == Open(model.inp) + Open(model.out) + Open(model.proc))
      && procSpawned == Spawned(model)
      && dead == model.dead && discarded == model.discarded 
      && nextId == model.nextId && pending == model.pending && answers == model.answers
      && freed == model.frees && model.caller == Caller(onReady, told)
      && model.budget == Budget(restartTokens, lastRefill, grants)
    }

    ghost predicate Valid(start: nat)
      reads this
    {
      Linked() && Inv(model, start)
    }

    /** clm_mcp_connect, up to its return. */
    constructor (now: nat, ready: bool, ok: bool, sent: bool, frees: bool)
      ensures Valid(now) && model == Connect(now, ready, ok, sent, frees)
      ensures fresh(this)
    {
      closing, closeRemaining, closeIntent, procSpawned := false, 0, Idle, false;
      dead, discarded, onReady := false, false, ready;
      nextId, pending, answers, told, freed := 1, [], [], [], 0;
      restartTokens, lastRefill, grants := BURST, now, 0;
      model := Life(Gone, Gone, Gone, false, false, false, Idle, false, false, Caller(ready, []), false, 0, 0,
                    Budget(BURST, now, 0), [], 1, [], []);
      new;
      ConnectInv(now, ready, ok, sent, frees);
      SpawnProcess(ok);
      if !ok {
        // The caller owns its context on an error return.
        onReady := false;
        model := model.(caller := Caller(false, told));
        BeginTeardown(Free);
      } else {
        model := model.(handed := true);
        StartHandshake(sent, frees);
      }
    }

    /** mcp_client_free_now. */
    method FreeNow()
      modifies this`freed
      ensures freed == old(freed) + 1
    {
      freed := freed + 1;
    }

    /** mcp_begin_close. */
    method BeginTeardown(intent: Goal)
      requires Linked() && (Spawned(model) ==> model.out != Gone && model.proc != Gone)
      modifies this
      ensures Linked() && model == BeginClose(old(model), intent)
    {
      ghost var s := model;
      if closing || !procSpawned {
        if intent == Free {
          if closing {
            closeIntent := Free;
          } else {
            FreeNow();  // nothing left open at all
          }
        }
        model := BeginClose(s, intent);
        return;
      }
      closing := true;
      procSpawned := false;
      closeIntent := intent;
      closeRemaining := 3;
      model := BeginClose(s, intent);
    }

    /** mcp_spawn. */
    method SpawnProcess(ok: bool)
      requires Linked() && !closing
      modifies this
      ensures Linked() && model == Spawn(old(model), ok)
    {
      ghost var s := model;
      if !ok {
        // The handles were initialised and have to come down through libuv.
        closing := true;
        closeIntent := Idle;
        closeRemaining := 3;
        procSpawned := false;
      } else {
        procSpawned := true;
      }
      model := Spawn(s, ok);
    }

    /** mcp_send over stdio. ok: the write was accepted. */
    method SendRequest(kind: Kind, ok: bool) returns (sent: bool)
      requires Linked()
      modifies this
      ensures Linked() && (model, sent) == Send(old(model), kind, ok)
    {
      ghost var s := model;
      nextId := nextId + 1;
      var entry := Pending(nextId - 1, kind);
      model := Send(s, kind, ok).0;
      if dead || !procSpawned || !ok {
        return false;
      }
      pending := [entry] + pending;
      return true;
    }

    /** The on_ready callback. */
    method CallReady(good: bool, frees: bool)
      requires Linked() && (Spawned(model) ==> model.out != Gone && model.proc != Gone)
      modifies this
      ensures Linked() && model == Ready(old(model), good, frees)
    {
      if !onReady {
        return;
      }
      told := told + [good];
      model := model.(caller := Caller(true, told));
      if frees {
        Release();
      }
    }

    /** mcp_start_handshake and what its callers do when it fails. */
    method StartHandshake(sent: bool, frees: bool)
      requires Linked() && (Spawned(model) ==> model.out != Gone && model.proc != Gone)
      modifies this
      ensures Linked() && model == Handshake(old(model), sent, frees)
    {
      var ok := SendRequest(Init, sent);
      if !ok {
        CallReady(false, frees);
      }
    }

    /** mcp_do_respawn. */
    method Restart(ok: bool, sent: bool, frees: bool)
      requires Linked() && !closing
      modifies this
      ensures Linked() && model == DoRespawn(old(model), ok, sent, frees)
    {
      nextId := 1;
      model := model.(nextId := 1);
      SpawnProcess(ok);
      if !ok {
        CallReady(false, frees);
        return;
      }
      dead := false;
      model := model.(dead := false);
      StartHandshake(sent, frees);
    }

    /** mcp_handle_closed, shared by all three handles. */
    method OnHandleClosed(h: Which, ok: bool, sent: bool, frees: bool, ghost start: nat)
      requires Valid(start) && Enabled(model, Closed(h, ok, sent, frees))
      modifies this
      ensures Valid(start) && model == HandleClosed(old(model), h, ok, sent, frees)
    {
      ClosedInv(model, h, ok, sent, frees, start);
      OneClosed(h, ok, sent, frees);
    }

    method OneClosed(h: Which, ok: bool, sent: bool, frees: bool)
      requires Linked() && closing && !Spawned(model) && Enabled(model, Closed(h, ok, sent, frees))
      modifies this
      ensures Linked() && model == HandleClosed(old(model), h, ok, sent, frees)
    {
      var last := CountDown(h);
      if last {
        closing := false;
        model := model.(down := false);
        ActOnIntent(ok, sent, frees);
      }
    }

    /** One handle less to wait for. */
    method CountDown(h: Which) returns (last: bool)
      requires Linked() && closing && (match h case In => model.inp case Out => model.out case Proc => model.proc) == Closing
      requires !Spawned(model)
      modifies this`closeRemaining, this`model
      ensures Linked() && model == MarkGone(old(model), h) && last == AllGone(model)
    {
      closeRemaining := closeRemaining - 1;
      model := MarkGone(model, h);
      last := closeRemaining == 0;
    }

    /** The last handle is gone: do what teardown was started for. */
    method ActOnIntent(ok: bool, sent: bool, frees: bool)
      requires Linked() && !closing
      modifies this
      ensures Linked()
      ensures model == Resolve(old(model), ok, sent, frees)
    {
      match closeIntent {
        case Respawn => Restart(ok, sent, frees);
        case Idle =>
        case Free =>
          FreeNow();
          model := model.(frees := model.frees + 1);
      }
    }

    /** mcp_fail_all_pending. */
    method FailAll(how: How)
      modifies this`pending, this`answers
      ensures pending == [] && answers == old(answers) + Failed(old(pending), how)
    {
      while pending != []
        invariant answers + Failed(pending, how) == old(answers) + Failed(old(pending), how)
        decreases |pending|
      {
        var p := pending[0];
        pending := pending[1..];
        if p.kind.Call? {
          answers := answers + [(p.kind.inv, how)];
        }
      }
      assert answers + [] == answers;
    }

    method FailAllPending(how: How)
      requires Linked()
      modifies this`pending, this`answers, this`model
      ensures Linked() && model == FailPending(old(model), how)
    {
      FailAll(how);
      model := FailPending(model, how);
    }

    /** The arithmetic of mcp_restart_allowed. */
    method SpendToken(now: nat) returns (ok: bool)
      modifies this`restartTokens, this`lastRefill, this`grants
      ensures (ok, Budget(restartTokens, lastRefill, grants)) == Spend(Budget(old(restartTokens), old(lastRefill), old(grants)), now)
    {
      var elapsed := ((now - lastRefill) as real) / 1000000.0;
      lastRefill := now;
      restartTokens := restartTokens + elapsed / RATE_SECONDS;
      if restartTokens > BURST {
        restartTokens := BURST;
      }
      if restartTokens < 1.0 {
        return false;
      }
      restartTokens := restartTokens - 1.0;
      grants := grants + 1;
      return true;
    }

    /** mcp_restart_allowed. */
    method RestartAllowed(now: nat) returns (ok: bool)
      requires Linked()
      modifies this`restartTokens, this`lastRefill, this`grants, this`model
      ensures Linked() && ok == Spend(old(model).budget, now).0
      ensures model == old(model).(budget := Spend(old(model).budget, now).1)
    {
      ok := SpendToken(now);
      model := model.(budget := Spend(model.budget, now).1);
    }

    /** mcp_go_dead. */
    method Die(now: nat, frees: bool)
      requires Linked() && (Spawned(model) ==> model.out != Gone && model.proc != Gone)
      modifies this
      ensures Linked() && model == GoDead(old(model), now, frees)
    {
      if dead {
        return;
      }
      FailAndTell(frees);
      GoDown(now);
    }

    method FailAndTell(frees: bool)
      requires Linked() && (Spawned(model) ==> model.out != Gone && model.proc != Gone)
      modifies this
      ensures Linked() && model == Ready(FailPending(old(model).(dead := true), Died), false, frees)
      ensures Spawned(model) ==> model.out != Gone && model.proc != Gone
    {
      dead := true;
      model := model.(dead := true);
      FailAllPending(Died);
      ReadyHandles(model, frees);
      CallReady(false, frees);
    }

    static lemma {:induction false} ReadyHandles(s: Life, frees: bool)
      requires Spawned(s) ==> s.out != Gone && s.proc != Gone
      ensures var t := Ready(s, false, frees); Spawned(t) ==> t.out != Gone && t.proc != Gone
    {
    }

    /** Down with the handles, and up again if there is a token. */
    method GoDown(now: nat)
      requires Linked() && (Spawned(model) ==> model.out != Gone && model.proc != Gone)
      modifies this
      ensures Linked()
      ensures var (ok, b) := Spend(old(model).budget, now);
              model == BeginClose(old(model).(budget := b), if ok then Respawn else Idle)
    {
      var restart := RestartAllowed(now);
      BeginTeardown(if restart then Respawn else Idle);
    }

    /** clm_mcp_client_free. */
    method Release()
      requires Linked() && (Spawned(model) ==> model.out != Gone && model.proc != Gone)
      modifies this
      ensures Linked() && model == UserFree(old(model))
    {
      if discarded {
        return;
      }
      Disown();
      BeginTeardown(Free);
    }

    /** Fail what is pending and forget the callback; a running server is killed. */
    method Disown()
      requires Linked()
      modifies this
      ensures Linked()
      ensures var s := FailPending(old(model).(discarded := true, caller := old(model).caller.(on := false)), ClientClosed);
              model == if !s.dead && Spawned(s) then s.(dead := true) else s
    {
      discarded, onReady := true, false;
      model := model.(discarded := true, caller := Caller(false, told));
      FailAllPending(ClientClosed);
      if !dead && procSpawned {
        dead := true;  // killed now, its exit callback finds nothing to do
        model := model.(dead := true);
      }
    }

    // ------------------------------------------------------- entry points

    /** mcp_stdio_read at end of file. */
    method OnEof(now: nat, frees: bool, ghost start: nat)
      requires Valid(start) && Enabled(model, Eof(now, frees))
      modifies this
      ensures Valid(start) && model == Next(old(model), Eof(now, frees))
    {
      NextInv(model, Eof(now, frees), start);
      Die(now, frees);
    }

    /** mcp_on_exit: the one place a started process handle is closed. */
    method OnExit(now: nat, frees: bool, ghost start: nat)
      requires Valid(start) && Enabled(model, Exit(now, frees))
      modifies this
      ensures Valid(start) && model == Next(old(model), Exit(now, frees))
    {
      NextInv(model, Exit(now, frees), start);
      GoDeadInv(model, now, frees, start);
      Die(now, frees);
      ExitNoted();
    }

    method ExitNoted()
      requires Linked() && model.proc == Up && !Spawned(model)
      modifies this`model
      ensures Linked() && model == old(model).(exited := true, proc := Closing)
    {
      model := model.(exited := true, proc := Closing);
    }

    /** clm_mcp_client_free as the caller sees it. */
    method FreeByUser(ghost start: nat)
      requires Valid(start) && Enabled(model, Discard)
      modifies this
      ensures Valid(start) && model == Next(old(model), Discard)
    {
      NextInv(model, Discard, start);
      Release();
    }

    /** mcp_tool_invoke. */
    method ToolInvoke(inv: nat, sent: bool, ghost start: nat)
      requires Valid(start) && Enabled(model, Invoke(inv, sent))
      modifies this
      ensures Valid(start) && model == Next(old(model), Invoke(inv, sent))
    {
      NextInv(model, Invoke(inv, sent), start);
      SendCall(inv, sent);
    }

    method SendCall(inv: nat, sent: bool)
      requires Linked() && Enabled(model, Invoke(inv, sent))
      modifies this
      ensures Linked() && model == Next(old(model), Invoke(inv, sent))
    {
      model := model.(asked := model.asked + [inv]);
      var ok := SendRequest(Call(inv), sent);
      if !ok {
        answers := answers + [(inv, Unreachable)];
        model := model.(answers := answers);
      }
    }

    /** mcp_pending_take. */
    method PendingTake(id: int) returns (p: Option<Pending>)
      modifies this`pending
      ensures var k := Find(old(pending), id);
              if k < |old(pending)| then p == Some(old(pending)[k]) && pending == Drop(old(pending), k)
              else p == None && pending == old(pending)
    {
      var k := 0;
      while k < |pending|
        invariant 0 <= k <= |pending| && pending == old(pending)
        invariant Find(pending, id) == k + Find(pending[k..], id)
      {
        assert pending[k..][0] == pending[k] && pending[k..][1..] == pending[k + 1..];
        if pending[k].id == id {
          p := Some(pending[k]);
          pending := pending[..k] + pending[k + 1..];
          return;
        }
        k := k + 1;
      }
      return None;
    }

    /** A line with an id arrives. */
    method OnReply(id: int, good: bool, sent: bool, frees: bool, ghost start: nat)
      requires Valid(start) && Enabled(model, Answer(id, good, sent, frees))
      modifies this
      ensures Valid(start) && model == Next(old(model), Answer(id, good, sent, frees))
    {
      ReplyInv(model, id, good, sent, frees, start);
      ProcessLine(id, good, sent, frees);
    }

    /** mcp_process_line. */
    method ProcessLine(id: int, good: bool, sent: bool, frees: bool)
      requires Linked() && (Spawned(model) ==> model.out != Gone && model.proc != Gone)
      modifies this
      ensures Linked() && model == Reply(old(model), id, good, sent, frees)
    {
      var p := PendingTake(id);
      if p.Some? {
        model := model.(pending := pending);
        HandleResult(p.value.kind, good, sent, frees);
      }
    }

    /** mcp_handle_result. */
    method HandleResult(kind: Kind, good: bool, sent: bool, frees: bool)
      requires Linked() && (Spawned(model) ==> model.out != Gone && model.proc != Gone)
      modifies this
      ensures Linked()
      ensures model == match kind
                       case Init => if good then Send(old(model), List, sent).0 else Ready(old(model), false, frees)
                       case List => Ready(old(model), good, frees)
                       case Call(inv) => old(model).(answers := old(model).answers + [(inv, Replied)])
    {
      match kind {
        case Init =>
          if good {
            var _ := SendRequest(List, sent);
          } else {
            CallReady(false, frees);
          }
        case List => CallReady(good, frees);
        case Call(inv) =>
          answers := answers + [(inv, Replied)];
          model := model.(answers := answers);
      }
    }

    /** Unlink the entry of a call. */
    method Unlink(inv: nat)
      requires FindCall(pending, inv) < |pending|
      modifies this`pending
      ensures pending == Drop(old(pending), FindCall(old(pending), inv))
    {
      var k := 0;
      while pending[k].kind != Call(inv)
        invariant 0 <= k < |pending| && pending == old(pending)
        invariant FindCall(pending, inv) == k + FindCall(pending[k..], inv) < |pending|
        decreases |pending| - k
      {
        assert pending[k..][0] == pending[k] && pending[k..][1..] == pending[k + 1..];
        k := k + 1;
      }
      assert pending[k..][0] == pending[k];
      pending := pending[..k] + pending[k + 1..];
    }

    /** mcp_stdio_cancel. */
    method OnCancel(inv: nat, ghost start: nat)
      requires Valid(start) && Enabled(model, Cancel(inv))
      modifies this
      ensures Valid(start) && model == Next(old(model), Cancel(inv))
    {
      NextInv(model, Cancel(inv), start);
      TakeBack(inv);
    }

    method TakeBack(inv: nat)
      requires Linked() && Enabled(model, Cancel(inv))
      modifies this
      ensures Linked() && model == Next(old(model), Cancel(inv))
    {
      Unlink(inv);
      answers := answers + [(inv, Cancelled)];
      model := model.(pending := pending, answers := answers);
    }
  }
}
