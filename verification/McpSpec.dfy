/**
  The life of an MCP stdio client as its surroundings see it: three libuv handles,
  what their closing leads to, the calls waiting for a reply, and the restart
  budget. There is no close counter here; teardown is over when all handles are
  gone.
 */
module McpSpec {
  import opened Wrappers

  datatype Handle = Gone | Up | Closing

  /** What follows once teardown is over. */
  datatype Goal = Idle | Respawn | Free

  datatype Kind = Init | List | Call(inv: nat)

  datatype Pending = Pending(id: nat, kind: Kind)

  datatype How = Replied | Cancelled | Died | Unreachable | ClientClosed

  const BURST: real := 3.0
  const RATE_SECONDS: real := 30.0

  /** The restart token bucket; last is in microseconds, grants is how often it said yes. */
  datatype Budget = Budget(tokens: real, last: nat, grants: nat)

  /**
    The on_ready callback. told: its calls so far, and whether each said that the
    tools are there.
   */
  datatype Caller = Caller(on: bool, told: seq<bool>)

  /**
    exited: the child's exit callback has run. failed: the last spawn failed.
    handed: the caller got the client.
   */
  datatype Life = Life(
    inp: Handle, out: Handle, proc: Handle, exited: bool, failed: bool,
    down: bool, goal: Goal, dead: bool, discarded: bool, caller: Caller, handed: bool,
    frees: nat, spawns: nat, budget: Budget,
    pending: seq<Pending>, nextId: nat, asked: seq<nat>, answers: seq<(nat, How)>)

  predicate AllGone(s: Life) { s.inp == Gone && s.out == Gone && s.proc == Gone }

  /** Started and not being torn down. */
  predicate Spawned(s: Life) { s.inp == Up }

  // ---------------------------------------------------------------- restarts

  /** mcp_restart_allowed. */
  function Spend(b: Budget, now: nat): (r: (bool, Budget)) {
    var elapsed := ((now - b.last) as real) / 1000000.0;
    var t := b.tokens + elapsed / RATE_SECONDS;
    var t := if t > BURST then BURST else t;
    if t < 1.0 then (false, Budget(t, now, b.grants)) else (true, Budget(t - 1.0, now, b.grants + 1))
  }

  function Seconds(from: nat, to: nat): real { ((to - from) as real) / 1000000.0 }

  /** What was granted since start, and what is left, never exceeds the burst plus the refill. */
  ghost predicate Thrifty(b: Budget, start: nat) {
    && 0.0 <= b.tokens <= BURST && start <= b.last
    && (b.grants as real) + b.tokens <= BURST + Seconds(start, b.last) / RATE_SECONDS
  }

  lemma {:induction false} SpendThrifty(b: Budget, start: nat, now: nat)
    requires Thrifty(b, start) && b.last <= now
    ensures Thrifty(Spend(b, now).1, start) && Spend(b, now).1.last == now
    ensures Spend(b, now).1.grants == b.grants + if Spend(b, now).0 then 1 else 0
  {
    assert Seconds(start, now) == Seconds(start, b.last) + Seconds(b.last, now);
    assert Seconds(start, now) / RATE_SECONDS == Seconds(start, b.last) / RATE_SECONDS + Seconds(b.last, now) / RATE_SECONDS;
  }

  // ------------------------------------------------------------------- calls

  /** mcp_fail_all_pending. */
  function Failed(pending: seq<Pending>, how: How): seq<(nat, How)> {
    if pending == [] then []
    else (if pending[0].kind.Call? then [(pending[0].kind.inv, how)] else []) + Failed(pending[1..], how)
  }

  function FailPending(s: Life, how: How): Life {
    s.(pending := [], answers := s.answers + Failed(s.pending, how))
  }

  /** Index of the entry with this id, or |pending|. */
  function Find(pending: seq<Pending>, id: int): (k: nat)
    ensures k <= |pending|
    ensures k < |pending| ==> pending[k].id == id
    ensures forall j | 0 <= j < k :: pending[j].id != id
  {
    if pending == [] || pending[0].id == id then 0 else 1 + Find(pending[1..], id)
  }

  function FindCall(pending: seq<Pending>, inv: nat): (k: nat)
    ensures k <= |pending|
    ensures k < |pending| ==> pending[k].kind == Call(inv)
    ensures forall j | 0 <= j < k :: pending[j].kind != Call(inv)
  {
    if pending == [] || pending[0].kind == Call(inv) then 0 else 1 + FindCall(pending[1..], inv)
  }

  function Drop(pending: seq<Pending>, k: nat): seq<Pending>
    requires k < |pending|
  {
    pending[..k] + pending[k + 1..]
  }

  /** Send a request under the next id; newest entries come first. */
  function Send(s: Life, kind: Kind, ok: bool): (Life, bool) {
    var s1 := s.(nextId := s.nextId + 1);
    if s1.dead || !Spawned(s1) || !ok then (s1, false)
    else (s1.(pending := [Pending(s.nextId, kind)] + s1.pending), true)
  }

  // --------------------------------------------------------------- lifecycle

  /** mcp_begin_close: start teardown, or raise the goal of one under way; Free always wins. */
  function BeginClose(s: Life, goal: Goal): Life {
    if s.down || !Spawned(s) then
      if goal != Free then s
      else if s.down then s.(goal := Free)
      else s.(frees := s.frees + 1)
    else s.(down := true, goal := goal, inp := Closing, out := Closing)
  }

  /** clm_mcp_client_free. */
  function UserFree(s: Life): Life {
    if s.discarded then s
    else
      var s1 := FailPending(s.(discarded := true, caller := s.caller.(on := false)), ClientClosed);
      var s2 := if !s1.dead && Spawned(s1) then s1.(dead := true) else s1;
      BeginClose(s2, Free)
  }

  /** The on_ready callback; frees says whether the caller frees the client from inside it. */
  function Ready(s: Life, good: bool, frees: bool): Life {
    if !s.caller.on then s
    else
      var t := s.(caller := s.caller.(told := s.caller.told + [good]));
      if frees then UserFree(t) else t
  }

  /** mcp_go_dead. */
  function GoDead(s: Life, now: nat, frees: bool): Life {
    if s.dead then s
    else
      var s1 := Ready(FailPending(s.(dead := true), Died), false, frees);
      var (ok, b) := Spend(s1.budget, now);
      BeginClose(s1.(budget := b), if ok then Respawn else Idle)
  }

  /** mcp_spawn. */
  function Spawn(s: Life, ok: bool): Life {
    if ok then s.(inp := Up, out := Up, proc := Up, exited := false, failed := false, spawns := s.spawns + 1)
    else s.(inp := Closing, out := Closing, proc := Closing, exited := false, failed := true, down := true, goal := Idle)
  }

  /** mcp_start_handshake, and the callback if it could not be sent. */
  function Handshake(s: Life, sent: bool, frees: bool): Life {
    var (s1, ok) := Send(s, Init, sent);
    if ok then s1 else Ready(s1, false, frees)
  }

  /** mcp_do_respawn. */
  function DoRespawn(s: Life, ok: bool, sent: bool, frees: bool): Life {
    var s1 := Spawn(s.(nextId := 1), ok);
    if !ok then Ready(s1, false, frees) else Handshake(s1.(dead := false), sent, frees)
  }

  /** clm_mcp_connect. A failed spawn leaves the struct to its close callbacks. */
  function Connect(now: nat, ready: bool, ok: bool, sent: bool, frees: bool): Life {
    var s := Life(Gone, Gone, Gone, false, false, false, Idle, false, false, Caller(ready, []), false, 0, 0,
                  Budget(BURST, now, 0), [], 1, [], []);
    var s1 := Spawn(s, ok);
    if !ok then BeginClose(s1.(caller := s.caller.(on := false)), Free) else Handshake(s1.(handed := true), sent, frees)
  }

  datatype Which = In | Out | Proc

  /** mcp_handle_closed. */
  function HandleClosed(s: Life, h: Which, ok: bool, sent: bool, frees: bool): Life {
    var s1 := MarkGone(s, h);
    if AllGone(s1) then Resolve(s1.(down := false), ok, sent, frees) else s1
  }

  function MarkGone(s: Life, h: Which): Life {
    match h
    case In => s.(inp := Gone)
    case Out => s.(out := Gone)
    case Proc => s.(proc := Gone)
  }

  /** Do what teardown was started for. */
  function Resolve(s: Life, ok: bool, sent: bool, frees: bool): Life {
    match s.goal
    case Respawn => DoRespawn(s, ok, sent, frees)
    case Idle => s
    case Free => s.(frees := s.frees + 1)
  }

  /** What a reply with this id completes. good: it carries a result. */
  function Reply(s: Life, id: int, good: bool, sent: bool, frees: bool): Life {
    var k := Find(s.pending, id);
    if k == |s.pending| then s
    else
      var s1 := s.(pending := Drop(s.pending, k));
      match s.pending[k].kind
      case Init => if good then Send(s1, List, sent).0 else Ready(s1, false, frees)
      case List => Ready(s1, good, frees)
      case Call(inv) => s1.(answers := s1.answers + [(inv, Replied)])
  }

  // ------------------------------------------------------------------ events

  datatype Event =
    | Eof(now: nat, frees: bool)
    | Exit(now: nat, frees: bool)
    | Closed(h: Which, ok: bool, sent: bool, frees: bool)
    | Discard
    | Invoke(inv: nat, sent: bool)
    | Answer(id: int, good: bool, sent: bool, frees: bool)
    | Cancel(inv: nat)

  /** When libuv, the caller or the engine can cause an event. */
  predicate Enabled(s: Life, e: Event) {
    match e
    case Eof(now, _) => s.out == Up && s.budget.last <= now
    case Exit(now, _) => s.proc == Up && s.budget.last <= now
    case Closed(h, _, _, _) => (match h case In => s.inp case Out => s.out case Proc => s.proc) == Closing
    case Discard => s.handed && s.frees == 0
    case Invoke(inv, _) => s.handed && s.frees == 0 && !s.discarded && inv !in s.asked
    case Answer(_, _, _, _) => s.out == Up
    case Cancel(inv) => FindCall(s.pending, inv) < |s.pending|
  }

  function Next(s: Life, e: Event): Life
    requires Enabled(s, e)
  {
    match e
    case Eof(now, frees) => GoDead(s, now, frees)
    case Exit(now, frees) => GoDead(s, now, frees).(exited := true, proc := Closing)
    case Closed(h, ok, sent, frees) => HandleClosed(s, h, ok, sent, frees)
    case Discard => UserFree(s)
    case Invoke(inv, sent) =>
      var (s1, ok) := Send(s.(asked := s.asked + [inv]), Call(inv), sent);
      if ok then s1 else s1.(answers := s1.answers + [(inv, Unreachable)])
    case Answer(id, good, sent, frees) => Reply(s, id, good, sent, frees)
    case Cancel(inv) =>
      var k := FindCall(s.pending, inv);
      s.(pending := Drop(s.pending, k), answers := s.answers + [(inv, Cancelled)])
  }

  // --------------------------------------------------------------- invariant

  /** How the handles, the teardown and its goal fit together. */
  ghost predicate HandlesOk(s: Life) {
    && (Spawned(s) ==> !s.down && s.out == Up && s.proc == Up && !s.exited && !s.failed)
    && (s.out == Up ==> Spawned(s))
    && (s.down <==> !AllGone(s) && !Spawned(s))
    && (s.proc == Up ==> Spawned(s) || s.down)
    && (s.proc == Up ==> !s.exited)
    && (s.proc == Closing ==> s.exited || s.failed)
    && (s.down && s.proc == Gone ==> s.exited || s.failed)
    && (s.inp == Closing || s.out == Closing ==> s.down)
  }

  /** Freed once, only when all is gone; once discarded, nothing but Free is ahead. */
  ghost predicate FreeOk(s: Life) {
    && s.frees <= 1 && (s.frees == 1 ==> AllGone(s))
    && (s.discarded || !s.handed ==> s.frees == 1 || (s.down && s.goal == Free))
    && (s.down && s.goal == Free ==> s.discarded || !s.handed)
    && (s.frees == 1 ==> s.discarded || !s.handed)
    && (s.discarded ==> !s.caller.on) && (!s.handed ==> !s.caller.on)
    && (!s.dead && s.handed ==> Spawned(s))
    && (Spawned(s) ==> s.handed && !s.discarded && s.frees == 0)
  }

  ghost predicate DistinctIds(pending: seq<Pending>) {
    forall i, j | 0 <= i < j < |pending| :: pending[i].id != pending[j].id
  }

  function Waiting(pending: seq<Pending>): multiset<nat> {
    if pending == [] then multiset{}
    else (if pending[0].kind.Call? then multiset{pending[0].kind.inv} else multiset{}) + Waiting(pending[1..])
  }

  function Answered(answers: seq<(nat, How)>): multiset<nat> {
    if answers == [] then multiset{} else multiset{answers[0].0} + Answered(answers[1..])
  }

  /** Ids are distinct and below the next one; each call is waiting or answered, once in all. */
  ghost predicate CallsOk(s: Life) {
    && DistinctIds(s.pending) && (forall i | 0 <= i < |s.pending| :: s.pending[i].id < s.nextId)
    && (s.dead || s.discarded || !s.handed ==> s.pending == [])
    && Waiting(s.pending) + Answered(s.answers) == multiset(s.asked)
    && (forall i, j | 0 <= i < j < |s.asked| :: s.asked[i] != s.asked[j])
  }

  /** The invariant in the middle of a death, when the handles are still up. */
  ghost predicate Sound(s: Life, start: nat) {
    HandlesOk(s) && FreeOk(s) && CallsOk(s) && Thrifty(s.budget, start)
  }

  ghost predicate Inv(s: Life, start: nat) { Sound(s, start) && (Spawned(s) ==> !s.dead) }

  // --------------------------------------------------------- calls are kept

  lemma {:induction false} AnsweredConcat(a: seq<(nat, How)>, b: seq<(nat, How)>)
    ensures Answered(a + b) == Answered(a) + Answered(b)
  {
    if a == [] {
      assert a + b == b;
    } else {
      assert (a + b)[1..] == a[1..] + b;
      AnsweredConcat(a[1..], b);
    }
  }

  lemma {:induction false} FailedAnswers(pending: seq<Pending>, how: How)
    ensures Answered(Failed(pending, how)) == Waiting(pending)
  {
    if pending != [] {
      FailedAnswers(pending[1..], how);
      if pending[0].kind.Call? {
        assert Failed(pending, how)[1..] == Failed(pending[1..], how);
      } else {
        assert Failed(pending, how) == Failed(pending[1..], how);
      }
    }
  }

  lemma {:induction false} WaitingConcat(a: seq<Pending>, b: seq<Pending>)
    ensures Waiting(a + b) == Waiting(a) + Waiting(b)
  {
    if a == [] {
      assert a + b == b;
    } else {
      assert (a + b)[1..] == a[1..] + b;
      WaitingConcat(a[1..], b);
    }
  }

  lemma {:induction false} WaitingDrop(pending: seq<Pending>, k: nat)
    requires k < |pending|
    ensures Waiting(pending) == Waiting(Drop(pending, k)) + Waiting([pending[k]])
    ensures Waiting([pending[k]]) == if pending[k].kind.Call? then multiset{pending[k].kind.inv} else multiset{}
  {
    assert pending == pending[..k] + [pending[k]] + pending[k + 1..];
    WaitingConcat(pending[..k] + [pending[k]], pending[k + 1..]);
    WaitingConcat(pending[..k], [pending[k]]);
    WaitingConcat(pending[..k], pending[k + 1..]);
    assert [pending[k]][1..] == [];
  }

  lemma {:induction false} FailPendingOk(s: Life, how: How)
    requires CallsOk(s)
    ensures CallsOk(FailPending(s, how))
  {
    FailedAnswers(s.pending, how);
    AnsweredConcat(s.answers, Failed(s.pending, how));
  }

  lemma {:induction false} DropDistinct(pending: seq<Pending>, k: nat)
    requires k < |pending| && DistinctIds(pending)
    ensures DistinctIds(Drop(pending, k))
    ensures forall j | 0 <= j < |Drop(pending, k)| :: Drop(pending, k)[j] in pending
  {
  }

  lemma {:induction false} OneAnswer(answers: seq<(nat, How)>, inv: nat, how: How)
    ensures Answered(answers + [(inv, how)]) == Answered(answers) + multiset{inv}
  {
    AnsweredConcat(answers, [(inv, how)]);
    assert [(inv, how)][1..] == [];
  }

  /** An entry leaves the list; a call gets its answer. */
  lemma {:induction false} TakeOk(s: Life, k: nat, how: How)
    requires CallsOk(s) && k < |s.pending|
    ensures var s1 := s.(pending := Drop(s.pending, k));
            CallsOk(if s.pending[k].kind.Call? then s1.(answers := s1.answers + [(s.pending[k].kind.inv, how)]) else s1)
  {
    DropDistinct(s.pending, k);
    IdsBelow(s.pending, k, s.nextId);
    TakeCounts(s.pending, s.answers, k, how);
  }

  /** Waiting and answered together stay what they were. */
  lemma {:induction false} TakeCounts(pending: seq<Pending>, answers: seq<(nat, How)>, k: nat, how: How)
    requires k < |pending|
    ensures
      var now := if pending[k].kind.Call? then answers + [(pending[k].kind.inv, how)] else answers;
      Waiting(Drop(pending, k)) + Answered(now) == Waiting(pending) + Answered(answers)
  {
    WaitingDrop(pending, k);
    if pending[k].kind.Call? {
      OneAnswer(answers, pending[k].kind.inv, how);
      Shift(Waiting(Drop(pending, k)), multiset{pending[k].kind.inv}, Answered(answers));
    }
  }

  lemma {:induction false} Shift(a: multiset<nat>, x: multiset<nat>, b: multiset<nat>)
    ensures (a + x) + b == a + (b + x)
  {
  }

  lemma {:induction false} IdsBelow(pending: seq<Pending>, k: nat, bound: nat)
    requires k < |pending| && forall i | 0 <= i < |pending| :: pending[i].id < bound
    ensures forall i | 0 <= i < |Drop(pending, k)| :: Drop(pending, k)[i].id < bound
  {
  }

  /** A request that is no call. */
  lemma {:induction false} SendOk(s: Life, kind: Kind, ok: bool)
    requires CallsOk(s) && !kind.Call? && (!s.dead && Spawned(s) ==> s.handed && !s.discarded)
    ensures CallsOk(Send(s, kind, ok).0)
  {
  }

  lemma {:induction false} InvokeOk(s: Life, inv: nat, ok: bool)
    requires CallsOk(s) && inv !in s.asked && (!s.dead && Spawned(s) ==> s.handed && !s.discarded)
    ensures var (s1, done) := Send(s.(asked := s.asked + [inv]), Call(inv), ok);
            CallsOk(if done then s1 else s1.(answers := s1.answers + [(inv, Unreachable)]))
  {
    AskedDistinct(s.asked, inv);
    if s.dead || !Spawned(s) || !ok { UnreachableOk(s, inv); } else { QueuedOk(s, inv); }
  }

  lemma {:induction false} UnreachableOk(s: Life, inv: nat)
    requires CallsOk(s) && forall i, j | 0 <= i < j < |s.asked + [inv]| :: (s.asked + [inv])[i] != (s.asked + [inv])[j]
    ensures CallsOk(s.(asked := s.asked + [inv], nextId := s.nextId + 1, answers := s.answers + [(inv, Unreachable)]))
  {
    OneAnswer(s.answers, inv, Unreachable);
    assert multiset(s.asked + [inv]) == multiset(s.asked) + multiset{inv};
  }

  lemma {:induction false} QueuedOk(s: Life, inv: nat)
    requires CallsOk(s) && forall i, j | 0 <= i < j < |s.asked + [inv]| :: (s.asked + [inv])[i] != (s.asked + [inv])[j]
    requires !s.dead && !s.discarded && s.handed
    ensures CallsOk(s.(asked := s.asked + [inv], nextId := s.nextId + 1,
                       pending := [Pending(s.nextId, Call(inv))] + s.pending))
  {
    PushOk(s.pending, s.nextId, inv);
    assert multiset(s.asked + [inv]) == multiset(s.asked) + multiset{inv};
  }

  lemma {:induction false} AskedDistinct(asked: seq<nat>, inv: nat)
    requires inv !in asked && forall i, j | 0 <= i < j < |asked| :: asked[i] != asked[j]
    ensures forall i, j | 0 <= i < j < |asked + [inv]| :: (asked + [inv])[i] != (asked + [inv])[j]
  {
  }

  lemma {:induction false} PushOk(pending: seq<Pending>, id: nat, inv: nat)
    requires DistinctIds(pending) && forall i | 0 <= i < |pending| :: pending[i].id < id
    ensures var p := [Pending(id, Call(inv))] + pending;
            DistinctIds(p) && (forall i | 0 <= i < |p| :: p[i].id < id + 1) && Waiting(p) == multiset{inv} + Waiting(pending)
  {
    assert ([Pending(id, Call(inv))] + pending)[1..] == pending;
  }

  // ------------------------------------------------------------- lifecycle

  lemma {:induction false} BeginCloseSound(s: Life, goal: Goal, start: nat)
    requires Sound(s, start) && s.dead && goal != Free
    ensures Inv(BeginClose(s, goal), start)
  {
  }

  lemma {:induction false} UserFreeSound(s: Life, start: nat)
    requires Sound(s, start) && (s.discarded || (s.handed && s.frees == 0))
    ensures Inv(UserFree(s), start) && UserFree(s).discarded && UserFree(s).spawns == s.spawns
    ensures UserFree(s).proc == s.proc && UserFree(s).exited == s.exited && UserFree(s).budget == s.budget
    ensures s.dead ==> UserFree(s).dead
  {
    if !s.discarded {
      FailPendingOk(s.(caller := s.caller.(on := false)), ClientClosed);
      FailedAnswers(s.pending, ClientClosed);
      AnsweredConcat(s.answers, Failed(s.pending, ClientClosed));
    }
  }

  lemma {:induction false} ReadySound(s: Life, good: bool, frees: bool, start: nat)
    requires Sound(s, start) && (s.caller.on ==> s.frees == 0)
    ensures Sound(Ready(s, good, frees), start) && Ready(s, good, frees).spawns == s.spawns
    ensures Ready(s, good, frees).proc == s.proc && Ready(s, good, frees).exited == s.exited && Ready(s, good, frees).budget == s.budget
    ensures s.dead ==> Ready(s, good, frees).dead
    ensures Inv(s, start) ==> Inv(Ready(s, good, frees), start)
  {
    if s.caller.on && frees { UserFreeSound(s.(caller := s.caller.(told := s.caller.told + [good])), start); }
  }

  lemma {:induction false} GoDeadInv(s: Life, now: nat, frees: bool, start: nat)
    requires Inv(s, start) && s.budget.last <= now
    ensures var t := GoDead(s, now, frees);
            Inv(t, start) && t.dead && t.spawns == s.spawns && t.proc == s.proc && t.exited == s.exited && !Spawned(t)
  {
    if !s.dead {
      var s1 := FailPending(s.(dead := true), Died);
      FailedAnswers(s.pending, Died);
      AnsweredConcat(s.answers, Failed(s.pending, Died));
      ReadySound(s1, false, frees, start);
      var s2 := Ready(s1, false, frees);
      var (ok, b) := Spend(s2.budget, now);
      SpendThrifty(s2.budget, start, now);
      BeginCloseSound(s2.(budget := b), if ok then Respawn else Idle, start);
    }
  }

  lemma {:induction false} HandshakeInv(s: Life, sent: bool, frees: bool, start: nat)
    requires Inv(s, start) && Spawned(s)
    ensures Inv(Handshake(s, sent, frees), start) && Handshake(s, sent, frees).spawns == s.spawns
  {
    var (s1, ok) := Send(s, Init, sent);
    SendOk(s, Init, sent);
    if !ok { ReadySound(s1, false, frees, start); }
  }

  lemma {:induction false} RespawnInv(s: Life, ok: bool, sent: bool, frees: bool, start: nat)
    requires Sound(s, start) && AllGone(s) && s.dead && s.handed && !s.discarded && s.frees == 0
    ensures Inv(DoRespawn(s, ok, sent, frees), start)
    ensures DoRespawn(s, ok, sent, frees).spawns == s.spawns + if ok then 1 else 0
  {
    var s1 := Spawn(s.(nextId := 1), ok);
    if ok { HandshakeInv(s1.(dead := false), sent, frees, start); } else { ReadySound(s1, false, frees, start); }
  }

  lemma {:induction false} ConnectInv(now: nat, ready: bool, ok: bool, sent: bool, frees: bool)
    ensures Inv(Connect(now, ready, ok, sent, frees), now)
  {
    var s := Life(Gone, Gone, Gone, false, false, false, Idle, false, false, Caller(ready, []), false, 0, 0,
                  Budget(BURST, now, 0), [], 1, [], []);
    if ok { HandshakeInv(Spawn(s, ok).(handed := true), sent, frees, now); }
  }

  /** Between the last close callback and what it leads to. */
  ghost predicate Cleared(s: Life, start: nat) {
    && AllGone(s) && !s.down && (s.handed ==> s.dead) && s.frees == 0
    && (s.discarded || !s.handed <==> s.goal == Free)
    && (s.discarded || !s.handed ==> !s.caller.on)
    && CallsOk(s) && Thrifty(s.budget, start)
  }

  lemma {:induction false} MarkInv(s: Life, h: Which, start: nat)
    requires Inv(s, start) && (match h case In => s.inp case Out => s.out case Proc => s.proc) == Closing
    ensures var t := MarkGone(s, h); if AllGone(t) then Cleared(t.(down := false), start) else Inv(t, start)
  {
  }

  lemma {:induction false} ResolveInv(s: Life, ok: bool, sent: bool, frees: bool, start: nat)
    requires Cleared(s, start)
    ensures Inv(Resolve(s, ok, sent, frees), start)
    ensures s.discarded ==> Resolve(s, ok, sent, frees).spawns == s.spawns
  {
    if s.goal == Respawn { RespawnInv(s, ok, sent, frees, start); }
  }

  lemma {:induction false} ClosedInv(s: Life, h: Which, ok: bool, sent: bool, frees: bool, start: nat)
    requires Inv(s, start) && Enabled(s, Closed(h, ok, sent, frees))
    ensures Inv(HandleClosed(s, h, ok, sent, frees), start)
  {
    MarkInv(s, h, start);
    var t := MarkGone(s, h);
    if AllGone(t) { ResolveInv(t.(down := false), ok, sent, frees, start); }
  }

  lemma {:induction false} ReplyInv(s: Life, id: int, good: bool, sent: bool, frees: bool, start: nat)
    requires Inv(s, start) && s.out == Up
    ensures Inv(Reply(s, id, good, sent, frees), start) && Reply(s, id, good, sent, frees).spawns == s.spawns
  {
    var k := Find(s.pending, id);
    if k < |s.pending| {
      TakeOk(s, k, Replied);
      var s1 := s.(pending := Drop(s.pending, k));
      if s.pending[k].kind == Init && good {
        InitReplied(s1, sent, start);
      } else if !s.pending[k].kind.Call? {
        assert Inv(s1, start);
        ReadySound(s1, s.pending[k].kind == List && good, frees, start);
      }
    }
  }

  lemma {:induction false} InitReplied(s: Life, sent: bool, start: nat)
    requires Inv(s, start) && s.out == Up
    ensures Inv(Send(s, List, sent).0, start) && Send(s, List, sent).0.spawns == s.spawns
  {
    SendOk(s, List, sent);
  }

  lemma {:induction false} InvokeInv(s: Life, inv: nat, sent: bool, start: nat)
    requires Inv(s, start) && Enabled(s, Invoke(inv, sent))
    ensures Inv(Next(s, Invoke(inv, sent)), start)
  {
    InvokeOk(s, inv, sent);
    var t := Next(s, Invoke(inv, sent));
    assert CallsOk(t);
  }

  lemma {:induction false} CancelInv(s: Life, inv: nat, start: nat)
    requires Inv(s, start) && Enabled(s, Cancel(inv))
    ensures Inv(Next(s, Cancel(inv)), start)
  {
    TakeOk(s, FindCall(s.pending, inv), Cancelled);
  }

  /** Whatever happens, the invariant holds afterwards. */
  lemma {:induction false} NextInv(s: Life, e: Event, start: nat)
    requires Inv(s, start) && Enabled(s, e)
    ensures Inv(Next(s, e), start)
  {
    match e {
      case Eof(now, frees) => GoDeadInv(s, now, frees, start);
      case Exit(now, frees) => ExitInv(s, now, frees, start);
      case Closed(h, ok, sent, frees) => ClosedInv(s, h, ok, sent, frees, start);
      case Discard => UserFreeSound(s, start);
      case Invoke(inv, sent) => InvokeInv(s, inv, sent, start);
      case Answer(id, good, sent, frees) => ReplyInv(s, id, good, sent, frees, start);
      case Cancel(inv) => CancelInv(s, inv, start);
    }
  }

  lemma {:induction false} ExitInv(s: Life, now: nat, frees: bool, start: nat)
    requires Inv(s, start) && Enabled(s, Exit(now, frees))
    ensures Inv(Next(s, Exit(now, frees)), start)
  {
    GoDeadInv(s, now, frees, start);
  }

  // ------------------------------------------------------------- whole runs

  ghost predicate Legal(s: Life, es: seq<Event>)
    decreases |es|
  {
    es == [] || (Enabled(s, es[0]) && Legal(Next(s, es[0]), es[1..]))
  }

  ghost function After(s: Life, es: seq<Event>): Life
    requires Legal(s, es)
    decreases |es|
  {
    if es == [] then s else After(Next(s, es[0]), es[1..])
  }

  lemma {:induction false} RunInv(s: Life, es: seq<Event>, start: nat)
    requires Inv(s, start) && Legal(s, es)
    ensures Inv(After(s, es), start)
    decreases |es|
  {
    if es != [] {
      NextInv(s, es[0], start);
      RunInv(Next(s, es[0]), es[1..], start);
    }
  }

  /** Over any run from connect the client is freed at most once, and only with all handles gone. */
  lemma {:induction false} FreedOnce(now: nat, ready: bool, ok: bool, sent: bool, frees: bool, es: seq<Event>)
    requires Legal(Connect(now, ready, ok, sent, frees), es)
    ensures var t := After(Connect(now, ready, ok, sent, frees), es);
            && t.frees <= 1
            && (t.frees == 1 ==> AllGone(t) && forall e :: !Enabled(t, e))
            && (t.discarded ==> t.frees == 1 || (t.down && t.goal == Free))
  {
    ConnectInv(now, ready, ok, sent, frees);
    RunInv(Connect(now, ready, ok, sent, frees), es, now);
    var t := After(Connect(now, ready, ok, sent, frees), es);
    if t.frees == 1 {
      assert t.pending == [];
      forall e ensures !Enabled(t, e) {}
    }
  }

  /** A process handle is closed only after its exit callback or a failed spawn. */
  lemma {:induction false} ProcClosedAfterExit(now: nat, ready: bool, ok: bool, sent: bool, frees: bool, es: seq<Event>)
    requires Legal(Connect(now, ready, ok, sent, frees), es)
    ensures var t := After(Connect(now, ready, ok, sent, frees), es);
            t.proc == Closing || (t.down && t.proc == Gone) ==> t.exited || t.failed
  {
    ConnectInv(now, ready, ok, sent, frees);
    RunInv(Connect(now, ready, ok, sent, frees), es, now);
  }

  /** Each call is waiting or answered, exactly once; with nothing waiting, every call got its one answer. */
  lemma {:induction false} AnsweredOnce(now: nat, ready: bool, ok: bool, sent: bool, frees: bool, es: seq<Event>)
    requires Legal(Connect(now, ready, ok, sent, frees), es)
    ensures var t := After(Connect(now, ready, ok, sent, frees), es);
            && DistinctIds(t.pending)
            && Waiting(t.pending) + Answered(t.answers) == multiset(t.asked)
            && (forall inv :: (Waiting(t.pending) + Answered(t.answers))[inv] == if inv in t.asked then 1 else 0)
            && (t.dead || t.discarded ==> t.pending == [])
  {
    ConnectInv(now, ready, ok, sent, frees);
    RunInv(Connect(now, ready, ok, sent, frees), es, now);
    var t := After(Connect(now, ready, ok, sent, frees), es);
    forall inv ensures multiset(t.asked)[inv] == if inv in t.asked then 1 else 0 { DistinctCount(t.asked, inv); }
  }

  lemma {:induction false} DistinctCount(s: seq<nat>, x: nat)
    requires forall i, j | 0 <= i < j < |s| :: s[i] != s[j]
    ensures multiset(s)[x] == if x in s then 1 else 0
    decreases |s|
  {
    if s != [] {
      assert s == [s[0]] + s[1..];
      DistinctCount(s[1..], x);
    }
  }

  /** A reply completes the call that sent its id, and no other. */
  lemma {:induction false} ReplyFindsItsCall(s: Life, start: nat, k: nat, inv: nat, good: bool, sent: bool, frees: bool)
    requires Inv(s, start) && s.out == Up && k < |s.pending| && s.pending[k].kind == Call(inv)
    ensures var t := Next(s, Answer(s.pending[k].id, good, sent, frees));
            t.answers == s.answers + [(inv, Replied)] && t.pending == Drop(s.pending, k)
  {
    var j := Find(s.pending, s.pending[k].id);
    assert j <= k && s.pending[j].id == s.pending[k].id;
  }

  /** A discarded client stays discarded and never spawns again. */
  lemma {:induction false} NoSpawnOnceDiscarded(s: Life, es: seq<Event>, start: nat)
    requires Inv(s, start) && s.discarded && Legal(s, es)
    ensures After(s, es).discarded && After(s, es).spawns == s.spawns
    decreases |es|
  {
    if es != [] {
      NextInv(s, es[0], start);
      DiscardedStep(s, es[0], start);
      NoSpawnOnceDiscarded(Next(s, es[0]), es[1..], start);
    }
  }

  lemma {:induction false} DiscardedStep(s: Life, e: Event, start: nat)
    requires Inv(s, start) && s.discarded && Enabled(s, e)
    ensures Next(s, e).discarded && Next(s, e).spawns == s.spawns
  {
    match e {
      case Closed(h, ok, sent, frees) => DiscardedClose(s, h, ok, sent, frees, start);
      case Answer(id, good, sent, frees) => DiscardedReply(s, id, good, sent, frees);
      case Eof(now, frees) => DiscardedDeath(s, now, frees);
      case Exit(now, frees) => DiscardedDeath(s, now, frees);
      case _ =>
    }
  }

  lemma {:induction false} DiscardedClose(s: Life, h: Which, ok: bool, sent: bool, frees: bool, start: nat)
    requires Inv(s, start) && s.discarded && Enabled(s, Closed(h, ok, sent, frees))
    ensures HandleClosed(s, h, ok, sent, frees).discarded && HandleClosed(s, h, ok, sent, frees).spawns == s.spawns
  {
    DiscardedGoal(s, h, ok, sent, frees, start);
    FreeCloses(s, h, ok, sent, frees);
  }

  lemma {:induction false} DiscardedGoal(s: Life, h: Which, ok: bool, sent: bool, frees: bool, start: nat)
    requires Inv(s, start) && s.discarded && Enabled(s, Closed(h, ok, sent, frees))
    ensures s.goal == Free
  {
  }

  lemma {:induction false} FreeCloses(s: Life, h: Which, ok: bool, sent: bool, frees: bool)
    requires s.goal == Free
    ensures HandleClosed(s, h, ok, sent, frees).discarded == s.discarded
    ensures HandleClosed(s, h, ok, sent, frees).spawns == s.spawns
  {
    var t := MarkGone(s, h);
    GoneKeeps(s, h);
    ResolveFree(t.(down := false), ok, sent, frees);
  }

  lemma {:induction false} GoneKeeps(s: Life, h: Which)
    ensures MarkGone(s, h).goal == s.goal && MarkGone(s, h).discarded == s.discarded && MarkGone(s, h).spawns == s.spawns
  {
    match h {
      case In =>
      case Out =>
      case Proc =>
    }
  }

  lemma {:induction false} ResolveFree(s: Life, ok: bool, sent: bool, frees: bool)
    requires s.goal == Free
    ensures Resolve(s, ok, sent, frees) == s.(frees := s.frees + 1)
  {
  }

  lemma {:induction false} DiscardedReply(s: Life, id: int, good: bool, sent: bool, frees: bool)
    requires s.discarded
    ensures Reply(s, id, good, sent, frees).discarded && Reply(s, id, good, sent, frees).spawns == s.spawns
  {
    var k := Find(s.pending, id);
    if k < |s.pending| {
      var s1 := s.(pending := Drop(s.pending, k));
      DiscardedReady(s1, false, frees);
      DiscardedReady(s1, good, frees);
    }
  }

  lemma {:induction false} DiscardedReady(s: Life, good: bool, frees: bool)
    requires s.discarded
    ensures Ready(s, good, frees).discarded && Ready(s, good, frees).spawns == s.spawns
  {
  }

  lemma {:induction false} DiscardedDeath(s: Life, now: nat, frees: bool)
    requires s.discarded
    ensures GoDead(s, now, frees).discarded && GoDead(s, now, frees).spawns == s.spawns
  {
    DiscardedReady(FailPending(s.(dead := true), Died), false, frees);
  }

  /** Restarts are granted at most three plus one per thirty seconds; each respawn has a grant. */
  lemma {:induction false} RestartsBounded(now: nat, ready: bool, ok: bool, sent: bool, frees: bool, es: seq<Event>)
    requires Legal(Connect(now, ready, ok, sent, frees), es)
    ensures var t := After(Connect(now, ready, ok, sent, frees), es);
            && (t.budget.grants as real) <= 3.0 + Seconds(now, t.budget.last) / 30.0
            && t.spawns <= t.budget.grants + 1
  {
    var s := Connect(now, ready, ok, sent, frees);
    ConnectInv(now, ready, ok, sent, frees);
    ConnectGranted(now, ready, ok, sent, frees);
    RunInv(s, es, now);
    SpawnsGranted(s, es, now);
    ThriftyBound(After(s, es).budget, now);
  }

  lemma {:induction false} ThriftyBound(b: Budget, start: nat)
    requires Thrifty(b, start)
    ensures (b.grants as real) <= 3.0 + Seconds(start, b.last) / 30.0
  {
  }

  lemma {:induction false} ConnectGranted(now: nat, ready: bool, ok: bool, sent: bool, frees: bool)
    ensures Granted(Connect(now, ready, ok, sent, frees))
  {
  }

  /** A respawn still ahead has been granted already. */
  ghost predicate Granted(s: Life) {
    s.spawns + (if s.down && s.goal == Respawn then 1 else 0) <= s.budget.grants + 1
  }

  lemma {:induction false} SpawnsGranted(s: Life, es: seq<Event>, start: nat)
    requires Inv(s, start) && Granted(s) && Legal(s, es)
    ensures Granted(After(s, es))
    decreases |es|
  {
    if es != [] {
      NextInv(s, es[0], start);
      GrantedStep(s, es[0], start);
      SpawnsGranted(Next(s, es[0]), es[1..], start);
    }
  }

  lemma {:induction false} GrantedStep(s: Life, e: Event, start: nat)
    requires Inv(s, start) && Granted(s) && Enabled(s, e)
    ensures Granted(Next(s, e))
  {
    match e {
      case Eof(now, frees) => GrantedDeath(s, now, frees, start);
      case Exit(now, frees) => GrantedDeath(s, now, frees, start);
      case Closed(h, ok, sent, frees) => GrantedClose(s, h, ok, sent, frees, start);
      case Discard => GrantedFree(s);
      case Invoke(inv, sent) => GrantedInvoke(s, inv, sent);
      case Answer(id, good, sent, frees) => GrantedReply(s, id, good, sent, frees);
      case Cancel(_) =>
    }
  }

  lemma {:induction false} GrantedDeath(s: Life, now: nat, frees: bool, start: nat)
    requires Inv(s, start) && Granted(s) && s.budget.last <= now
    ensures Granted(GoDead(s, now, frees))
  {
    if !s.dead {
      var s1 := Ready(FailPending(s.(dead := true), Died), false, frees);
      SpendThrifty(s1.budget, start, now);
    }
  }

  lemma {:induction false} GrantedClose(s: Life, h: Which, ok: bool, sent: bool, frees: bool, start: nat)
    requires Inv(s, start) && Granted(s) && Enabled(s, Closed(h, ok, sent, frees))
    ensures Granted(HandleClosed(s, h, ok, sent, frees))
  {
    assert s.down;
    var t := MarkGone(s, h);
    if AllGone(t) { GrantedResolve(t.(down := false), ok, sent, frees); }
  }

  lemma {:induction false} GrantedResolve(s: Life, ok: bool, sent: bool, frees: bool)
    requires !s.down && s.spawns + (if s.goal == Respawn then 1 else 0) <= s.budget.grants + 1
    ensures Granted(Resolve(s, ok, sent, frees))
  {
    if s.goal == Respawn {
      var s1 := Spawn(s.(nextId := 1), ok);
      if ok {
        GrantedSend(s1.(dead := false), Init, sent);
        GrantedReady(Send(s1.(dead := false), Init, sent).0, false, frees);
      } else {
        GrantedReady(s1, false, frees);
      }
    }
  }

  lemma {:induction false} GrantedFree(s: Life)
    requires Granted(s)
    ensures Granted(UserFree(s))
  {
  }

  lemma {:induction false} GrantedInvoke(s: Life, inv: nat, sent: bool)
    requires Granted(s) && Enabled(s, Invoke(inv, sent))
    ensures Granted(Next(s, Invoke(inv, sent)))
  {
  }

  lemma {:induction false} GrantedReply(s: Life, id: int, good: bool, sent: bool, frees: bool)
    requires Granted(s)
    ensures Granted(Reply(s, id, good, sent, frees))
  {
    var k := Find(s.pending, id);
    if k < |s.pending| {
      var s1 := s.(pending := Drop(s.pending, k));
      GrantedReady(s1, false, frees);
      GrantedReady(s1, good, frees);
      GrantedSend(s1, List, sent);
    }
  }

  lemma {:induction false} GrantedReady(s: Life, good: bool, frees: bool)
    requires Granted(s)
    ensures Granted(Ready(s, good, frees))
  {
    GrantedFree(s.(caller := s.caller.(told := s.caller.told + [good])));
  }

  lemma {:induction false} GrantedSend(s: Life, kind: Kind, sent: bool)
    requires Granted(s)
    ensures Granted(Send(s, kind, sent).0)
  {
  }
}
