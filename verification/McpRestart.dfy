/**
  What becomes of an MCP client that dies or is freed: with a restart token left it
  comes back with a new process and a handshake under way, without one it stays
  down, and a freed one is freed when its last handle is gone.
 */
module McpRestart {
  import opened Wrappers
  import opened McpSpec

  /** The tokens at a moment: one more every thirty seconds, at most three. */
  function Tokens(b: Budget, now: nat): real
    requires b.last <= now
  {
    var t := b.tokens + ((now - b.last) as real) / 1000000.0 / 30.0;
    if t > 3.0 then 3.0 else t
  }

  /** A started client the caller has, and that works. */
  ghost predicate Alive(s: Life) { Spawned(s) && !s.dead && s.handed && !s.discarded && s.frees == 0 }

  /** It died, and its handles are on their way down, towards goal. */
  ghost predicate GoingDown(s: Life, goal: Goal) {
    && s.down && s.goal == goal && !Spawned(s) && s.out != Up && !AllGone(s)
    && s.handed && s.pending == [] && s.frees == 0 && s.dead
  }

  /** A close callback that leaves no handle. */
  predicate LastClose(s: Life, e: Event) { e.Closed? && AllGone(MarkGone(s, e.h)) }

  /** Events while the handles go down: anything but the caller's free, and but the last close callback. */
  ghost predicate Meanwhile(s: Life, es: seq<Event>)
    requires Legal(s, es)
    decreases |es|
  {
    es == [] || (!es[0].Discard? && !LastClose(s, es[0]) && Meanwhile(Next(s, es[0]), es[1..]))
  }

  /** What stays as it is meanwhile. */
  ghost predicate Steady(s: Life, t: Life, goal: Goal) {
    GoingDown(t, goal) && t.spawns == s.spawns && t.budget == s.budget && t.discarded == s.discarded
  }

  lemma {:induction false} InvokeSteady(s: Life, goal: Goal, inv: nat, sent: bool)
    requires GoingDown(s, goal) && Enabled(s, Invoke(inv, sent))
    ensures Steady(s, Next(s, Invoke(inv, sent)), goal)
  {
  }

  lemma {:induction false} CloseSteady(s: Life, goal: Goal, e: Event)
    requires GoingDown(s, goal) && e.Closed? && !LastClose(s, e)
    ensures Steady(s, HandleClosed(s, e.h, e.ok, e.sent, e.frees), goal)
  {
    assert HandleClosed(s, e.h, e.ok, e.sent, e.frees) == MarkGone(s, e.h);
    MarkSteady(s, goal, e.h);
  }

  lemma {:induction false} MarkSteady(s: Life, goal: Goal, h: Which)
    requires GoingDown(s, goal) && !AllGone(MarkGone(s, h))
    ensures Steady(s, MarkGone(s, h), goal)
  {
    match h {
      case In =>
      case Out =>
      case Proc =>
    }
  }

  lemma {:induction false} StepSteady(s: Life, goal: Goal, e: Event)
    requires GoingDown(s, goal) && Enabled(s, e) && !e.Discard? && !LastClose(s, e)
    ensures Steady(s, Next(s, e), goal)
  {
    match e {
      case Exit(now, frees) =>
      case Closed(_, _, _, _) => CloseSteady(s, goal, e);
      case Invoke(inv, sent) => InvokeSteady(s, goal, inv, sent);
      case _ =>
    }
  }

  lemma {:induction false} RunSteady(s: Life, goal: Goal, es: seq<Event>)
    requires GoingDown(s, goal) && Legal(s, es) && Meanwhile(s, es)
    ensures Steady(s, After(s, es), goal)
    decreases |es|
  {
    if es != [] {
      StepSteady(s, goal, es[0]);
      RunSteady(Next(s, es[0]), goal, es[1..]);
    }
  }

  // ------------------------------------------------------------------- death

  /** End of file or the exit of the process, with a caller that does not free the client when told. */
  predicate Death(e: Event) { (e.Eof? || e.Exit?) && !e.frees }

  /** The calls that waited are answered as dead, and the tokens say whether the client comes back. */
  lemma {:induction false} DeathGoesDown(s: Life, start: nat, e: Event)
    requires Inv(s, start) && Alive(s) && Enabled(s, e) && Death(e)
    ensures
      var t := Next(s, e);
      && GoingDown(t, if Tokens(s.budget, e.now) >= 1.0 then Respawn else Idle)
      && t.spawns == s.spawns && !t.discarded && t.budget.last == e.now
      && t.budget.tokens == Tokens(s.budget, e.now) - (if Tokens(s.budget, e.now) >= 1.0 then 1.0 else 0.0)
      && t.answers == s.answers + Failed(s.pending, Died)
  {
  }

  lemma {:induction false} LastMark(s: Life, e: Event)
    requires LastClose(s, e)
    ensures MarkGone(s, e.h).(down := false) == NoHandles(s)
  {
    match e.h {
      case In => InLast(s);
      case Out => OutLast(s);
      case Proc => ProcLast(s);
    }
  }

  function NoHandles(s: Life): Life { s.(inp := Gone, out := Gone, proc := Gone, down := false) }

  lemma {:induction false} InLast(s: Life)
    requires s.out == Gone && s.proc == Gone
    ensures s.(inp := Gone).(down := false) == NoHandles(s)
  {
  }

  lemma {:induction false} OutLast(s: Life)
    requires s.inp == Gone && s.proc == Gone
    ensures s.(out := Gone).(down := false) == NoHandles(s)
  {
  }

  lemma {:induction false} ProcLast(s: Life)
    requires s.inp == Gone && s.out == Gone
    ensures s.(proc := Gone).(down := false) == NoHandles(s)
  {
  }

  lemma {:induction false} RespawnWorks(s: Life)
    requires s.pending == []
    ensures
      var t := DoRespawn(s, true, true, false);
      && t == s.(inp := Up, out := Up, proc := Up, exited := false, failed := false, spawns := s.spawns + 1,
                 nextId := 2, dead := false, pending := [Pending(1, Init)])
    ensures forall frees :: DoRespawn(s, true, true, frees) == DoRespawn(s, true, true, false)
  {
    assert [Pending(1, Init)] + [] == [Pending(1, Init)];
  }

  /** What the last close callback leads to when a respawn is due and it works. */
  lemma {:induction false} ComesBack(s: Life, e: Event)
    requires GoingDown(s, Respawn) && Enabled(s, e) && LastClose(s, e) && e.ok && e.sent
    ensures
      var t := Next(s, e);
      && t.inp == Up && t.out == Up && t.proc == Up && !t.down && !t.dead && t.spawns == s.spawns + 1
      && t.pending == [Pending(1, Init)] && t.nextId == 2 && t.budget == s.budget
  {
    LastMark(s, e);
    var m := NoHandles(s);
    RespawnWorks(m);
    assert Next(s, e) == DoRespawn(m, true, true, e.frees);
  }

  lemma {:induction false} StaysDown(s: Life, e: Event)
    requires GoingDown(s, Idle) && Enabled(s, e) && LastClose(s, e)
    ensures var t := Next(s, e);
            AllGone(t) && !t.down && t.dead && t.spawns == s.spawns && t.frees == 0 && t.budget == s.budget
  {
    LastMark(s, e);
  }

  /**
    A client that dies with a token left, and is not freed, comes back with the last
    close callback: one process more, working, with the handshake sent. Whatever
    else happens in between makes no difference.
   */
  lemma {:induction false} RestartsWithAToken(s: Life, start: nat, death: Event, es: seq<Event>, last: Event)
    requires Inv(s, start) && Alive(s) && Enabled(s, death) && Death(death) && Tokens(s.budget, death.now) >= 1.0
    requires Legal(Next(s, death), es) && Meanwhile(Next(s, death), es)
    requires Enabled(After(Next(s, death), es), last) && LastClose(After(Next(s, death), es), last) && last.ok && last.sent
    ensures
      var t := Next(After(Next(s, death), es), last);
      && Spawned(t) && t.out == Up && t.proc == Up && !t.dead && !t.down && t.spawns == s.spawns + 1
      && t.pending == [Pending(1, Init)] && t.budget.tokens == Tokens(s.budget, death.now) - 1.0
  {
    DeathGoesDown(s, start, death);
    RunSteady(Next(s, death), Respawn, es);
    ComesBack(After(Next(s, death), es), last);
  }

  /** Without one it stays dead, with all handles gone, and keeps what it had of a token. */
  lemma {:induction false} StaysDeadWithoutAToken(s: Life, start: nat, death: Event, es: seq<Event>, last: Event)
    requires Inv(s, start) && Alive(s) && Enabled(s, death) && Death(death) && Tokens(s.budget, death.now) < 1.0
    requires Legal(Next(s, death), es) && Meanwhile(Next(s, death), es)
    requires Enabled(After(Next(s, death), es), last) && LastClose(After(Next(s, death), es), last)
    ensures
      var t := Next(After(Next(s, death), es), last);
      && AllGone(t) && t.dead && t.spawns == s.spawns && t.frees == 0
      && t.budget.tokens == Tokens(s.budget, death.now)
  {
    DeathGoesDown(s, start, death);
    RunSteady(Next(s, death), Idle, es);
    StaysDown(After(Next(s, death), es), last);
  }

  /** Such runs are there from every client that works: the exit, then the three close callbacks. */
  lemma {:induction false} ExitAndCloses(s: Life, start: nat, now: nat)
    requires Inv(s, start) && Alive(s) && s.budget.last <= now
    ensures
      var es := [Closed(In, true, true, false), Closed(Out, true, true, false)];
      var last := Closed(Proc, true, true, false);
      && Enabled(s, Exit(now, false))
      && Legal(Next(s, Exit(now, false)), es) && Meanwhile(Next(s, Exit(now, false)), es)
      && Enabled(After(Next(s, Exit(now, false)), es), last) && LastClose(After(Next(s, Exit(now, false)), es), last)
  {
    var e, f := Closed(In, true, true, false), Closed(Out, true, true, false);
    var t := Next(s, Exit(now, false));
    DeathGoesDown(s, start, Exit(now, false));
    assert t.inp == Closing && t.out == Closing && t.proc == Closing;
    TwoCloses(t, e, f);
  }

  lemma {:induction false} TwoCloses(s: Life, e: Event, f: Event)
    requires e.Closed? && f.Closed? && Enabled(s, e) && !LastClose(s, e)
    requires Enabled(Next(s, e), f) && !LastClose(Next(s, e), f)
    ensures Legal(s, [e, f]) && Meanwhile(s, [e, f]) && After(s, [e, f]) == Next(Next(s, e), f)
  {
    assert [f][1..] == [] && Legal(Next(Next(s, e), f), []);
    assert Legal(Next(s, e), [f]) && Meanwhile(Next(s, e), [f]) && After(Next(s, e), [f]) == Next(Next(s, e), f);
    assert [e, f][1..] == [f];
  }

  // -------------------------------------------------------------------- free

  lemma {:induction false} FreeGoesDown(s: Life, start: nat)
    requires Inv(s, start) && Alive(s)
    ensures var t := Next(s, Discard);
            && GoingDown(t, Free) && t.discarded && t.answers == s.answers + Failed(s.pending, ClientClosed)
  {
  }

  lemma {:induction false} FreedAtLast(s: Life, e: Event)
    requires GoingDown(s, Free) && Enabled(s, e) && LastClose(s, e)
    ensures var t := Next(s, e); AllGone(t) && t.frees == 1 && t.spawns == s.spawns
  {
    LastMark(s, e);
  }

  /** A client that works and is freed ends its life with the last close callback. */
  lemma {:induction false} FreeIsCarriedOut(s: Life, start: nat, es: seq<Event>, last: Event)
    requires Inv(s, start) && Alive(s) && Enabled(s, Discard)
    requires Legal(Next(s, Discard), es) && Meanwhile(Next(s, Discard), es)
    requires Enabled(After(Next(s, Discard), es), last) && LastClose(After(Next(s, Discard), es), last)
    ensures var t := Next(After(Next(s, Discard), es), last); AllGone(t) && t.frees == 1 && t.spawns == s.spawns
  {
    FreeGoesDown(s, start);
    RunSteady(Next(s, Discard), Free, es);
    FreedAtLast(After(Next(s, Discard), es), last);
  }

  /** A free while a respawn is due wins. */
  lemma {:induction false} FreeBeatsRespawn(s: Life, goal: Goal)
    requires GoingDown(s, goal) && !s.discarded && Enabled(s, Discard)
    ensures var t := Next(s, Discard); GoingDown(t, Free) && t.discarded
  {
  }

  // --------------------------------------------------------------- handshake

  /** The reply to the handshake asks for the tools, under the next id; another reply than a result ends it there. */
  lemma {:induction false} HandshakeAnswered(s: Life, k: nat, good: bool)
    requires !s.dead && Spawned(s) && s.out == Up && k < |s.pending| && Find(s.pending, s.pending[k].id) == k && s.pending[k].kind == Init
    ensures
      var t := Next(s, Answer(s.pending[k].id, good, true, false));
      && t.nextId == s.nextId + (if good then 1 else 0)
      && t.pending == (if good then [Pending(s.nextId, List)] else []) + s.pending[..k] + s.pending[k + 1..]
      && t.answers == s.answers
  {
  }

  /** The caller hears whether the tools are there: from the answer to the request for them, and of nothing once it freed the client. */
  lemma {:induction false} ListAnswerIsTold(s: Life, k: nat, good: bool, sent: bool, frees: bool)
    requires s.out == Up && DistinctIds(s.pending) && k < |s.pending| && s.pending[k].kind == List
    ensures
      var t := Next(s, Answer(s.pending[k].id, good, sent, frees));
      t.caller.told == (if s.caller.on then s.caller.told + [good] else s.caller.told) && (s.caller.on && frees ==> t.discarded)
  {
    FindDistinct(s.pending, k);
    FreedTells(s.(pending := Drop(s.pending, k), caller := s.caller.(told := s.caller.told + [good])));
  }

  lemma {:induction false} FindDistinct(pending: seq<Pending>, k: nat)
    requires DistinctIds(pending) && k < |pending|
    ensures Find(pending, pending[k].id) == k
  {
  }

  lemma {:induction false} FreedTells(s: Life)
    ensures UserFree(s).caller.told == s.caller.told && UserFree(s).discarded
  {
  }

  /** A death and a refused handshake are told as failures. */
  lemma {:induction false} FailureIsTold(s: Life, now: nat)
    ensures !s.dead ==> GoDead(s, now, false).caller.told == (if s.caller.on then s.caller.told + [false] else s.caller.told)
    ensures Handshake(s, false, false).caller.told == (if s.caller.on then s.caller.told + [false] else s.caller.told)
    ensures DoRespawn(s, false, false, false).caller.told == (if s.caller.on then s.caller.told + [false] else s.caller.told)
  {
  }

  /** The callback is never called for a client that was freed. */
  lemma {:induction false} SilentOnceFreed(s: Life, start: nat, e: Event)
    requires Inv(s, start) && s.discarded && Enabled(s, e)
    ensures Next(s, e).caller.told == s.caller.told && Next(s, e).discarded
  {
    assert !s.caller.on;
    match e {
      case Closed(h, ok, sent, frees) => MarkTells(s, h);
      case _ =>
    }
  }

  lemma {:induction false} MarkTells(s: Life, h: Which)
    ensures MarkGone(s, h).caller == s.caller && MarkGone(s, h).discarded == s.discarded && MarkGone(s, h).goal == s.goal
  {
  }

  /** A cancelled call leaves the list and is answered; the other entries stay in order. */
  lemma {:induction false} CancelIsAnswered(s: Life, inv: nat, k: nat)
    requires Enabled(s, Cancel(inv)) && k < |s.pending| && s.pending[k].kind == Call(inv)
    requires forall j | 0 <= j < |s.pending| && j != k :: s.pending[j].kind != Call(inv)
    ensures
      var t := Next(s, Cancel(inv));
      t.pending == s.pending[..k] + s.pending[k + 1..] && t.answers == s.answers + [(inv, Cancelled)]
  {
  }

  /** A reply to a call is its answer. */
  lemma {:induction false} ReplyIsAnswered(s: Life, k: nat, good: bool, sent: bool, frees: bool)
    requires s.out == Up && DistinctIds(s.pending) && k < |s.pending| && s.pending[k].kind.Call?
    ensures
      var t := Next(s, Answer(s.pending[k].id, good, sent, frees));
      && t.pending == s.pending[..k] + s.pending[k + 1..]
      && t.answers == s.answers + [(s.pending[k].kind.inv, Replied)]
  {
  }

  /** A call on a working client waits for its reply under the next id; on any other it fails at once. */
  lemma {:induction false} CallIsSent(s: Life, inv: nat, sent: bool)
    requires Enabled(s, Invoke(inv, sent))
    ensures
      var t := Next(s, Invoke(inv, sent));
      if !s.dead && Spawned(s) && sent then
        t.pending == [Pending(s.nextId, Call(inv))] + s.pending && t.nextId == s.nextId + 1 && t.answers == s.answers
      else t.pending == s.pending && t.answers == s.answers + [(inv, Unreachable)]
  {
  }

  /** The answers a death or a free gives: one for each waiting call, in the order of the list. */
  lemma {:induction false} FailedOnlyCalls(pending: seq<Pending>, how: How)
    ensures |Failed(pending, how)| == |Waiting(pending)|
    ensures forall i | 0 <= i < |Failed(pending, how)| ::
              Failed(pending, how)[i].1 == how && Failed(pending, how)[i].0 in Waiting(pending)
  {
    if pending != [] {
      FailedOnlyCalls(pending[1..], how);
      FailedFront(pending, how);
    }
  }

  lemma {:induction false} FailedFront(pending: seq<Pending>, how: How)
    requires pending != []
    ensures Failed(pending, how) ==
            (if pending[0].kind.Call? then [(pending[0].kind.inv, how)] else []) + Failed(pending[1..], how)
    ensures Waiting(pending) ==
            (if pending[0].kind.Call? then multiset{pending[0].kind.inv} else multiset{}) + Waiting(pending[1..])
  {
  }
}
