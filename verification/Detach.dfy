/**
  A batch whose agent goes away: what never started is dropped, running tools are
  asked to stop, and the batch frees itself when the last of them has reported.
 */
module Detach {
  import opened BatchSpec
  import T = ToolBatch

  /** A detached batch. touched: code still under way has used the agent, which is gone. */
  datatype Loose = Loose(calls: seq<Call>, holds: nat, pending: nat, frees: nat, touched: bool)

  /** Parked, waiting for a hook or for an answer: nothing will complete it. */
  predicate Dropped(c: Call) { c.phase in {Parked, Hooked, Asking} }

  function Left(c: Call): Call {
    if c.phase == Done then c else if Dropped(c) then c.(phase := Done) else c.(armed := false)
  }

  function LeftAll(calls: seq<Call>): seq<Call> {
    seq(|calls|, i requires 0 <= i < |calls| => Left(calls[i]))
  }

  /** clm_tools_detach. */
  ghost function Detached(s: State): Loose {
    var calls := LeftAll(s.calls);
    var pending := T.OpenCount(calls) + s.holds;
    Loose(calls, s.holds, pending, if pending == 0 then 1 else 0, false)
  }

  /** What never started is dropped, what runs is awaited, and no timeout is left behind. */
  lemma {:induction false} DetachLeaves(s: State, i: nat)
    requires i < |s.calls|
    requires s.calls[i].armed ==> s.calls[i].phase == Running
    ensures
      var c := s.calls[i];
      var d := Detached(s).calls;
      && |d| == |s.calls| && d[i].id == c.id && d[i].owed == c.owed && !d[i].armed
      && d[i].phase == if c.phase in {Parked, Hooked, Asking} then Done else c.phase
  {
  }

  datatype Late = Reports(i: nat) | LetsGo | Reaches(i: nat)

  /**
    A running tool reports; code that held the batch open returns; the dispatch loop,
    the outermost such code, comes to a call it had not reached, and only behind the
    last one lets go. Of a run that has touched the agent nothing more is said.
   */
  predicate Possible(l: Loose, e: Late) {
    && !l.touched
    && match e
       case Reports(i) => l.frees == 0 && i < |l.calls| && l.calls[i].phase in {Running, Expired}
       case LetsGo => l.holds > 0 && (l.holds == 1 ==> !AnyWaiting(l.calls))
       case Reaches(i) => l.holds == 1 && i < |l.calls| && l.calls[i].phase == Waiting
  }

  function Down(l: Loose): nat { if l.pending > 0 then l.pending - 1 else 0 }

  /**
    A report only counts down. The end of a hold counts down too, and at zero ends
    the batch through the agent; each turn of the dispatch loop begins with the
    agent's rate limit.
   */
  function Step(l: Loose, e: Late): Loose
    requires Possible(l, e)
  {
    var freed := l.frees + if Down(l) == 0 then 1 else 0;
    match e
    case Reports(i) =>
      l.(calls := l.calls[i := l.calls[i].(phase := Done)], pending := Down(l), frees := freed)
    case LetsGo => l.(holds := l.holds - 1, pending := Down(l), frees := freed, touched := Down(l) == 0)
    case Reaches(_) => l.(touched := true)
  }

  ghost predicate Sound(l: Loose) {
    l.pending == T.OpenCount(l.calls) + l.holds && l.frees == (if l.pending == 0 then 1 else 0)
  }

  lemma {:induction false} StepSound(l: Loose, e: Late)
    requires Sound(l) && Possible(l, e)
    ensures Sound(Step(l, e)) && (l.holds == 0 ==> Step(l, e).holds == 0 && Step(l, e).touched == l.touched)
  {
    if e.Reports? { T.OpenCountPut(l.calls, e.i, l.calls[e.i].(phase := Done)); }
  }

  ghost predicate Goes(l: Loose, es: seq<Late>)
    decreases |es|
  {
    es == [] || (Possible(l, es[0]) && Goes(Step(l, es[0]), es[1..]))
  }

  function Gone(l: Loose, es: seq<Late>): Loose
    requires Goes(l, es)
    decreases |es|
  {
    if es == [] then l else Gone(Step(l, es[0]), es[1..])
  }

  lemma {:induction false} GoneSound(l: Loose, es: seq<Late>)
    requires Sound(l) && Goes(l, es)
    ensures Sound(Gone(l, es)) && (l.holds == 0 ==> Gone(l, es).holds == 0 && Gone(l, es).touched == l.touched)
    decreases |es|
  {
    if es != [] {
      StepSound(l, es[0]);
      GoneSound(Step(l, es[0]), es[1..]);
    }
  }

  /**
    However the late reports come, a detached batch is freed at most once, exactly
    when every call is done; and nobody asks the agent when nothing held the batch.
   */
  lemma {:induction false} DetachedFreedOnce(s: State, es: seq<Late>)
    requires Goes(Detached(s), es)
    ensures
      var l := Gone(Detached(s), es);
      && l.frees <= 1 && (l.frees == 1 <==> AllDone(l.calls) && l.holds == 0)
      && (s.holds == 0 ==> !l.touched)
  {
    var l := Gone(Detached(s), es);
    GoneSound(Detached(s), es);
    T.OpenCountZero(l.calls);
  }

  /** Calls that are done, will report, or have not been reached. */
  predicate Remaining(calls: seq<Call>) {
    forall i | 0 <= i < |calls| :: calls[i].phase in {Waiting, Running, Expired, Done}
  }

  /**
    One event on the way to the agent: inner holds end first; then the dispatch loop
    reaches its next call, or, with every call reached, the tools report and it lets go.
   */
  lemma {:induction false} Onward(l: Loose) returns (e: Late)
    requires Sound(l) && Remaining(l.calls) && l.holds > 0 && l.frees == 0 && !l.touched
    ensures Possible(l, e) && Sound(Step(l, e)) && Remaining(Step(l, e).calls)
    ensures Step(l, e).touched ||
            (Step(l, e).holds > 0 && Step(l, e).frees == 0 && Step(l, e).pending < l.pending)
  {
    T.OpenCountZero(l.calls);
    if l.holds > 1 {
      e := LetsGo;
    } else if i: nat :| i < |l.calls| && l.calls[i].phase == Waiting {
      e := Reaches(i);
    } else if i: nat :| i < |l.calls| && l.calls[i].phase != Done {
      e := Reports(i);
    } else {
      e := LetsGo;
    }
    StepSound(l, e);
  }

  lemma {:induction false} TouchesAgent(l: Loose) returns (es: seq<Late>)
    requires Sound(l) && Remaining(l.calls) && l.holds > 0 && l.frees == 0 && !l.touched
    ensures Goes(l, es) && Gone(l, es).touched
    decreases l.pending
  {
    var e := Onward(l);
    var t := Step(l, e);
    var rest := [];
    if !t.touched { rest := TouchesAgent(t); }
    es := [e] + rest;
    assert es[1..] == rest;
  }

  /** What comes after a detach can use the agent, which is gone, exactly when code still held the batch open. */
  lemma {:induction false} TouchedIffHeld(s: State)
    ensures (exists es: seq<Late> :: Goes(Detached(s), es) && Gone(Detached(s), es).touched) <==> s.holds > 0
  {
    var l := Detached(s);
    forall es: seq<Late> | Goes(l, es) && Gone(l, es).touched ensures s.holds > 0 { GoneSound(l, es); }
    if s.holds > 0 {
      var es := TouchesAgent(l);
    }
  }

  /**
    The shortest case: of two calls the first tool's own code frees the agent while
    it is being run. It returns, and the dispatch loop goes on to the second call.
   */
  lemma {:induction false} FreedWhileDispatching()
    ensures
      var p := Policy(0, false, map["t" := true]);
      var s := State([Fresh("1", "t"), Fresh("2", "t")], 1, [], 0, map[]);
      && Begun(s) && Known(p, s) && Enabled(p, s, Dispatch(0, false, false))
      && var l := Detached(Next(p, s, Dispatch(0, false, false)));
         Goes(l, [LetsGo, Reaches(1)]) && Gone(l, [LetsGo, Reaches(1)]).touched
  {
    var p := Policy(0, false, map["t" := true]);
    var s := State([Fresh("1", "t"), Fresh("2", "t")], 1, [], 0, map[]);
    assert !Forced(s.calls[0]);
    var t := Next(p, s, Dispatch(0, false, false));
    assert t == Enter(s, 0, false);
    TwoEvents(Detached(t), LetsGo, Reaches(1));
  }

  lemma {:induction false} TwoEvents(l: Loose, e: Late, f: Late)
    requires Possible(l, e) && Possible(Step(l, e), f)
    ensures Goes(l, [e, f]) && Gone(l, [e, f]) == Step(Step(l, e), f)
  {
    var m := Step(l, e);
    assert [f][1..] == [] && Goes(Step(m, f), []);
    assert Goes(m, [f]) && Gone(m, [f]) == Step(m, f);
    assert [e, f][1..] == [f];
  }

  /** The loop of clm_tools_detach; pending counts the open calls and holds more. */
  method DetachCalls(calls: seq<Call>, counter: nat, ghost holds: nat) returns (left: seq<Call>, pending: nat)
    requires counter == T.OpenCount(calls) + holds
    ensures left == LeftAll(calls) && pending == T.OpenCount(left) + holds
  {
    left, pending := calls, counter;
    for i := 0 to |calls|
      invariant |left| == |calls| && pending == T.OpenCount(left) + holds
      invariant forall j | 0 <= j < i :: left[j] == Left(calls[j])
      invariant forall j | i <= j < |calls| :: left[j] == calls[j]
    {
      T.OpenCountPut(left, i, Left(left[i]));
      if left[i].phase == Done {
        continue;
      }
      if left[i].phase == Parked || left[i].phase == Hooked || left[i].phase == Asking {
        // It never started, so it will never complete on its own.
        left := left[i := left[i].(phase := Done)];
        if pending > 0 {
          pending := pending - 1;
        }
        continue;
      }
      left := left[i := left[i].(armed := false)];
    }
  }
}
