/**
  The handles of a child process: who closes what, when the end is reported and
  the memory freed, and that the timer alone never keeps a process from ending.
 */
module ProcHandles {
  datatype Handle = Proc | Out | Err | In | Timer

  datatype Alarm = Off | Limit | Kill

  datatype Signal = SigTerm | SigKill

  datatype State = State(
    open: set<Handle>,     // not closed yet
    closing: set<Handle>,  // uv_close called, its callback still to come
    handles: int,
    pipes: int,
    alarm: Alarm,
    exited: bool,
    cancelled: bool,
    failed: bool,
    finished: nat,
    signals: seq<Signal>)  // what the process group was sent, in order
  {
    predicate Live(h: Handle) { h in open && h !in closing }
  }

  datatype Event =
    | Closed(h: Handle)
    | Exited(grace: bool)
    | Fires
    | Ends(h: Handle)    // end of file or an error on a pipe
    | Written
    | Cancel
    | StopOutput
    | KillNow

  /** shut. */
  function Shut(s: State, h: Handle): State {
    if s.Live(h) then
      s.(closing := s.closing + {h}, alarm := if h == Timer then Off else s.alarm)
    else s
  }

  function ShutPipe(s: State, h: Handle): State {
    if s.Live(h) then Shut(s, h).(pipes := s.pipes - 1) else s
  }

  /** The pipes counter counts the pipes no one has closed. */
  predicate PipesCount(s: State) {
    s.pipes == (if s.Live(Out) then 1 else 0) + (if s.Live(Err) then 1 else 0)
  }

  function ClosePipes(s: State): State {
    Shut(ShutPipe(ShutPipe(s, Out), Err), In)
  }

  /** signal_group: once the child is gone, its group is only known to be there while a pipe is open. */
  function Signalled(s: State, sig: Signal): State {
    if !s.exited || s.pipes > 0 then s.(signals := s.signals + [sig]) else s
  }

  /** clm_proc_cancel. */
  function Cancelled(s: State): State {
    if s.cancelled then s
    else Signalled(s, SigTerm).(cancelled := true, alarm := if s.Live(Timer) then Kill else s.alarm)
  }

  /** clm_proc_stop_output signals before it closes the pipes. */
  function Stopping(s: State): State { if s.cancelled then s else Signalled(s, SigTerm) }

  /** clm_proc_spawn, successful or not. */
  function Spawned(stdin: bool, ok: bool, limit: bool): State {
    var all := if stdin then {Proc, Out, Err, Timer, In} else {Proc, Out, Err, Timer};
    if ok then State(all, {}, |all|, 2, if limit then Limit else Off, false, false, false, 0, [])
    else State(all, all, |all|, 0, Off, false, false, true, 0, [])
  }

  /** What libuv may deliver and the host may call: nothing on a closed handle, nothing after the end. */
  predicate Enabled(s: State, e: Event) {
    match e
    case Closed(h) => h in s.closing
    case Exited(_) => s.Live(Proc) && !s.exited && !s.failed
    case Fires => s.Live(Timer) && s.alarm != Off
    case Ends(h) => (h == Out || h == Err) && s.Live(h)
    case Written => In in s.open
    case _ => s.finished == 0 && !s.failed
  }

  function AfterClosed(s: State, h: Handle): State {
    var t := s.(open := s.open - {h}, closing := s.closing - {h}, handles := s.handles - 1);
    if t.handles == 0 then t.(finished := t.finished + 1)
    else if t.handles == 1 && t.Live(Timer) then Shut(t, Timer)
    else t
  }

  function AfterExit(s: State, grace: bool): State {
    var t := Shut(s.(exited := true), Proc);
    if t.cancelled then t
    else if t.pipes > 0 && grace then t.(alarm := Kill)
    else t.(alarm := Off)
  }

  function Next(s: State, e: Event): State {
    match e
    case Closed(h) => AfterClosed(s, h)
    case Exited(grace) => AfterExit(s, grace)
    case Fires => if s.alarm == Limit then Cancelled(s.(alarm := Off)) else Shut(ClosePipes(Signalled(s, SigKill)), Timer)
    case Ends(h) => ShutPipe(s, h)
    case Written => Shut(s, In)
    case Cancel => Cancelled(s)
    case StopOutput => Cancelled(ClosePipes(Stopping(s)))
    case KillNow => ClosePipes(Signalled(s.(cancelled := true), SigKill))
  }

  predicate Inv(s: State) {
    && s.closing <= s.open && s.handles == |s.open| && PipesCount(s)
    && s.finished == (if s.open == {} then 1 else 0)
    && (s.alarm != Off ==> s.Live(Timer))
    && (s.alarm == Kill ==> s.cancelled || s.exited)
    && (s.Live(Proc) <==> !s.exited && !s.failed)
    && (!s.Live(Timer) ==> s.cancelled || s.exited || s.failed)
    && (s.open == {Timer} ==> Timer in s.closing)
    && (s.failed ==> s.closing == s.open)
  }

  lemma {:induction false} SpawnedInv(stdin: bool, ok: bool, limit: bool)
    ensures Inv(Spawned(stdin, ok, limit))
  {
    var s := Spawned(stdin, ok, limit);
    assert Proc in s.open;
  }

  lemma {:induction false} ClosedInv(s: State, h: Handle)
    requires Inv(s) && h in s.closing
    ensures Inv(AfterClosed(s, h))
  {
    RestOpen(s.open, h);
  }

  lemma {:induction false} RestOpen(open: set<Handle>, h: Handle)
    requires h in open
    ensures |open - {h}| == |open| - 1 && (|open - {h}| == 0 <==> open - {h} == {})
    ensures open - {h} == {Timer} <==> |open - {h}| == 1 && Timer in open - {h}
  {
    var rest := open - {h};
    if |rest| == 1 && Timer in rest {
      assert |rest - {Timer}| == 0;
      assert rest == {Timer};
    }
  }

  lemma {:induction false} ShutInv(s: State, h: Handle)
    requires Inv(s) && h != Out && h != Err && h != Proc
    requires h == Timer ==> s.cancelled || s.exited || s.failed
    ensures Inv(Shut(s, h))
  {
    assert Shut(s, h).open == s.open;
  }

  lemma {:induction false} ShutPipeInv(s: State, h: Handle)
    requires Inv(s) && (h == Out || h == Err)
    ensures Inv(ShutPipe(s, h))
  {
    assert ShutPipe(s, h).open == s.open;
  }

  lemma {:induction false} ClosePipesInv(s: State)
    requires Inv(s)
    ensures Inv(ClosePipes(s)) && ClosePipes(s).alarm == s.alarm
    ensures ClosePipes(s).pipes == 0 && ClosePipes(s).exited == s.exited && ClosePipes(s).cancelled == s.cancelled
    ensures ClosePipes(s).failed == s.failed && ClosePipes(s).open == s.open
  {
    ShutPipeInv(s, Out);
    ShutPipeInv(ShutPipe(s, Out), Err);
    ShutInv(ShutPipe(ShutPipe(s, Out), Err), In);
  }

  lemma {:induction false} ExitInv(s: State, grace: bool)
    requires Inv(s) && s.Live(Proc) && !s.exited && !s.failed
    ensures Inv(AfterExit(s, grace))
  {
    assert AfterExit(s, grace).open == s.open;
  }

  lemma {:induction false} NextInv(s: State, e: Event)
    requires Inv(s) && Enabled(s, e)
    ensures Inv(Next(s, e))
  {
    match e
    case Closed(h) => ClosedInv(s, h);
    case Exited(grace) => ExitInv(s, grace);
    case Fires =>
      if s.alarm == Kill {
        ClosePipesInv(Signalled(s, SigKill));
        ShutInv(ClosePipes(Signalled(s, SigKill)), Timer);
      }
    case Ends(h) => ShutPipeInv(s, h);
    case Written => ShutInv(s, In);
    case Cancel =>
    case StopOutput => ClosePipesInv(Stopping(s));
    case KillNow => ClosePipesInv(Signalled(s.(cancelled := true), SigKill));
  }

  // ------------------------------------------------------------- whole runs

  ghost predicate Run(states: seq<State>, events: seq<Event>) {
    && |states| == |events| + 1
    && (exists stdin: bool, ok: bool, limit: bool :: states[0] == Spawned(stdin, ok, limit))
    && forall i | 0 <= i < |events| :: Enabled(states[i], events[i]) && states[i + 1] == Next(states[i], events[i])
  }

  lemma {:induction false} RunInv(states: seq<State>, events: seq<Event>, i: nat)
    requires Run(states, events) && i < |states|
    ensures Inv(states[i])
  {
    if i == 0 {
      var stdin: bool, ok: bool, limit: bool :| states[0] == Spawned(stdin, ok, limit);
      SpawnedInv(stdin, ok, limit);
    } else {
      RunInv(states, events, i - 1);
      NextInv(states[i - 1], events[i - 1]);
    }
  }

  /** The end is reported once, when every handle is closed, and it is the last thing that happens. */
  lemma {:induction false} EndsOnce(states: seq<State>, events: seq<Event>, i: nat)
    requires Run(states, events) && i < |states|
    ensures states[i].finished <= 1
    ensures states[i].finished == 1 <==> states[i].open == {}
    ensures states[i].finished == 1 ==> i == |events|
  {
    RunInv(states, events, i);
    assert i < |events| ==> Enabled(states[i], events[i]);
    if states[i].finished == 1 { NothingAfterEnd(states[i]); }
  }

  lemma {:induction false} NothingAfterEnd(s: State)
    requires Inv(s) && s.finished == 1
    ensures forall e :: !Enabled(s, e)
  {
  }

  /** A handle is closed once: it goes from live to closing to closed, and never back. */
  lemma {:induction false} NeverBack(s: State, e: Event)
    requires Enabled(s, e)
    ensures e.Closed? ==> Next(s, e).open == s.open - {e.h} && s.closing - {e.h} <= Next(s, e).closing
    ensures !e.Closed? ==> Next(s, e).open == s.open && s.closing <= Next(s, e).closing
  {
    match e {
      case Closed(h) => ClosedLeaves(s, h);
      case Fires => NeverBackPipes(Signalled(s, SigKill));
      case StopOutput => NeverBackPipes(Stopping(s));
      case KillNow => NeverBackPipes(Signalled(s.(cancelled := true), SigKill));
      case _ =>
    }
  }

  lemma {:induction false} ClosedLeaves(s: State, h: Handle)
    ensures AfterClosed(s, h).open == s.open - {h} && s.closing - {h} <= AfterClosed(s, h).closing
  {
  }

  lemma {:induction false} NeverBackPipes(s: State)
    ensures ClosePipes(s).open == s.open && s.closing <= ClosePipes(s).closing
  {
  }

  /** While nothing is being closed, something real is still awaited: never the timer alone. */
  lemma {:induction false} TimerNeverAlone(s: State)
    requires Inv(s) && s.open != {} && s.closing == {}
    ensures (s.Live(Proc) && !s.exited) || s.Live(Out) || s.Live(Err) || s.Live(In)
  {
    assert s.open - {Timer} == {} ==> s.open == {Timer};
    var h :| h in s.open - {Timer};
    match h
    case Proc => assert s.Live(Proc);
    case Out => assert s.Live(Out);
    case Err => assert s.Live(Err);
    case In => assert s.Live(In);
  }

  /** Once the kill timer has fired, all that is left to wait for is the exit itself. */
  lemma {:induction false} KillLeavesTheExit(s: State, h: Handle)
    requires Inv(s) && Enabled(s, Fires) && s.alarm == Kill
    ensures h in Next(s, Fires).open ==> h in Next(s, Fires).closing || (h == Proc && !s.exited)
  {
    ClosePipesInv(Signalled(s, SigKill));
  }

  // ------------------------------------------------------------- the way out

  /** Cancelled, with the kill still to come. */
  ghost predicate Doomed(s: State) { s.cancelled && s.alarm == Kill && s.Live(Timer) }

  /** All but the timer is closed, and the timer is about to be. */
  ghost predicate Over(s: State) { s.open <= {Timer} && s.open <= s.closing }

  /** A cancel, a stopped output and a run past its limit all arm the kill. */
  lemma {:induction false} CancelArmsKill(s: State, e: Event)
    requires Inv(s) && Enabled(s, e) && !s.cancelled && s.Live(Timer)
    requires e == Cancel || e == StopOutput || (e == Fires && s.alarm == Limit)
    ensures Doomed(Next(s, e)) && Next(s, e).open == s.open && Next(s, e).exited == s.exited
    ensures e == StopOutput ==> forall h | h in s.open && h in {Out, Err, In} :: h in Next(s, e).closing
    ensures e != StopOutput ==> Next(s, e).closing == s.closing && Next(s, e).pipes == s.pipes
  {
    ClosePipesInv(Stopping(s));
  }

  /** An exit with pipes still open gives them a time of grace, if there is one; else the timer rests. */
  lemma {:induction false} ExitGivesGrace(s: State, grace: bool)
    requires Inv(s) && Enabled(s, Exited(grace))
    ensures
      var t := Next(s, Exited(grace));
      && t.exited && Proc in t.closing && t.pipes == s.pipes && t.open == s.open
      && t.alarm == if s.cancelled then s.alarm
                    else if grace && (s.Live(Out) || s.Live(Err)) then Kill
                    else Off
  {
  }

  lemma {:induction false} StepDoomed(s: State, e: Event)
    requires Inv(s) && Enabled(s, e) && e != Fires && Doomed(s)
    ensures Doomed(Next(s, e)) || Over(Next(s, e))
  {
    match e {
      case Closed(h) => CloseDoomed(s, h);
      case StopOutput => ClosePipesInv(Stopping(s));
      case KillNow => ClosePipesInv(Signalled(s.(cancelled := true), SigKill));
      case _ =>
    }
  }

  lemma {:induction false} CloseDoomed(s: State, h: Handle)
    requires Inv(s) && h in s.closing && Doomed(s)
    ensures Doomed(AfterClosed(s, h)) || Over(AfterClosed(s, h))
  {
    RestOpen(s.open, h);
  }

  lemma {:induction false} StepOver(s: State, e: Event)
    requires Inv(s) && Enabled(s, e) && Over(s)
    ensures Over(Next(s, e))
  {
    if e.Closed? {
      ClosedInv(s, e.h);
    } else {
      NeverBack(s, e);
    }
  }

  /** From then on the kill stays armed until it fires, or until it has nothing left to do. */
  lemma {:induction false} DoomedUntilKilled(states: seq<State>, events: seq<Event>, i: nat, j: nat)
    requires Run(states, events) && i <= j < |states| && Doomed(states[i])
    requires forall k | i <= k < j :: events[k] != Fires
    ensures Doomed(states[j]) || Over(states[j])
    decreases j
  {
    if i < j {
      DoomedUntilKilled(states, events, i, j - 1);
      RunInv(states, events, j - 1);
      if Doomed(states[j - 1]) { StepDoomed(states[j - 1], events[j - 1]); } else { StepOver(states[j - 1], events[j - 1]); }
    }
  }

  /** What a step sends: nothing unless the group is known to be there, and then what the step is for. */
  lemma {:induction false} SignalsSent(s: State, e: Event)
    requires Inv(s) && Enabled(s, e)
    ensures
      var there := s.Live(Proc) || s.Live(Out) || s.Live(Err);
      var kills := e == KillNow || (e == Fires && s.alarm == Kill);
      var ends := !s.cancelled && (e == Cancel || e == StopOutput || (e == Fires && s.alarm == Limit));
      && s.signals <= Next(s, e).signals
      && (Next(s, e).signals == s.signals <==> !((kills || ends) && there))
      && (kills && there ==> Next(s, e).signals == s.signals + [SigKill])
      && (ends ==> SigKill !in Next(s, e).signals[|s.signals|..])
  {
    match e {
      case Closed(h) => ClosedSends(s, h);
      case Fires => PipesSend(Signalled(s, SigKill));
      case StopOutput => PipesSend(Stopping(s));
      case KillNow => PipesSend(Signalled(s.(cancelled := true), SigKill));
      case _ =>
    }
  }

  lemma {:induction false} PipesSend(s: State)
    ensures ClosePipes(s).signals == s.signals && ClosePipes(s).exited == s.exited && ClosePipes(s).cancelled == s.cancelled
    ensures Shut(ClosePipes(s), Timer).signals == s.signals
  {
  }

  lemma {:induction false} ClosedSends(s: State, h: Handle)
    ensures AfterClosed(s, h).signals == s.signals
  {
  }

  // -------------------------------------------------------------- in place

  class Child {
    var open: set<Handle>
    var closing: set<Handle>
    var handles: int
    var pipes: int
    var alarm: Alarm
    var exited: bool
    var cancelled: bool
    var failed: bool
    var finished: nat
    var signals: seq<Signal>

    ghost function Now(): State
      reads this
    {
      State(open, closing, handles, pipes, alarm, exited, cancelled, failed, finished, signals)
    }

    /** clm_proc_spawn, up to the spawn itself. */
    constructor (stdin: bool)
      ensures Now() == Spawned(stdin, true, false)
    {
      open := if stdin then {Proc, Out, Err, Timer, In} else {Proc, Out, Err, Timer};
      closing := {};
      handles := if stdin then 5 else 4;
      pipes := 2;
      alarm, exited, cancelled, failed, finished, signals := Off, false, false, false, 0, [];
      new;
      SetSizes();
    }

    /** The rest: a failed spawn closes its handles at once. */
    method Started(ok: bool, limit: bool, ghost stdin: bool)
      requires Now() == Spawned(stdin, true, false)
      modifies this
      ensures Now() == Spawned(stdin, ok, limit)
    {
      if !ok {
        FailedSpawn(stdin);
        failed := true;
        CloseLive(Proc);
        CloseAllPipes();
        CloseLive(Timer);
      } else if limit {
        alarm := Limit;
      }
    }

    static lemma {:induction false} SetSizes()
      ensures |{Proc, Out, Err, Timer, In}| == 5 && |{Proc, Out, Err, Timer}| == 4
    {
    }

    static lemma {:induction false} FailedSpawn(stdin: bool)
      ensures
        var s := Spawned(stdin, true, false).(failed := true);
        Shut(ClosePipes(Shut(s, Proc)), Timer) == Spawned(stdin, false, false) == Spawned(stdin, false, true)
    {
      var s := Shut(Spawned(stdin, true, false).(failed := true), Proc);
      PipesShut(s);
      var t := Shut(ClosePipes(s), Timer);
      assert t.closing == t.open;
    }

    static lemma {:induction false} PipesShut(s: State)
      requires s.closing <= s.open
      ensures
        var t := ClosePipes(s);
        && s.closing <= t.closing <= s.open
        && (forall h | h in s.open && (h == Out || h == Err || h == In) :: h in t.closing)
        && t == s.(closing := t.closing, pipes := t.pipes)
        && (s.Live(Out) && s.Live(Err) ==> t.pipes == s.pipes - 2)
        && (s.Live(Timer) ==> t.Live(Timer))
    {
    }

    /** shut. */
    method CloseLive(h: Handle)
      modifies this`closing, this`alarm
      ensures Now() == Shut(old(Now()), h)
    {
      if h in open && h !in closing {
        closing := closing + {h};
        if h == Timer {
          alarm := Off;
        }
      }
    }

    method CloseOnePipe(h: Handle)
      modifies this`closing, this`alarm, this`pipes
      ensures Now() == ShutPipe(old(Now()), h)
    {
      if h in open && h !in closing {
        pipes := pipes - 1;
        CloseLive(h);
      }
    }

    /** close_pipes. */
    method CloseAllPipes()
      modifies this`closing, this`alarm, this`pipes
      ensures Now() == ClosePipes(old(Now()))
    {
      CloseOnePipe(Out);
      CloseOnePipe(Err);
      CloseLive(In);
    }

    method OnClosed(h: Handle)
      requires Inv(Now()) && Enabled(Now(), Closed(h))
      modifies this
      ensures Now() == Next(old(Now()), Closed(h)) && Inv(Now())
    {
      ClosedInv(Now(), h);
      CountDown(h);
    }

    method CountDown(h: Handle)
      modifies this
      ensures Now() == AfterClosed(old(Now()), h)
    {
      open, closing := open - {h}, closing - {h};
      handles := handles - 1;
      if handles == 0 {
        finished := finished + 1;
        return;
      }
      // Only the timer is left, and nothing remains for it to guard.
      if handles == 1 && Timer in open && Timer !in closing {
        CloseLive(Timer);
      }
    }

    method OnExited(grace: bool)
      requires Inv(Now()) && Enabled(Now(), Exited(grace))
      modifies this
      ensures Now() == Next(old(Now()), Exited(grace)) && Inv(Now())
    {
      ExitInv(Now(), grace);
      exited := true;
      CloseLive(Proc);
      if cancelled {
        return;
      }
      if pipes > 0 && grace {
        alarm := Kill;
      } else {
        alarm := Off;
      }
    }

    /** signal_group. */
    method SignalGroup(sig: Signal)
      modifies this`signals
      ensures Now() == Signalled(old(Now()), sig)
    {
      if !exited || pipes > 0 {
        signals := signals + [sig];
      }
    }

    method CancelRun()
      requires Inv(Now()) && !failed
      modifies this`cancelled, this`alarm, this`signals
      ensures Now() == Cancelled(old(Now())) && Inv(Now())
    {
      if cancelled {
        return;
      }
      cancelled := true;
      SignalGroup(SigTerm);
      if Timer in open && Timer !in closing {
        alarm := Kill;
      }
    }

    /** on_timeout and on_kill. */
    method OnTimer()
      requires Inv(Now()) && Enabled(Now(), Fires)
      modifies this
      ensures Now() == Next(old(Now()), Fires) && Inv(Now())
    {
      NextInv(Now(), Fires);
      if alarm == Limit {
        alarm := Off;
        CancelRun();
      } else {
        SignalGroup(SigKill);
        CloseAllPipes();
        CloseLive(Timer);
      }
    }

    /** clm_proc_stop_output. */
    method Stop()
      requires Inv(Now()) && Enabled(Now(), StopOutput)
      modifies this
      ensures Now() == Next(old(Now()), StopOutput) && Inv(Now())
    {
      ClosePipesInv(Stopping(Now()));
      if !cancelled {
        SignalGroup(SigTerm);
      }
      CloseAllPipes();
      CancelRun();
    }

    /** clm_proc_kill. */
    method KillAtOnce()
      requires Inv(Now()) && Enabled(Now(), KillNow)
      modifies this
      ensures Now() == Next(old(Now()), KillNow) && Inv(Now())
    {
      NextInv(Now(), KillNow);
      cancelled := true;
      SignalGroup(SigKill);
      CloseAllPipes();
    }
  }
}
