/**
  Why a call ran. The batch machine decides at the permission gate from the state
  it keeps; here the decision is read off the events of the whole run instead: the
  verdicts of the hooks, what the user answered, and what an earlier answer, given
  for always, said about the tool.
 */
module Permission {
  import opened Wrappers
  import opened BatchSpec

  /** The user answered the prompt of call i. */
  predicate Answers(e: Event, i: nat, allow: bool) { e.UserAnswer? && e.i == i && e.allow == allow }

  ghost predicate Answered(past: seq<Event>, i: nat, allow: bool) {
    exists m: nat | m < |past| :: Answers(past[m], i, allow)
  }

  /** An answer given for always, on any call of the named tool. */
  predicate Always(s: State, e: Event, name: string) {
    e.UserAnswer? && e.always && e.i < |s.calls| && s.calls[e.i].name == name
  }

  /** The answer that stands for a tool: the latest one given for always, or what was remembered at the start. */
  ghost function Standing(s: State, past: seq<Event>, name: string): Option<bool> {
    if past == [] then
      if name in s.remembered then Some(s.remembered[name]) else None
    else
      var e := past[|past| - 1];
      if Always(s, e, name) then Some(e.allow) else Standing(s, past[..|past| - 1], name)
  }

  /** The events that can bring call i to the gate. */
  predicate Brings(e: Event, i: nat) {
    match e
    case Dispatch(j, park, _) => j == i && !park
    case TokensReady(j, _) => j == i
    case HookAnswer(j, v, _) => j == i && v != Deny
    case _ => false
  }

  ghost predicate NeverBrought(past: seq<Event>, i: nat) { forall m: nat | m < |past| :: !Brings(past[m], i) }

  /** Event k is the last one that brought call i on its way to the gate. */
  ghost predicate Reached(past: seq<Event>, i: nat, k: nat) {
    k < |past| && Brings(past[k], i) && forall m: nat | k < m < |past| :: !Brings(past[m], i)
  }

  /** The tool needs no prompt and no hook asked for one. */
  predicate Free(p: Policy, c: Call)
    requires c.name in p.tools
  {
    p.tools[c.name] && Ask !in c.verdicts
  }

  /** An allowing answer stands for the tool, and no hook asked for a fresh one. */
  predicate Kept(c: Call, standing: Option<bool>) { standing == Some(true) && Ask !in c.verdicts }

  /** The call may run: no prompt is needed, a kept answer allows it, or the user allowed this very call. */
  ghost predicate Lets(p: Policy, s: State, past: seq<Event>, c: Call, i: nat, k: nat)
    requires c.name in p.tools && k <= |past|
  {
    Free(p, c) || Kept(c, Standing(s, past[..k], c.name)) || Answered(past, i, true)
  }

  // ------------------------------------------------- what a run has decided

  ghost predicate Decided(p: Policy, s: State, past: seq<Event>, c: Call, i: nat, k: nat)
    requires c.name in p.tools && k <= |past|
  {
    var standing := Standing(s, past[..k], c.name);
    && c.phase !in {Waiting, Parked, Hooked}
    && (c.invokes == 1 <==> Lets(p, s, past, c, i, k))
    && (c.phase == Asking ==> !Free(p, c) && !Kept(c, standing) && standing != Some(false))
    && (!Free(p, c) && standing == Some(false) ==> c.phase == Done && c.invokes == 0)
  }

  /** What the events so far say about call i. */
  ghost predicate Fate(p: Policy, s: State, past: seq<Event>, c: Call, i: nat) {
    && (forall allow | Answered(past, i, allow) ::
          p.asks && c.phase in {Running, Expired, Done} && c.invokes == (if allow then 1 else 0)
          && (!allow ==> c.phase == Done))
    && (c.phase in {Waiting, Parked} ==> NeverBrought(past, i))
    && (c.phase == Asking || c.invokes == 1 ==> exists k: nat :: Reached(past, i, k))
    && (forall k: nat | Reached(past, i, k) && Passed(p, c) :: Decided(p, s, past, c, i, k))
  }

  /** t is a later state of the batch that began as s: same calls, and what it remembers stands. */
  ghost predicate Later(s: State, past: seq<Event>, t: State) {
    && |t.calls| == |s.calls| && (forall j: nat | j < |s.calls| :: t.calls[j].name == s.calls[j].name)
    && forall name :: Standing(s, past, name) == if name in t.remembered then Some(t.remembered[name]) else None
  }

  // ------------------------------------------------------- one more event

  lemma {:induction false} AnsweredMore(past: seq<Event>, e: Event, i: nat, allow: bool)
    ensures Answered(past + [e], i, allow) <==> Answered(past, i, allow) || Answers(e, i, allow)
  {
    var more := past + [e];
    if m: nat :| m < |past| && Answers(past[m], i, allow) { assert Answers(more[m], i, allow); }
    if Answers(e, i, allow) { assert Answers(more[|past|], i, allow); }
  }

  lemma {:induction false} StandingMore(s: State, past: seq<Event>, e: Event, name: string)
    ensures Standing(s, past + [e], name) == if Always(s, e, name) then Some(e.allow) else Standing(s, past, name)
  {
    assert (past + [e])[..|past|] == past;
  }

  lemma {:induction false} PrefixMore(past: seq<Event>, e: Event, k: nat)
    requires k <= |past|
    ensures (past + [e])[..k] == past[..k]
  {
  }

  lemma {:induction false} ReachedMore(past: seq<Event>, e: Event, i: nat, k: nat)
    requires !Brings(e, i)
    ensures Reached(past + [e], i, k) <==> Reached(past, i, k)
  {
    var more := past + [e];
    if Reached(more, i, k) {
      assert k != |past|;
      forall m: nat | k < m < |past| ensures !Brings(past[m], i) { assert more[m] == past[m]; }
    }
  }

  lemma {:induction false} ReachedNow(past: seq<Event>, e: Event, i: nat, k: nat)
    requires Brings(e, i)
    ensures Reached(past + [e], i, k) <==> k == |past|
  {
    assert (past + [e])[|past|] == e;
  }

  /** An event that neither brings the call on nor answers its prompt, and what it may do to the call. */
  ghost predicate Aside(e: Event, c: Call, d: Call, i: nat) {
    && !Brings(e, i) && !(e.UserAnswer? && e.i == i)
    && d.name == c.name && d.invokes == c.invokes && (Deny !in d.verdicts ==> d.verdicts == c.verdicts)
    && (d.phase in {Waiting, Parked} ==> c.phase in {Waiting, Parked})
    && (d.phase in {Waiting, Parked, Hooked} ==> c.phase in {Waiting, Parked, Hooked})
    && (d.phase == Asking ==> c.phase == Asking)
    && (c.phase == Done ==> d.phase == Done)
    && (c.phase in {Running, Expired} ==> d.phase in {Running, Expired, Done})
  }

  lemma {:induction false} AsideReached(past: seq<Event>, e: Event, i: nat)
    requires !Brings(e, i)
    ensures NeverBrought(past, i) ==> NeverBrought(past + [e], i)
    ensures (exists k: nat :: Reached(past, i, k)) ==> exists k: nat :: Reached(past + [e], i, k)
  {
    if k: nat :| Reached(past, i, k) { ReachedMore(past, e, i, k); }
  }

  lemma {:induction false} AsideDecided(p: Policy, s: State, past: seq<Event>, e: Event, c: Call, d: Call, i: nat, k: nat)
    requires Fate(p, s, past, c, i) && Aside(e, c, d, i)
    requires Reached(past + [e], i, k) && Passed(p, d)
    ensures Decided(p, s, past + [e], d, i, k)
  {
    ReachedMore(past, e, i, k);
    PrefixMore(past, e, k);
    AnsweredMore(past, e, i, true);
    assert Decided(p, s, past, c, i, k);
  }

  lemma {:induction false} AsideFate(p: Policy, s: State, past: seq<Event>, e: Event, c: Call, d: Call, i: nat)
    requires Fate(p, s, past, c, i) && Aside(e, c, d, i)
    ensures Fate(p, s, past + [e], d, i)
  {
    AnsweredMore(past, e, i, true);
    AnsweredMore(past, e, i, false);
    AsideReached(past, e, i);
    forall k: nat | Reached(past + [e], i, k) && Passed(p, d) ensures Decided(p, s, past + [e], d, i, k) {
      AsideDecided(p, s, past, e, c, d, i, k);
    }
  }

  /** What the gate makes of a call that stands before it. */
  ghost predicate Judged(p: Policy, d: Call, standing: Option<bool>)
    requires d.name in p.tools
  {
    if Free(p, d) then d.phase == Running && d.invokes == 1
    else if standing == Some(false) then d.phase == Done && d.invokes == 0
    else if Kept(d, standing) then d.phase == Running && d.invokes == 1
    else d.phase == (if p.asks then Asking else Done) && d.invokes == 0
  }

  /** A call that was brought on is judged, waits for its next hook, or fails because its tool is unknown. */
  ghost predicate Brought(p: Policy, d: Call, standing: Option<bool>) {
    if Passed(p, d) then Judged(p, d, standing) else d.phase in {Hooked, Done} && d.invokes == 0
  }

  lemma {:induction false} BroughtFate(p: Policy, s: State, past: seq<Event>, e: Event, c: Call, d: Call, i: nat)
    requires Fate(p, s, past, c, i) && c.phase in {Waiting, Parked, Hooked} && Brings(e, i)
    requires Brought(p, d, Standing(s, past, d.name))
    ensures Fate(p, s, past + [e], d, i)
  {
    var more := past + [e];
    AnsweredMore(past, e, i, true);
    AnsweredMore(past, e, i, false);
    assert !Answered(past, i, true) && !Answered(past, i, false);
    ReachedNow(past, e, i, |past|);
    forall k: nat | Reached(more, i, k) && Passed(p, d) ensures Decided(p, s, more, d, i, k) {
      ReachedNow(past, e, i, k);
      PrefixMore(past, e, |past|);
      assert past[..|past|] == past;
    }
  }

  lemma {:induction false} UserFate(p: Policy, s: State, past: seq<Event>, e: Event, c: Call, d: Call, i: nat)
    requires Fate(p, s, past, c, i) && c.phase == Asking && c.invokes == 0 && p.asks && e.UserAnswer? && e.i == i
    requires d.name == c.name && d.verdicts == c.verdicts && d.invokes == (if e.allow then 1 else 0)
    requires d.phase == (if e.allow then Running else Done)
    ensures Fate(p, s, past + [e], d, i)
  {
    var more := past + [e];
    AnsweredMore(past, e, i, true);
    AnsweredMore(past, e, i, false);
    AsideReached(past, e, i);
    forall k: nat | Reached(more, i, k) && Passed(p, d) ensures Decided(p, s, more, d, i, k) {
      ReachedMore(past, e, i, k);
      PrefixMore(past, e, k);
      assert Decided(p, s, past, c, i, k);
    }
  }

  // ------------------------------------------------ what the machine does

  /** Only call i changed, and it kept its name; nothing new is remembered. */
  ghost predicate Only(s: State, t: State, i: nat) {
    && i < |s.calls| == |t.calls| && t.remembered == s.remembered && t.calls[i].name == s.calls[i].name
    && forall j: nat | j < |s.calls| && j != i :: t.calls[j] == s.calls[j]
  }

  lemma {:induction false} FinishOnly(s: State, i: nat)
    requires i < |s.calls|
    ensures Only(s, Finish(s, i), i)
    ensures var c := s.calls[i];
            Finish(s, i).calls[i] == c.(phase := Done, armed := false, results := c.results + 1)
  {
  }

  lemma {:induction false} EnterOnly(s: State, i: nat, timed: bool)
    requires i < |s.calls|
    ensures Only(s, Enter(s, i, timed), i)
    ensures var c, d := s.calls[i], Enter(s, i, timed).calls[i];
            d.phase == Running && d.verdicts == c.verdicts && d.invokes == c.invokes + 1
  {
  }

  ghost function Stored(s: State, name: string): Option<bool> {
    if name in s.remembered then Some(s.remembered[name]) else None
  }

  lemma {:induction false} GateOnly(p: Policy, s: State, i: nat, timed: bool)
    requires i < |s.calls| && s.calls[i].invokes == 0 && Passed(p, s.calls[i])
    ensures Only(s, Gate(p, s, i, timed), i)
    ensures Brought(p, Gate(p, s, i, timed).calls[i], Stored(s, s.calls[i].name))
  {
    FinishOnly(s, i);
    EnterOnly(s, i, timed);
  }

  lemma {:induction false} StartOnly(p: Policy, s: State, i: nat, timed: bool)
    requires i < |s.calls| && Ready(p, s.calls[i])
    ensures Only(s, Start(p, s, i, timed), i)
    ensures Brought(p, Start(p, s, i, timed).calls[i], Stored(s, s.calls[i].name))
  {
    if s.calls[i].name !in p.tools {
      FinishOnly(s, i);
    } else if |s.calls[i].verdicts| == p.hooks {
      GateOnly(p, s, i, timed);
    }
  }

  /** How call i fares under event e. */
  ghost predicate Moves(p: Policy, s: State, e: Event, d: Call, i: nat)
    requires i < |s.calls|
  {
    var c := s.calls[i];
    if Brings(e, i) then c.phase in {Waiting, Parked, Hooked} && d.name == c.name && Brought(p, d, Stored(s, c.name))
    else if e.UserAnswer? && e.i == i then
      && c.phase == Asking && c.invokes == 0 && p.asks && d.name == c.name && d.verdicts == c.verdicts
      && d.invokes == (if e.allow then 1 else 0) && d.phase == (if e.allow then Running else Done)
    else Aside(e, c, d, i)
  }

  /** What a step does: call i moves, the others stay, and an answer for always is noted. */
  ghost predicate Does(p: Policy, s: State, e: Event, t: State, i: nat) {
    && i < |s.calls| == |t.calls| && Moves(p, s, e, t.calls[i], i) && t.calls[i].name == s.calls[i].name
    && (forall j: nat | j < |s.calls| && j != i :: t.calls[j] == s.calls[j])
    && t.remembered == if e.UserAnswer? && e.always then s.remembered[s.calls[i].name := e.allow] else s.remembered
  }

  lemma {:induction false} StartDoes(p: Policy, s: State, e: Event)
    requires Inv(p, s) && Known(p, s) && Enabled(p, s, e) && (e.Dispatch? || e.TokensReady?)
    ensures Does(p, s, e, Next(p, s, e), e.i)
  {
    NotDoneOpen(p, s, e.i);
    if !(e.Dispatch? && e.park) { StartOnly(p, s, e.i, e.timed); }
  }

  lemma {:induction false} HookDoes(p: Policy, s: State, i: nat, v: Verdict, timed: bool)
    requires Inv(p, s) && Known(p, s) && Enabled(p, s, HookAnswer(i, v, timed))
    ensures Does(p, s, HookAnswer(i, v, timed), Next(p, s, HookAnswer(i, v, timed)), i)
  {
    NotDoneOpen(p, s, i);
    var c := s.calls[i].(verdicts := s.calls[i].verdicts + [v]);
    var t := Put(s, i, c);
    if v == Deny {
      FinishOnly(t, i);
      assert c.verdicts[|c.verdicts| - 1] == Deny;
    } else {
      assert Start(p, t, i, timed) == Hook(p, t, i, timed);
      StartOnly(p, t, i, timed);
    }
  }

  lemma {:induction false} UserDoes(p: Policy, s: State, e: Event)
    requires Inv(p, s) && Known(p, s) && Enabled(p, s, e) && e.UserAnswer?
    ensures Does(p, s, e, Next(p, s, e), e.i)
  {
    NotDoneOpen(p, s, e.i);
    var t := if e.always then s.(remembered := s.remembered[s.calls[e.i].name := e.allow]) else s;
    FinishOnly(t, e.i);
    EnterOnly(t, e.i, e.timed);
  }

  lemma {:induction false} ReportDoes(p: Policy, s: State, i: nat)
    requires Inv(p, s) && Known(p, s) && Enabled(p, s, Report(i))
    ensures Does(p, s, Report(i), Next(p, s, Report(i)), i)
  {
    assert CallOk(p, s.calls[i]);
    FinishOnly(Put(s, i, s.calls[i].(owed := false)), i);
  }

  lemma {:induction false} TimeoutDoes(p: Policy, s: State, i: nat)
    requires Inv(p, s) && Known(p, s) && Enabled(p, s, Timeout(i))
    ensures Does(p, s, Timeout(i), Next(p, s, Timeout(i)), i)
  {
    assert CallOk(p, s.calls[i]);
    FinishOnly(Put(s, i, s.calls[i].(early := true)), i);
  }

  lemma {:induction false} SmallDoes(p: Policy, s: State, e: Event)
    requires Inv(p, s) && Known(p, s) && Enabled(p, s, e) && (e.SetStop? || e.CancelOne?)
    ensures Does(p, s, e, Next(p, s, e), e.i)
  {
    assert CallOk(p, s.calls[e.i]);
    FinishOnly(s, e.i);
  }

  lemma {:induction false} NextDoes(p: Policy, s: State, e: Event)
    requires Inv(p, s) && Known(p, s) && Enabled(p, s, e) && !e.Hold? && !e.Unhold?
    ensures Does(p, s, e, Next(p, s, e), e.i)
  {
    match e {
      case Dispatch(_, _, _) => StartDoes(p, s, e);
      case TokensReady(_, _) => StartDoes(p, s, e);
      case HookAnswer(i, v, timed) => HookDoes(p, s, i, v, timed);
      case UserAnswer(_, _, _, _) => UserDoes(p, s, e);
      case SetStop(_, _) => SmallDoes(p, s, e);
      case Report(i) => ReportDoes(p, s, i);
      case Timeout(i) => TimeoutDoes(p, s, i);
      case CancelOne(_) => SmallDoes(p, s, e);
    }
  }

  // ------------------------------------------------------------- whole runs

  lemma {:induction false} LaterNext(s: State, past: seq<Event>, t: State, u: State, e: Event)
    requires Later(s, past, t) && |u.calls| == |t.calls|
    requires forall j: nat | j < |t.calls| :: u.calls[j].name == t.calls[j].name
    requires e.UserAnswer? ==> e.i < |t.calls|
    requires u.remembered == if e.UserAnswer? && e.always then t.remembered[t.calls[e.i].name := e.allow] else t.remembered
    ensures Later(s, past + [e], u)
  {
    forall name ensures Standing(s, past + [e], name) == Stored(u, name) {
      StandingMore(s, past, e, name);
    }
  }

  lemma {:induction false} HoldFate(p: Policy, s: State, past: seq<Event>, t: State, e: Event, i: nat)
    requires Later(s, past, t) && i < |t.calls| && Fate(p, s, past, t.calls[i], i)
    requires Known(p, t) && Enabled(p, t, e) && (e.Hold? || e.Unhold?)
    ensures Later(s, past + [e], Next(p, t, e)) && Fate(p, s, past + [e], Next(p, t, e).calls[i], i)
  {
    LaterNext(s, past, t, Next(p, t, e), e);
    AsideFate(p, s, past, e, t.calls[i], t.calls[i], i);
  }

  lemma {:induction false} MovedFate(p: Policy, s: State, past: seq<Event>, t: State, e: Event, d: Call, i: nat)
    requires Later(s, past, t) && i < |t.calls| && Fate(p, s, past, t.calls[i], i) && Moves(p, t, e, d, i)
    ensures Fate(p, s, past + [e], d, i)
  {
    if Brings(e, i) {
      BroughtFate(p, s, past, e, t.calls[i], d, i);
    } else if e.UserAnswer? && e.i == i {
      UserFate(p, s, past, e, t.calls[i], d, i);
    } else {
      AsideFate(p, s, past, e, t.calls[i], d, i);
    }
  }

  lemma {:induction false} StepFate(p: Policy, s: State, past: seq<Event>, t: State, e: Event, i: nat)
    requires Later(s, past, t) && i < |t.calls| && Fate(p, s, past, t.calls[i], i)
    requires Inv(p, t) && Known(p, t) && Enabled(p, t, e)
    ensures Later(s, past + [e], Next(p, t, e)) && Fate(p, s, past + [e], Next(p, t, e).calls[i], i)
  {
    if e.Hold? || e.Unhold? {
      HoldFate(p, s, past, t, e, i);
    } else {
      NextDoes(p, t, e);
      LaterNext(s, past, t, Next(p, t, e), e);
      if e.i == i {
        MovedFate(p, s, past, t, e, Next(p, t, e).calls[i], i);
      } else {
        AsideFate(p, s, past, e, t.calls[i], t.calls[i], i);
      }
    }
  }

  lemma {:induction false} EventMoved(past: seq<Event>, evs: seq<Event>)
    requires evs != []
    ensures past + [evs[0]] + evs[1..] == past + evs
  {
  }

  lemma {:induction false} RunFate(p: Policy, s: State, past: seq<Event>, t: State, evs: seq<Event>, i: nat)
    requires Later(s, past, t) && i < |t.calls| && Fate(p, s, past, t.calls[i], i)
    requires Inv(p, t) && Legal(p, t, evs)
    ensures Later(s, past + evs, After(p, t, evs))
    ensures Fate(p, s, past + evs, After(p, t, evs).calls[i], i)
    decreases |evs|
  {
    if evs == [] {
      assert past + evs == past;
    } else {
      StepFate(p, s, past, t, evs[0], i);
      NextInv(p, t, evs[0]);
      EventMoved(past, evs);
      RunFate(p, s, past + [evs[0]], Next(p, t, evs[0]), evs[1..], i);
    }
  }

  lemma {:induction false} BegunFate(p: Policy, s: State, i: nat)
    requires Begun(s) && i < |s.calls|
    ensures Later(s, [], s) && Fate(p, s, [], s.calls[i], i)
  {
    assert s.calls[i] == Fresh(s.calls[i].id, s.calls[i].name);
  }

  /** A decided call that was invoked had a reason to be, and one that was not had none. */
  lemma {:induction false} FateDecides(p: Policy, s: State, past: seq<Event>, c: Call, i: nat)
    requires Fate(p, s, past, c, i) && CallOk(p, c)
    ensures c.invokes == 1 <==>
            Passed(p, c) && exists k: nat :: Reached(past, i, k) && Lets(p, s, past, c, i, k)
  {
    if c.invokes == 1 {
      var k: nat :| Reached(past, i, k);
      assert Decided(p, s, past, c, i, k);
    }
  }

  /**
    Over every run a tool is invoked at most once, and it is invoked exactly when
    every hook passed the call, the call was brought to the gate, and there either
    no prompt was needed, or an answer kept from before allowed it and no hook asked
    again, or the user allowed this very call.
   */
  lemma {:induction false} RunsIffAllowed(p: Policy, s: State, evs: seq<Event>, i: nat)
    requires Begun(s) && Legal(p, s, evs) && i < |s.calls|
    ensures i < |After(p, s, evs).calls|
    ensures var c := After(p, s, evs).calls[i];
            && c.invokes <= 1
            && (c.invokes == 1 <==>
                Passed(p, c) && exists k: nat :: Reached(evs, i, k) && Lets(p, s, evs, c, i, k))
  {
    BegunInv(p, s);
    RunInv(p, s, evs);
    BegunFate(p, s, i);
    RunFate(p, s, [], s, evs, i);
    assert [] + evs == evs;
    var c := After(p, s, evs).calls[i];
    assert CallOk(p, c);
    FateDecides(p, s, evs, c, i);
  }

  /**
    What keeps a tool from running: a hook's or the user's denial, and, for a call
    that needs a prompt, a denial kept from before. No prompt is answered where
    nobody can be asked, so there such a call never runs either.
   */
  lemma {:induction false} NeverRunsWhenDenied(p: Policy, s: State, evs: seq<Event>, i: nat)
    requires Begun(s) && Legal(p, s, evs) && i < |s.calls|
    ensures i < |After(p, s, evs).calls|
    ensures var c := After(p, s, evs).calls[i];
            && (Deny in c.verdicts || Answered(evs, i, false) ==> c.invokes == 0 && c.phase == Done)
            && (forall k: nat | Reached(evs, i, k) && Passed(p, c) && !Free(p, c)
                                && Standing(s, evs[..k], c.name) == Some(false) ::
                  c.invokes == 0 && c.phase == Done)
            && (!p.asks ==> !Answered(evs, i, true) && !Answered(evs, i, false))
  {
    BegunInv(p, s);
    RunInv(p, s, evs);
    BegunFate(p, s, i);
    RunFate(p, s, [], s, evs, i);
    assert [] + evs == evs;
    assert CallOk(p, After(p, s, evs).calls[i]);
  }
}
