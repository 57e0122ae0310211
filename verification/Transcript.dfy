/**
  What the conversation holds of what was said. Over runs that do not fold, clear or
  restore: every submitted text and every notice is in the history, or still waits
  in the queue, once and in order; and so are the replies and the results.
 */
module Transcript {
  import opened Wrappers
  import opened Messages
  import opened BatchSpec
  import opened Conversation
  import S = Supersede

  // ------------------------------------------------- what the history holds

  function OfRole(h: seq<Message>, role: Role): seq<Message> {
    if h == [] then [] else (if h[0].role == role then [h[0]] else []) + OfRole(h[1..], role)
  }

  lemma {:induction false} OfRoleConcat(a: seq<Message>, b: seq<Message>, role: Role)
    ensures OfRole(a + b, role) == OfRole(a, role) + OfRole(b, role)
    decreases |a|
  {
    if a == [] {
      assert a + b == b;
    } else {
      assert (a + b)[1..] == a[1..] + b;
      OfRoleConcat(a[1..], b, role);
      var x := if a[0].role == role then [a[0]] else [];
      assert x + (OfRole(a[1..], role) + OfRole(b, role)) == x + OfRole(a[1..], role) + OfRole(b, role);
    }
  }

  lemma {:induction false} OfRoleOne(m: Message, role: Role)
    ensures OfRole([m], role) == if m.role == role then [m] else []
  {
    assert [m][1..] == [];
  }

  lemma {:induction false} OfRoleSnoc(h: seq<Message>, m: Message, role: Role)
    ensures OfRole(h + [m], role) == if m.role == role then OfRole(h, role) + [m] else OfRole(h, role)
  {
    OfRoleConcat(h, [m], role);
    OfRoleOne(m, role);
    assert OfRole(h, role) + [] == OfRole(h, role);
  }

  /** Rewriting results leaves the messages of other roles. */
  lemma {:induction false} OfRoleSame(a: seq<Message>, b: seq<Message>, role: Role)
    requires |a| == |b| && forall i | 0 <= i < |a| :: a[i].role == b[i].role && (a[i].role == role ==> a[i] == b[i])
    ensures OfRole(a, role) == OfRole(b, role)
  {
    if a != [] { OfRoleSame(a[1..], b[1..], role); }
  }

  lemma {:induction false} SupersededKeeps(h: seq<Message>, name: string, stub: seq<bv8>, role: Role)
    requires role != Tool
    ensures OfRole(S.Superseded(h, name, stub), role) == OfRole(h, role)
  {
    OfRoleSame(S.Superseded(h, name, stub), h, role);
  }

  // ----------------------------------------------------------- what was said

  /** Something the user typed, or a notice the host passed on. */
  datatype Word = Typed(text: seq<bv8>) | Notice(text: seq<bv8>)

  predicate Notices(ws: seq<Word>) { forall w | w in ws :: w.Notice? }

  /** One message: a typed text, or some notices. */
  predicate Utterance(ws: seq<Word>) { ws != [] && (|ws| == 1 || Notices(ws)) }

  /** The texts with a blank line between each two. */
  function Together(ws: seq<Word>): seq<bv8>
    requires ws != []
  {
    if |ws| == 1 then ws[0].text else Together(ws[..|ws| - 1]) + Ascii("\n\n") + ws[|ws| - 1].text
  }

  function Flat(groups: seq<seq<Word>>): seq<Word> {
    if groups == [] then [] else Flat(groups[..|groups| - 1]) + groups[|groups| - 1]
  }

  /** A user message that holds the text as it is stored. */
  ghost predicate Says(m: Message, text: seq<bv8>, cz: Compressor) {
    m == Message(Role.User, Stored(Some(text), cz), [], "", None, [])
  }

  /** The words by message, and those that wait. */
  datatype Book = Book(groups: seq<seq<Word>>, waiting: seq<Word>)

  /** users is what stood there before, then one message for each group; the queue holds what waits. */
  ghost predicate Balanced(k: Book, before: seq<Message>, users: seq<Message>, queue: Option<seq<bv8>>, cz: Compressor) {
    && |users| == |before| + |k.groups| && before <= users
    && (forall i | 0 <= i < |k.groups| ::
          Utterance(k.groups[i]) && Says(users[|before| + i], Together(k.groups[i]), cz))
    && Notices(k.waiting) && queue == if k.waiting == [] then None else Some(Together(k.waiting))
  }

  /** The words are in the user messages, in order, and the last of them in the queue. */
  ghost predicate Kept(before: seq<Message>, users: seq<Message>, queue: Option<seq<bv8>>, words: seq<Word>, cz: Compressor) {
    exists k: Book :: Balanced(k, before, users, queue, cz) && Flat(k.groups) + k.waiting == words
  }

  function Prompt(context: Option<seq<bv8>>, text: seq<bv8>): seq<Word> {
    (if context.Some? then [Typed(context.value)] else []) + [Typed(text)]
  }

  /** What the host does as the action ends a turn, if it ends one. */
  ghost function EndOf(p: Policy, a: Agent, act: Action): Option<Callback>
    requires Can(p, a, act)
  {
    match act
    case ReplyText(_, end) => Some(end)
    case ReplyFailed(_, end) => Some(end)
    case CompactDone(end) => Some(end)
    case ToolEvent(e, _, _, _, goOn, end) =>
      if Next(p, a.batch.value.state, e).ends > 0 && !goOn then Some(end) else None
    case _ => None
  }

  /** What an action says, if the agent is free to take it; a prompt from the end of a turn included. */
  ghost function Said(p: Policy, a: Agent, act: Action): seq<Word>
    requires Can(p, a, act)
  {
    match act
    case DoSubmit(context, text) => if a.mode != Idle then [] else Prompt(context, text)
    case DoNotify(text) => [Notice(text)]
    case _ =>
      var end := EndOf(p, a, act);
      if end.Some? && end.value.Asks? then Prompt(end.value.context, end.value.text) else []
  }

  /** A turn ends with something queued, and the host makes the agent busy before it can be posted. */
  ghost predicate Drops(p: Policy, a: Agent, act: Action)
    requires Can(p, a, act)
  {
    a.queued.Some? && EndOf(p, a, act).Some? && !EndOf(p, a, act).value.Rests?
  }

  /** The messages the assistant's replies come to. */
  function Replied(act: Action): seq<Message> {
    match act
    case ReplyText(reply, _) => [Message(Assistant, reply, [], "", None, [])]
    case ReplyCalls(calls, _) => [Message(Assistant, Null, calls, "", None, [])]
    case ReplyFailed(partial, _) => if partial.Some? then [Message(Assistant, partial.value, [], "", None, [])] else []
    case _ => []
  }

  predicate Plain(act: Action) { !act.Fold? && !act.Clear? && !act.Restore? }

  // ----------------------------------------------------------- keeping books

  lemma {:induction false} AddGroup(k: Book, before: seq<Message>, users: seq<Message>, cz: Compressor, ws: seq<Word>, m: Message)
    requires Balanced(k, before, users, None, cz) && Utterance(ws) && Says(m, Together(ws), cz)
    ensures Balanced(Book(k.groups + [ws], []), before, users + [m], None, cz)
    ensures Flat(k.groups + [ws]) + [] == Flat(k.groups) + k.waiting + ws
  {
    assert (k.groups + [ws])[..|k.groups|] == k.groups;
    assert Flat(k.groups) + k.waiting == Flat(k.groups);
  }

  lemma {:induction false} Post(k: Book, before: seq<Message>, users: seq<Message>, queue: Option<seq<bv8>>, cz: Compressor, m: Message)
    requires Balanced(k, before, users, queue, cz) && queue.Some? && Says(m, queue.value, cz)
    ensures Balanced(Book(k.groups + [k.waiting], []), before, users + [m], None, cz)
    ensures Flat(k.groups + [k.waiting]) + [] == Flat(k.groups) + k.waiting
  {
    assert (k.groups + [k.waiting])[..|k.groups|] == k.groups;
  }

  lemma {:induction false} TogetherSnoc(ws: seq<Word>, w: Word)
    ensures Together(ws + [w]) == if ws == [] then w.text else Together(ws) + Ascii("\n\n") + w.text
  {
    assert (ws + [w])[..|ws|] == ws;
  }

  lemma {:induction false} Assoc<T>(a: seq<T>, b: seq<T>, c: seq<T>)
    ensures a + b + c == a + (b + c)
  {
  }

  lemma {:induction false} Queue(k: Book, before: seq<Message>, users: seq<Message>, queue: Option<seq<bv8>>, cz: Compressor, text: seq<bv8>)
    requires Balanced(k, before, users, queue, cz)
    ensures Balanced(Book(k.groups, k.waiting + [Notice(text)]), before, users, Some(Joined(queue, text)), cz)
    ensures Flat(k.groups) + (k.waiting + [Notice(text)]) == Flat(k.groups) + k.waiting + [Notice(text)]
  {
    TogetherSnoc(k.waiting, Notice(text));
    Assoc(Flat(k.groups), k.waiting, [Notice(text)]);
  }

  // The same over Kept.

  lemma {:induction false} KeptAdds(before: seq<Message>, users: seq<Message>, words: seq<Word>, cz: Compressor, w: Word, m: Message)
    requires Kept(before, users, None, words, cz) && Says(m, w.text, cz)
    ensures Kept(before, users + [m], None, words + [w], cz)
  {
    var k: Book :| Balanced(k, before, users, None, cz) && Flat(k.groups) + k.waiting == words;
    AddGroup(k, before, users, cz, [w], m);
    assert Balanced(Book(k.groups + [[w]], []), before, users + [m], None, cz);
  }

  lemma {:induction false} KeptPosts(before: seq<Message>, users: seq<Message>, queue: Option<seq<bv8>>, words: seq<Word>,
                                     cz: Compressor, m: Message)
    requires Kept(before, users, queue, words, cz) && queue.Some? && Says(m, queue.value, cz)
    ensures Kept(before, users + [m], None, words, cz)
  {
    var k: Book :| Balanced(k, before, users, queue, cz) && Flat(k.groups) + k.waiting == words;
    Post(k, before, users, queue, cz, m);
    assert Balanced(Book(k.groups + [k.waiting], []), before, users + [m], None, cz);
  }

  lemma {:induction false} KeptQueues(before: seq<Message>, users: seq<Message>, queue: Option<seq<bv8>>, words: seq<Word>,
                                      cz: Compressor, text: seq<bv8>)
    requires Kept(before, users, queue, words, cz)
    ensures Kept(before, users, Some(Joined(queue, text)), words + [Notice(text)], cz)
  {
    var k: Book :| Balanced(k, before, users, queue, cz) && Flat(k.groups) + k.waiting == words;
    Queue(k, before, users, queue, cz, text);
    assert Balanced(Book(k.groups, k.waiting + [Notice(text)]), before, users, Some(Joined(queue, text)), cz);
  }

  // ------------------------------------------------------------------- steps

  /** Everything said is kept, and an agent with nothing to do has nothing waiting. */
  ghost predicate Good(a: Agent, before: seq<Message>, words: seq<Word>, cz: Compressor) {
    && Kept(before, OfRole(a.history, Role.User), a.queued, words, cz)
    && (a.mode == Idle ==> a.queued.None?)
  }

  lemma {:induction false} SubmitOne(a: Agent, before: seq<Message>, words: seq<Word>, cz: Compressor, w: Word)
    requires Kept(before, OfRole(a.history, Role.User), None, words, cz) && a.queued.None?
    ensures Good(a.(history := a.history + [UserText(w.text, cz)], mode := Thinking), before, words + [w], cz)
  {
    OfRoleSnoc(a.history, UserText(w.text, cz), Role.User);
    KeptAdds(before, OfRole(a.history, Role.User), words, cz, w, UserText(w.text, cz));
  }

  lemma {:induction false} SubmitGood(a: Agent, before: seq<Message>, words: seq<Word>, cz: Compressor,
                                      context: Option<seq<bv8>>, text: seq<bv8>)
    requires Good(a, before, words, cz)
    ensures Good(Submit(a, context, text, cz), before, words + if a.mode != Idle then [] else Prompt(context, text), cz)
    ensures a.mode == Idle ==> Submit(a, context, text, cz).queued.None?
  {
    if a.mode != Idle {
      assert words + [] == words;
    } else if context.None? {
      SubmitOne(a, before, words, cz, Typed(text));
      assert [] + [Typed(text)] == [Typed(text)];
      assert a.history + [] + [UserText(text, cz)] == a.history + [UserText(text, cz)];
    } else {
      var b := a.(history := a.history + [UserText(context.value, cz)], mode := Thinking);
      SubmitOne(a, before, words, cz, Typed(context.value));
      SubmitOne(b, before, words + [Typed(context.value)], cz, Typed(text));
      Assoc(words, [Typed(context.value)], [Typed(text)]);
    }
  }

  lemma {:induction false} NotifyGood(a: Agent, before: seq<Message>, words: seq<Word>, cz: Compressor, text: seq<bv8>)
    requires Good(a, before, words, cz)
    ensures Good(Notify(a, text, cz), before, words + [Notice(text)], cz)
  {
    if a.mode != Idle {
      KeptQueues(before, OfRole(a.history, Role.User), a.queued, words, cz, text);
    } else {
      SubmitOne(a, before, words, cz, Notice(text));
      assert a.history + [] + [UserText(text, cz)] == a.history + [UserText(text, cz)];
    }
  }

  lemma {:induction false} PostGood(a: Agent, mode: Mode, before: seq<Message>, words: seq<Word>, cz: Compressor)
    requires Kept(before, OfRole(a.history, Role.User), a.queued, words, cz) && a.queued.Some?
    ensures Good(a.(history := a.history + [UserText(a.queued.value, cz)], mode := mode, queued := None), before, words, cz)
  {
    OfRoleSnoc(a.history, UserText(a.queued.value, cz), Role.User);
    KeptPosts(before, OfRole(a.history, Role.User), a.queued, words, cz, UserText(a.queued.value, cz));
  }

  /** A flush posts the queue; the end of a turn does, as the first message of the next. Neither leaves one. */
  lemma {:induction false} FlushGood(a: Agent, before: seq<Message>, words: seq<Word>, cz: Compressor)
    requires Good(a, before, words, cz)
    ensures Good(Flush(a, cz), before, words, cz) && Flush(a, cz).queued.None?
  {
    if a.queued.Some? { PostGood(a, a.mode, before, words, cz); }
  }

  /** What the host says at the end of a turn. */
  function Asked(end: Callback): seq<Word> { if end.Asks? then Prompt(end.context, end.text) else [] }

  lemma {:induction false} TurnDoneGood(a: Agent, end: Callback, before: seq<Message>, words: seq<Word>, cz: Compressor)
    requires Kept(before, OfRole(a.history, Role.User), a.queued, words, cz)
    requires a.queued.Some? ==> end.Rests?
    ensures Good(TurnDone(a, end, cz), before, words + Asked(end), cz) && TurnDone(a, end, cz).queued.None?
  {
    assert words + [] == words;
    if a.queued.Some? {
      PostGood(a, Thinking, before, words, cz);
      assert a.history + [] + [UserText(a.queued.value, cz)] == a.history + [UserText(a.queued.value, cz)];
    } else if end.Asks? {
      SubmitGood(a.(mode := Idle, queued := None), before, words, cz, end.context, end.text);
    }
  }

  /** A message of another role changes nothing here. */
  lemma {:induction false} OtherRole(a: Agent, m: Message, before: seq<Message>, words: seq<Word>, cz: Compressor)
    requires Good(a, before, words, cz) && m.role != Role.User
    ensures Kept(before, OfRole(a.history + [m], Role.User), a.queued, words, cz)
  {
    OfRoleSnoc(a.history, m, Role.User);
  }

  lemma {:induction false} ResultKeeps(h: seq<Message>, name: string, stub: Option<seq<bv8>>, m: Message, role: Role)
    requires m.role == Tool != role
    ensures OfRole((if stub.Some? then S.Superseded(h, name, stub.value) else h) + [m], role) == OfRole(h, role)
  {
    if stub.Some? { SupersededKeeps(h, name, stub.value, role); }
    OfRoleSnoc(if stub.Some? then S.Superseded(h, name, stub.value) else h, m, role);
  }

  lemma {:induction false} WrittenKeeps(a: Agent, act: Action, t: State, role: Role)
    requires act.ToolEvent? && a.batch.Some? && role != Tool
    ensures OfRole(WrittenAs(a, act, t), role) == OfRole(a.history, role)
  {
    var s := a.batch.value.state;
    if |t.order| > |s.order| && t.order[|s.order|] < |s.calls| {
      var c := s.calls[t.order[|s.order|]];
      ResultKeeps(a.history, c.name, act.stub, Message(Tool, act.content, [], c.id, Some(c.name), act.attachments), role);
    }
  }

  lemma {:induction false} ToolGood(p: Policy, a: Agent, act: Action, before: seq<Message>, words: seq<Word>, cz: Compressor)
    requires act.ToolEvent? && Can(p, a, act) && a.mode == Tooling && Good(a, before, words, cz) && !Drops(p, a, act)
    ensures Good(AfterTool(p, a, act, cz), before, words + Said(p, a, act), cz)
  {
    var t := Next(p, a.batch.value.state, act.e);
    WrittenKeeps(a, act, t, Role.User);
    assert words + [] == words;
    if t.ends > 0 && !act.goOn {
      TurnDoneGood(a.(history := Written(p, a, act), batch := None), act.end, before, words, cz);
    }
  }

  lemma {:induction false} ReplyGood(p: Policy, a: Agent, act: Action, before: seq<Message>, words: seq<Word>, cz: Compressor)
    requires Sound(p, a) && Can(p, a, act) && Good(a, before, words, cz) && !Drops(p, a, act)
    requires act.ReplyText? || act.ReplyFailed? || act.CompactDone?
    ensures Good(Does(p, a, act, cz), before, words + Asked(act.end), cz)
  {
    if Replied(act) == [] {
      TurnDoneGood(a, act.end, before, words, cz);
    } else {
      var m := Replied(act)[0];
      OtherRole(a, m, before, words, cz);
      TurnDoneGood(a.(history := a.history + [m]), act.end, before, words, cz);
    }
  }

  lemma {:induction false} CallsGood(p: Policy, a: Agent, act: Action, before: seq<Message>, words: seq<Word>, cz: Compressor)
    requires act.ReplyCalls? && Can(p, a, act) && Good(a, before, words, cz)
    ensures Good(Does(p, a, act, cz), before, words, cz)
  {
    OtherRole(a, Replied(act)[0], before, words, cz);
  }

  lemma {:induction false} StepGood(p: Policy, a: Agent, act: Action, before: seq<Message>, words: seq<Word>, cz: Compressor)
    requires Sound(p, a) && Can(p, a, act) && Plain(act) && Good(a, before, words, cz) && !Drops(p, a, act)
    ensures Good(Does(p, a, act, cz), before, words + Said(p, a, act), cz)
  {
    assert words + [] == words;
    if act.DoSubmit? {
      SubmitGood(a, before, words, cz, act.context, act.text);
    } else if act.DoNotify? {
      NotifyGood(a, before, words, cz, act.text);
    } else if act.DoFlush? {
      FlushGood(a, before, words, cz);
    } else if act.ToolEvent? {
      ToolGood(p, a, act, before, words, cz);
    } else if act.ReplyCalls? {
      CallsGood(p, a, act, before, words, cz);
    } else if !act.DoCompact? {
      ReplyGood(p, a, act, before, words, cz);
    }
  }

  // ------------------------------------------------------------- whole runs

  ghost predicate AllPlain(acts: seq<Action>) { forall i | 0 <= i < |acts| :: Plain(acts[i]) }

  /** Everything said along a run: submits the busy agent refused are not in it. */
  ghost function SaidIn(p: Policy, a: Agent, acts: seq<Action>, cz: Compressor): seq<Word>
    requires Plays(p, a, acts, cz)
    decreases |acts|
  {
    if acts == [] then [] else Said(p, a, acts[0]) + SaidIn(p, Does(p, a, acts[0], cz), acts[1..], cz)
  }

  /** No turn of the run ends with something queued while the host makes the agent busy. */
  ghost predicate NeverDrops(p: Policy, a: Agent, acts: seq<Action>, cz: Compressor)
    requires Plays(p, a, acts, cz)
    decreases |acts|
  {
    acts == [] || (!Drops(p, a, acts[0]) && NeverDrops(p, Does(p, a, acts[0], cz), acts[1..], cz))
  }

  lemma {:induction false} RunGood(p: Policy, a: Agent, acts: seq<Action>, before: seq<Message>, words: seq<Word>, cz: Compressor)
    requires Sound(p, a) && Plays(p, a, acts, cz) && AllPlain(acts) && NeverDrops(p, a, acts, cz) && Good(a, before, words, cz)
    ensures Good(Played(p, a, acts, cz), before, words + SaidIn(p, a, acts, cz), cz)
    decreases |acts|
  {
    if acts == [] {
      assert words + [] == words;
    } else {
      StepGood(p, a, acts[0], before, words, cz);
      DoesSound(p, a, acts[0], cz);
      assert AllPlain(acts[1..]);
      var next := Does(p, a, acts[0], cz);
      RunGood(p, next, acts[1..], before, words + Said(p, a, acts[0]), cz);
      Assoc(words, Said(p, a, acts[0]), SaidIn(p, next, acts[1..], cz));
    }
  }

  /**
    From any moment at which the agent has nothing to do: the user messages that are
    added, followed by the queue, are what was submitted and notified since, each
    once and in order. A typed text is a message of its own; notices that waited
    together come with a blank line between them. So it is unless a turn ends with
    something queued and the host, told of the end, makes the agent busy first.
   */
  lemma {:induction false} NothingSaidIsLost(p: Policy, a: Agent, acts: seq<Action>, cz: Compressor)
    requires Sound(p, a) && a.mode == Idle && a.queued.None? && Plays(p, a, acts, cz) && AllPlain(acts)
    requires NeverDrops(p, a, acts, cz)
    ensures var b := Played(p, a, acts, cz);
            && Kept(OfRole(a.history, Role.User), OfRole(b.history, Role.User), b.queued, SaidIn(p, a, acts, cz), cz)
            && (b.mode == Idle ==> b.queued.None?)
  {
    var users := OfRole(a.history, Role.User);
    assert Balanced(Book([], []), users, users, None, cz);
    assert Flat([]) + [] == [];
    RunGood(p, a, acts, users, [], cz);
    assert [] + SaidIn(p, a, acts, cz) == SaidIn(p, a, acts, cz);
  }

  /** A flush puts the whole queue into the history, and nothing waits then. */
  lemma {:induction false} FlushPosts(p: Policy, a: Agent, cz: Compressor, notice: seq<bv8>)
    requires Can(p, a, DoFlush) && a.queued == Some(notice)
    ensures var b := Does(p, a, DoFlush, cz);
            && b.queued.None? && b.mode == a.mode && |b.history| == |a.history| + 1
            && b.history[..|a.history|] == a.history && Says(b.history[|a.history|], notice, cz)
  {
  }

  /** The last message the end of a turn adds holds the notice. */
  ghost predicate PostedLast(h: seq<Message>, reply: seq<Message>, g: seq<Message>, notice: seq<bv8>, cz: Compressor) {
    |g| == |h + reply| + 1 && g[..|h + reply|] == h + reply && Says(g[|h + reply|], notice, cz)
  }

  lemma {:induction false} TurnPosts(a: Agent, end: Callback, cz: Compressor, notice: seq<bv8>)
    requires a.queued == Some(notice)
    ensures TurnDone(a, end, cz).queued.None?
    ensures end.Rests? ==>
              TurnDone(a, end, cz).mode == Thinking && PostedLast(a.history, [], TurnDone(a, end, cz).history, notice, cz)
    ensures end.Compacts? ==> TurnDone(a, end, cz).mode == Thinking && TurnDone(a, end, cz).history == a.history
    ensures end.Asks? ==>
              TurnDone(a, end, cz).mode == Thinking
              && TurnDone(a, end, cz).history == Submit(a.(mode := Idle), end.context, end.text, cz).history
  {
    assert a.history + [] == a.history;
  }

  /**
    The end of a turn leaves no queue. What waited there is the next message, exactly
    when the host did nothing in between; after a compaction or another prompt it is
    nowhere, unless that prompt happens to say the same.
   */
  lemma {:induction false} QueuePostedIffHostRests(p: Policy, a: Agent, act: Action, cz: Compressor, notice: seq<bv8>)
    requires Can(p, a, act) && a.queued == Some(notice) && (act.ReplyText? || act.ReplyFailed? || act.CompactDone?)
    ensures Does(p, a, act, cz).queued.None?
    ensures PostedLast(a.history, Replied(act), Does(p, a, act, cz).history, notice, cz) <==>
            act.end.Rests?
            || (act.end.Asks? && act.end.context.None? && Stored(Some(act.end.text), cz) == Stored(Some(notice), cz))
  {
    assert a.history + [] == a.history;
    var b := a.(history := a.history + Replied(act));
    TurnPosts(b, act.end, cz, notice);
    assert b.history + [] == b.history;
    assert Does(p, a, act, cz) == TurnDone(b, act.end, cz);
    if act.end.Asks? { AskedLast(b.(mode := Idle), act.end.context, act.end.text, cz); }
  }

  lemma {:induction false} AskedLast(a: Agent, context: Option<seq<bv8>>, text: seq<bv8>, cz: Compressor)
    requires a.mode == Idle
    ensures var h := Submit(a, context, text, cz).history;
            && |h| == |a.history| + (if context.Some? then 2 else 1) && a.history <= h
            && Says(h[|h| - 1], text, cz)
  {
  }

  /** The case of a host that compacts at the end of a turn: a notice that came in during the turn is gone. */
  lemma {:induction false} NoticeLost(p: Policy, system: Content, prompt: seq<bv8>, notice: seq<bv8>, reply: Content, cz: Compressor)
    ensures
      var a := NewAgent(system);
      var acts := [DoSubmit(None, prompt), DoNotify(notice), ReplyText(reply, Compacts)];
      && Plays(p, a, acts, cz)
      && var b := Played(p, a, acts, cz);
         && b.queued.None? && b.mode == Thinking
         && b.history == a.history + [UserText(prompt, cz), Message(Assistant, reply, [], "", None, [])]
  {
    var a := NewAgent(system);
    var b := Does(p, a, DoSubmit(None, prompt), cz);
    var c := Does(p, b, DoNotify(notice), cz);
    var d := Does(p, c, ReplyText(reply, Compacts), cz);
    assert a.history + [] == a.history;
    assert d.history == a.history + [UserText(prompt, cz), Message(Assistant, reply, [], "", None, [])];
    ThreeActions(p, a, b, c, d, DoSubmit(None, prompt), DoNotify(notice), ReplyText(reply, Compacts), cz);
  }

  lemma {:induction false} ThreeActions(p: Policy, a: Agent, b: Agent, c: Agent, d: Agent,
                                        x: Action, y: Action, z: Action, cz: Compressor)
    requires Can(p, a, x) && Does(p, a, x, cz) == b
    requires Can(p, b, y) && Does(p, b, y, cz) == c
    requires Can(p, c, z) && Does(p, c, z, cz) == d
    ensures Plays(p, a, [x, y, z], cz) && Played(p, a, [x, y, z], cz) == d
  {
    assert [z][1..] == [] && Plays(p, d, [], cz) && Played(p, d, [], cz) == d;
    assert [y, z][1..] == [z] && Plays(p, c, [z], cz) && Played(p, c, [z], cz) == d;
    assert [x, y, z][1..] == [y, z] && Plays(p, b, [y, z], cz) && Played(p, b, [y, z], cz) == d;
  }

  /** A submit while the agent is busy is refused. */
  lemma {:induction false} BusyRefuses(p: Policy, a: Agent, context: Option<seq<bv8>>, text: seq<bv8>, cz: Compressor)
    ensures a.mode != Idle ==> Does(p, a, DoSubmit(context, text), cz) == a
    ensures a.mode == Idle && context.None? ==>
              var b := Does(p, a, DoSubmit(None, text), cz);
              b.mode == Thinking && b.history != [] && b.history[..|b.history| - 1] == a.history
              && Says(b.history[|a.history|], text, cz)
  {
  }

  // --------------------------------------------------------- replies, results

  ghost function RepliesIn(acts: seq<Action>): seq<Message> {
    if acts == [] then [] else Replied(acts[0]) + RepliesIn(acts[1..])
  }

  lemma {:induction false} SubmitReplies(a: Agent, context: Option<seq<bv8>>, text: seq<bv8>, cz: Compressor)
    ensures OfRole(Submit(a, context, text, cz).history, Assistant) == OfRole(a.history, Assistant)
  {
    var lead := if context.Some? then [UserText(context.value, cz)] else [];
    if context.Some? { OfRoleSnoc(a.history, UserText(context.value, cz), Assistant); }
    assert a.history + [] == a.history;
    OfRoleSnoc(a.history + lead, UserText(text, cz), Assistant);
  }

  lemma {:induction false} TurnDoneReplies(a: Agent, end: Callback, cz: Compressor)
    ensures OfRole(TurnDone(a, end, cz).history, Assistant) == OfRole(a.history, Assistant)
  {
    var b := a.(mode := Idle, queued := None);
    if end.Asks? { SubmitReplies(b, end.context, end.text, cz); }
    if a.queued.Some? { SubmitReplies(Landed(b, end, cz), None, a.queued.value, cz); }
  }

  lemma {:induction false} StepReplies(p: Policy, a: Agent, act: Action, cz: Compressor)
    requires Can(p, a, act) && Plain(act)
    ensures OfRole(Does(p, a, act, cz).history, Assistant) == OfRole(a.history, Assistant) + Replied(act)
  {
    assert OfRole(a.history, Assistant) + [] == OfRole(a.history, Assistant);
    if act.DoSubmit? {
      SubmitReplies(a, act.context, act.text, cz);
    } else if act.DoNotify? {
      SubmitReplies(a, None, act.text, cz);
    } else if act.DoFlush? {
      if a.queued.Some? { OfRoleSnoc(a.history, UserText(a.queued.value, cz), Assistant); }
    } else if act.ToolEvent? {
      WrittenKeeps(a, act, Next(p, a.batch.value.state, act.e), Assistant);
      TurnDoneReplies(a.(history := Written(p, a, act), batch := None), act.end, cz);
    } else if act.ReplyCalls? {
      OfRoleSnoc(a.history, Replied(act)[0], Assistant);
    } else if !act.DoCompact? {
      if Replied(act) != [] { OfRoleSnoc(a.history, Replied(act)[0], Assistant); }
      assert a.history + [] == a.history;
      TurnDoneReplies(a.(history := a.history + Replied(act)), act.end, cz);
    }
  }

  /** Over the same runs the assistant's messages are exactly its replies, in order, partial ones included. */
  lemma {:induction false} NoReplyIsLost(p: Policy, a: Agent, acts: seq<Action>, cz: Compressor)
    requires Plays(p, a, acts, cz) && AllPlain(acts)
    ensures OfRole(Played(p, a, acts, cz).history, Assistant) == OfRole(a.history, Assistant) + RepliesIn(acts)
    decreases |acts|
  {
    if acts == [] {
      assert OfRole(a.history, Assistant) + [] == OfRole(a.history, Assistant);
    } else {
      StepReplies(p, a, acts[0], cz);
      assert AllPlain(acts[1..]);
      NoReplyIsLost(p, Does(p, a, acts[0], cz), acts[1..], cz);
      Assoc(OfRole(a.history, Assistant), Replied(acts[0]), RepliesIn(acts[1..]));
    }
  }

  /** A tool event that finishes call i writes what the tool gave, under the call's id and name; the rest keeps its place. */
  lemma {:induction false} ResultIsWritten(p: Policy, a: Agent, act: Action, i: nat)
    requires act.ToolEvent? && Can(p, a, act) && i < |a.batch.value.state.calls|
    requires Next(p, a.batch.value.state, act.e).order == a.batch.value.state.order + [i]
    ensures
      var c := a.batch.value.state.calls[i];
      var h := Written(p, a, act);
      && |h| == |a.history| + 1
      && h[|a.history|] == Message(Tool, act.content, [], c.id, Some(c.name), act.attachments)
      && (act.stub.None? ==> h[..|a.history|] == a.history)
      && (act.stub.Some? ==> h[..|a.history|] == S.Superseded(a.history, c.name, act.stub.value))
  {
  }

  /** And it stays there: what else the event leads to is appended. */
  lemma {:induction false} WrittenStays(p: Policy, a: Agent, act: Action, cz: Compressor)
    requires act.ToolEvent? && Can(p, a, act)
    ensures Written(p, a, act) <= Does(p, a, act, cz).history
  {
    var b := a.(history := Written(p, a, act), batch := None, mode := Idle, queued := None);
    SubmitAppends(b, if act.end.Asks? then act.end.context else None, if act.end.Asks? then act.end.text else [], cz);
    if a.queued.Some? { SubmitAppends(Landed(b, act.end, cz), None, a.queued.value, cz); }
  }

  lemma {:induction false} SubmitAppends(a: Agent, context: Option<seq<bv8>>, text: seq<bv8>, cz: Compressor)
    ensures a.history <= Submit(a, context, text, cz).history
  {
  }
}
