/**
  What the agent does when a model request is refused: wait out a rate limit, drop
  a lost chain, repair the history, upload files again, stop offering tools, or
  give up. Every re-send uses up something, so a run of refusals is bounded.
 */
module Recovery {
  import opened Wrappers
  import opened Messages
  import opened History
  import Repair
  import C = Compaction

  const RETRY_MAX: nat := 8
  const RETRY_CAP_MS: nat := 60000
  const RETRY_FLOOR_MS: nat := 1000

  // ------------------------------------------------------------ retry waits

  function Pow2(n: nat): (p: nat)
    ensures p >= 1
  {
    if n == 0 then 1 else 2 * Pow2(n - 1)
  }

  /** clm_rl_retry_delay_ms, for a body that asks for asked ms. */
  function RetryDelay(asked: nat, attempt: int): nat {
    var n := if attempt < 0 then 0 else if attempt > 20 then 20 else attempt;
    var floor := RETRY_FLOOR_MS * Pow2(n);
    var delay := if asked < floor then floor else asked;
    if delay > RETRY_CAP_MS then RETRY_CAP_MS else delay
  }

  lemma {:induction false} Pow2Grows(m: nat, n: nat)
    requires m <= n
    ensures Pow2(m) <= Pow2(n)
    decreases n
  {
    if m < n { Pow2Grows(m, n - 1); }
  }

  /** A wait stays between one second and one minute, and for a fixed body never shrinks. */
  lemma {:induction false} RetryDelayBounds(asked: nat, a: int, b: int)
    requires a <= b
    ensures RETRY_FLOOR_MS <= RetryDelay(asked, a) <= RetryDelay(asked, b) <= RETRY_CAP_MS
    ensures RetryDelay(asked, a) < RETRY_CAP_MS ==> RetryDelay(asked, a) >= asked
  {
    var n := if a < 0 then 0 else if a > 20 then 20 else a;
    var m := if b < 0 then 0 else if b > 20 then 20 else b;
    Pow2Grows(n, m);
    assert RETRY_FLOOR_MS * Pow2(n) <= RETRY_FLOOR_MS * Pow2(m);
  }

  /** The first wait is what the body asked for, but at least a second and at most a minute. */
  lemma {:induction false} FirstWait(asked: nat)
    ensures RetryDelay(asked, 0) == if asked < 1000 then 1000 else if asked > 60000 then 60000 else asked
  {
  }

  /** Where the body asks for nothing, each wait is twice the one before, up to a minute. */
  lemma {:induction false} WaitDoubles(attempt: nat)
    ensures RetryDelay(0, attempt + 1) ==
            if 2 * RetryDelay(0, attempt) > 60000 then 60000 else 2 * RetryDelay(0, attempt)
  {
    if attempt >= 20 { Pow2Grows(6, 20); }
  }

  /** What the body asks for counts as soon as it is longer than that, up to a minute. */
  lemma {:induction false} AskedCounts(asked: nat, attempt: int)
    ensures RetryDelay(asked, attempt) ==
            if RetryDelay(0, attempt) >= asked then RetryDelay(0, attempt)
            else if asked > 60000 then 60000
            else asked
  {
  }

  // --------------------------------------------------------------- refusals

  /** A refused request as the agent reads it: the status and what the body mentions. */
  datatype Refused = Refused(status: int, lostChain: bool, noToolOutput: bool, lostFile: bool, noTools: bool)

  /** What one model step can still use up. retries counts the waits of the current turn. */
  datatype Step = Step(
    chain: bool, toolsOff: bool, filesLost: nat, nfiles: nat, uploads: bool, retries: nat, history: seq<Message>)

  datatype Reaction = Wait | DropChain | FixHistory | Reupload | DropTools | GiveUp

  /** Which branch of clm_http_success_cb_wrapper a refusal takes, in the order of the source. */
  ghost function React(s: Step, r: Refused, timers: bool): Reaction {
    if r.status == 429 && s.retries < RETRY_MAX && timers then Wait
    else if s.chain && (r.lostChain || r.noToolOutput) then DropChain
    else if r.noToolOutput && Repair.Fixed(s.history).Count() > 0 then FixHistory
    else if r.status == 404 && s.nfiles > 0 && r.lostFile then Reupload
    else if r.status == 400 && !s.toolsOff && r.noTools then DropTools
    else GiveUp
  }

  /** What is tried against which refusal, first come first served; with nothing left to try the turn fails. */
  lemma {:induction false} ReactionFits(s: Step, r: Refused, timers: bool)
    ensures
      var wait := r.status == 429 && s.retries < 8 && timers;
      var lost := s.chain && (r.lostChain || r.noToolOutput);
      var unanswered := r.noToolOutput && !Answered(s.history);
      var file := r.status == 404 && s.nfiles > 0 && r.lostFile;
      var tools := r.status == 400 && !s.toolsOff && r.noTools;
      && (React(s, r, timers) == Wait <==> wait)
      && (React(s, r, timers) == DropChain <==> !wait && lost)
      && (React(s, r, timers) == FixHistory <==> !wait && !lost && unanswered)
      && (React(s, r, timers) == Reupload <==> !wait && !lost && !unanswered && file)
      && (React(s, r, timers) == DropTools <==> !wait && !lost && !unanswered && !file && tools)
      && (React(s, r, timers) == GiveUp <==> !wait && !lost && !unanswered && !file && !tools)
  {
    Repair.FixedIdleIffAnswered(s.history);
  }

  /** And what the attempt then changes: one thing, and with it the waits start anew. */
  lemma {:induction false} ReactionChanges(s: Step, x: Reaction)
    ensures
      var t := Reacted(s, x);
      && (x != FixHistory ==> t.history == s.history) && (x != DropChain ==> t.chain == s.chain)
      && (x != DropTools ==> t.toolsOff == s.toolsOff)
      && (x != Reupload ==> t.nfiles == s.nfiles && t.filesLost == s.filesLost && t.uploads == s.uploads)
      && (x == DropChain ==> !t.chain) && (x == FixHistory ==> Answered(t.history)) && (x == DropTools ==> t.toolsOff)
      && (x == Reupload ==> t.nfiles == 0 && t.filesLost == s.filesLost + 1 && (t.uploads <==> s.uploads && s.filesLost == 0))
      && t.retries == if x == Wait then s.retries + 1 else if x == GiveUp then s.retries else 0
  {
    if x == FixHistory { Repair.FixedAnswered(s.history); }
  }

  /** The step after the reaction, before the request is built again. */
  ghost function Reacted(s: Step, x: Reaction): Step {
    match x
    case Wait => s.(retries := s.retries + 1)
    case DropChain => s.(chain := false, retries := 0)
    case FixHistory => s.(history := Repair.Fixed(s.history).msgs, retries := 0)
    case Reupload =>
      s.(nfiles := 0, filesLost := s.filesLost + 1, uploads := s.uploads && s.filesLost + 1 <= 1, retries := 0)
    case DropTools => s.(toolsOff := true, retries := 0)
    case GiveUp => s
  }

  /**
    Building the request again may flush a queued notice, upload files while that is
    on, find the file endpoint gone, or drop the chain; it never starts one.
   */
  ghost predicate Rebuilt(s: Step, t: Step) {
    && (t.chain ==> s.chain) && t.toolsOff == s.toolsOff && t.filesLost == s.filesLost && t.retries == s.retries
    && (t.uploads ==> s.uploads)
    && (!s.uploads ==> t.nfiles <= s.nfiles)
    && (t.history == s.history || exists m: Message :: m.role == User && t.history == s.history + [m])
  }

  /** A second lost file turned uploads off for good. */
  ghost predicate Ok(s: Step) { (s.filesLost >= 2 ==> !s.uploads) && s.retries <= RETRY_MAX }

  ghost function Unanswered(s: Step): nat { if Repair.Fixed(s.history).Count() > 0 then 1 else 0 }

  ghost function FileBudget(s: Step): nat
    requires Ok(s)
  {
    if s.uploads then 2 - s.filesLost else if s.nfiles > 0 then 1 else 0
  }

  /** The re-sends that something is still left for, each worth one turn's waits. */
  ghost function Budget(s: Step): nat
    requires Ok(s)
  {
    (if s.chain then 1 else 0) + (if s.toolsOff then 0 else 1) + Unanswered(s) + FileBudget(s)
  }

  /** Re-sends of any kind that are still possible. */
  ghost function Left(s: Step): nat
    requires Ok(s)
  {
    (RETRY_MAX + 1) * Budget(s) + (RETRY_MAX - s.retries)
  }

  /** A repaired history needs no second repair, and a notice behind it changes nothing. */
  lemma {:induction false} NoticeKeepsAnswered(h: seq<Message>, m: Message)
    requires Repair.Fixed(h).Count() == 0 && m.role == User
    ensures Repair.Fixed(h + [m]).Count() == 0
  {
    Repair.FixedIdleIffAnswered(h);
    C.PairedUser(m);
    C.AnsweredConcat(h, [m]);
    Repair.FixedIdleIffAnswered(h + [m]);
  }

  lemma {:induction false} RebuiltKeeps(s: Step, t: Step)
    requires Ok(s) && Rebuilt(s, t)
    ensures Ok(t) && Left(t) <= Left(s) && Unanswered(t) <= Unanswered(s)
  {
    if t.history != s.history && Unanswered(s) == 0 {
      var m: Message :| m.role == User && t.history == s.history + [m];
      NoticeKeepsAnswered(s.history, m);
    }
  }

  /** Every reaction but giving up uses something up: the lexicographic measure, as one number. */
  lemma {:induction false} ReactionUsesUp(s: Step, r: Refused, timers: bool)
    requires Ok(s) && React(s, r, timers) != GiveUp
    ensures var t := Reacted(s, React(s, r, timers)); Ok(t) && Left(t) < Left(s)
  {
    ReactionUseful(s, r, timers);
    UsefulUsesUp(s, React(s, r, timers));
  }

  /** What a reaction uses up is there. */
  ghost predicate Useful(s: Step, x: Reaction) {
    match x
    case Wait => s.retries < RETRY_MAX
    case DropChain => s.chain
    case FixHistory => Unanswered(s) == 1
    case Reupload => s.nfiles > 0
    case DropTools => !s.toolsOff
    case GiveUp => false
  }

  lemma {:induction false} ReactionUseful(s: Step, r: Refused, timers: bool)
    requires React(s, r, timers) != GiveUp
    ensures Useful(s, React(s, r, timers))
  {
  }

  lemma {:induction false} UsefulUsesUp(s: Step, x: Reaction)
    requires Ok(s) && Useful(s, x)
    ensures Ok(Reacted(s, x)) && Left(Reacted(s, x)) < Left(s)
  {
    if x == FixHistory { Repair.RepairIdempotent(s.history); }
    BudgetDrops(s, x);
  }

  lemma {:induction false} BudgetDrops(s: Step, x: Reaction)
    requires Ok(s) && Useful(s, x) && (x == FixHistory ==> Unanswered(Reacted(s, x)) == 0)
    ensures Ok(Reacted(s, x))
    ensures if x == Wait then Budget(Reacted(s, x)) == Budget(s) else Budget(Reacted(s, x)) < Budget(s)
  {
  }

  /** A run of refusals, each answered by a re-send. */
  ghost predicate Resends(s: Step, run: seq<(Refused, bool, Step)>)
    decreases |run|
  {
    run == [] ||
    (var (r, timers, t) := run[0];
     React(s, r, timers) != GiveUp && Rebuilt(Reacted(s, React(s, r, timers)), t) && Resends(t, run[1..]))
  }

  /** However the server refuses, one model step is sent again at most 53 times in a row. */
  lemma {:induction false} ResendsBounded(s: Step, run: seq<(Refused, bool, Step)>)
    requires Ok(s) && Resends(s, run)
    ensures |run| <= Left(s) <= 53
    decreases |run|
  {
    if run != [] {
      ResendUsesUp(s, run[0].0, run[0].1, run[0].2);
      ResendsBounded(run[0].2, run[1..]);
    }
  }

  lemma {:induction false} ResendUsesUp(s: Step, r: Refused, timers: bool, t: Step)
    requires Ok(s) && React(s, r, timers) != GiveUp && Rebuilt(Reacted(s, React(s, r, timers)), t)
    ensures Ok(t) && Left(t) < Left(s) <= 53
  {
    ReactionUsesUp(s, r, timers);
    RebuiltKeeps(Reacted(s, React(s, r, timers)), t);
  }

  /** The agent's own fields, as a refusal finds and leaves them. */
  class Requester {
    const log: Log
    var chain: bool
    var toolsUnsupported: bool
    var filesLost: nat
    var nfiles: nat
    var fileUploads: bool
    var retries: nat

    constructor (log: Log, chain: bool, nfiles: nat, fileUploads: bool)
      ensures this.log == log && Ok(Now())
      ensures Now() == Step(chain, false, 0, nfiles, fileUploads, 0, log.msgs)
    {
      this.log := log;
      this.chain, this.nfiles, this.fileUploads := chain, nfiles, fileUploads;
      toolsUnsupported, filesLost, retries := false, 0, 0;
    }

    ghost function Now(): Step
      reads this, log
    {
      Step(chain, toolsUnsupported, filesLost, nfiles, fileUploads, retries, log.msgs)
    }

    /** rl_retry: wait and send the same request again, if it may. */
    method RlRetry(timers: bool, asked: nat) returns (wait: Option<nat>)
      modifies this`retries
      ensures wait.Some? <==> old(retries) < RETRY_MAX && timers
      ensures wait.Some? ==> wait.value == RetryDelay(asked, old(retries)) && retries == old(retries) + 1
      ensures wait.None? ==> retries == old(retries)
    {
      if retries >= RETRY_MAX || !timers {
        return None;
      }
      wait := Some(RetryDelay(asked, retries));
      retries := retries + 1;
    }

    /** The non-200 branches of clm_http_success_cb_wrapper. resend is false when the turn fails. */
    method OnRefused(r: Refused, timers: bool, asked: nat) returns (resend: bool)
      requires Ok(Now())
      modifies this, log
      ensures var x := React(old(Now()), r, timers);
              Now() == Reacted(old(Now()), x) && (resend <==> x != GiveUp)
      ensures Ok(Now()) && (resend ==> Left(Now()) < Left(old(Now())))
    {
      ghost var s := Now();
      if React(s, r, timers) != GiveUp { ReactionUsesUp(s, r, timers); }
      if r.status == 429 {
        var wait := RlRetry(timers, asked);
        if wait.Some? {
          return true;
        }
      }
      if chain && (r.lostChain || r.noToolOutput) {
        chain, retries := false, 0;
        return true;
      }
      if r.noToolOutput {
        var n := log.RepairDangling();
        Repair.FixedIdleIffAnswered(s.history);
        if n > 0 {
          retries := 0;
          return true;
        }
      }
      if r.status == 404 && nfiles > 0 && r.lostFile {
        nfiles := 0;
        filesLost := filesLost + 1;
        if filesLost > 1 {
          fileUploads := false;
        }
        retries := 0;
        return true;
      }
      if r.status == 400 && !toolsUnsupported && r.noTools {
        toolsUnsupported, retries := true, 0;
        return true;
      }
      return false;
    }
  }
}
