/**
  What clm_history_compact keeps, by counting: exactly the newest user turns asked for,
  else exactly the newest tool exchanges, else everything.
 */
module KeptTurns {
  import opened Wrappers
  import opened Utf8
  import opened Messages
  import opened Compaction

  function UserPlaces(h: seq<Message>, i: nat): set<int> { set j | i <= j < |h| && h[j].role == User }

  function HeadPlaces(h: seq<Message>, i: nat): set<int> { set j | i <= j < |h| && IsHead(h[j]) }

  /** How many user messages stand at i or behind it. */
  function Users(h: seq<Message>, i: nat): nat { |UserPlaces(h, i)| }

  /** How many exchange heads stand at i or behind it. */
  function Heads(h: seq<Message>, i: nat): nat { |HeadPlaces(h, i)| }

  lemma {:induction false} UsersStep(h: seq<Message>, i: nat)
    requires i < |h|
    ensures Users(h, i) == Users(h, i + 1) + if h[i].role == User then 1 else 0
  {
    assert UserPlaces(h, i) == if h[i].role == User then UserPlaces(h, i + 1) + {i} else UserPlaces(h, i + 1);
  }

  lemma {:induction false} HeadsStep(h: seq<Message>, i: nat)
    requires i < |h|
    ensures Heads(h, i) == Heads(h, i + 1) + if IsHead(h[i]) then 1 else 0
  {
    assert HeadPlaces(h, i) == if IsHead(h[i]) then HeadPlaces(h, i + 1) + {i} else HeadPlaces(h, i + 1);
  }

  lemma {:induction false} NoneBehind(h: seq<Message>, i: nat)
    requires i >= |h|
    ensures Users(h, i) == 0 && Heads(h, i) == 0
  {
    assert UserPlaces(h, i) == {} && HeadPlaces(h, i) == {};
  }

  lemma {:induction false} Counted(h: seq<Message>, i: nat)
    requires i <= |h|
    ensures CountUsers(h[i..]) == Users(h, i) && CountHeads(h[i..]) == Heads(h, i)
    decreases |h| - i
  {
    if i == |h| {
      NoneBehind(h, i);
    } else {
      Counted(h, i + 1);
      UsersStep(h, i);
      HeadsStep(h, i);
      assert h[i..][1..] == h[i + 1..];
    }
  }

  lemma {:induction false} NthUser(h: seq<Message>, i: nat, k: nat) returns (c: nat)
    requires i <= |h| && 0 < k <= Users(h, i)
    ensures i <= c < |h| && h[c].role == User && Users(h, c) == k
    decreases |h| - i
  {
    NoneBehind(h, |h|);
    UsersStep(h, i);
    if h[i].role == User && Users(h, i) == k { c := i; } else { c := NthUser(h, i + 1, k); }
  }

  lemma {:induction false} NthHead(h: seq<Message>, i: nat, k: nat) returns (c: nat)
    requires i <= |h| && 0 < k <= Heads(h, i)
    ensures i <= c < |h| && IsHead(h[c]) && Heads(h, c) == k
    decreases |h| - i
  {
    NoneBehind(h, |h|);
    HeadsStep(h, i);
    if IsHead(h[i]) && Heads(h, i) == k { c := i; } else { c := NthHead(h, i + 1, k); }
  }

  lemma {:induction false} FewerBehind(h: seq<Message>, i: nat, c: nat)
    requires i <= c <= |h|
    ensures Users(h, c) <= Users(h, i) && Heads(h, c) <= Heads(h, i)
    decreases c - i
  {
    if i < c {
      UsersStep(h, i);
      HeadsStep(h, i);
      FewerBehind(h, i + 1, c);
    }
  }

  lemma {:induction false} TurnCutIff(h: seq<Message>, k: nat)
    requires k > 0
    ensures (exists c: nat :: TurnCut(h, k, c)) <==> k <= Users(h, Prologue(h) + 1)
  {
    var p := Prologue(h);
    if c: nat :| TurnCut(h, k, c) {
      Counted(h, c);
      FewerBehind(h, p + 1, c);
    }
    if k <= Users(h, p + 1) {
      NoneBehind(h, |h| + 1);
      var c := NthUser(h, p + 1, k);
      Counted(h, c);
      assert TurnCut(h, k, c);
    }
  }

  lemma {:induction false} HeadCutIff(h: seq<Message>, k: nat)
    requires k > 0
    ensures (exists c: nat :: HeadCut(h, k, c)) <==> k <= Heads(h, FallbackStart(h) + 1)
  {
    if c: nat :| HeadCut(h, k, c) { HeadsBehind(h, FallbackStart(h), k, c); }
    if k <= Heads(h, FallbackStart(h) + 1) {
      var c := HeadFound(h, FallbackStart(h), k);
      assert HeadCut(h, k, c);
    }
  }

  lemma {:induction false} HeadsBehind(h: seq<Message>, s: nat, k: nat, c: nat)
    requires s < c < |h| && CountHeads(h[c..]) == k
    ensures k <= Heads(h, s + 1)
  {
    Counted(h, c);
    FewerBehind(h, s + 1, c);
  }

  lemma {:induction false} HeadFound(h: seq<Message>, s: nat, k: nat) returns (c: nat)
    requires s <= |h| && 0 < k <= Heads(h, s + 1)
    ensures s < c < |h| && IsHead(h[c]) && CountHeads(h[c..]) == k
  {
    NoneBehind(h, |h| + 1);
    c := NthHead(h, s + 1, k);
    Counted(h, c);
  }

  /** h' is h with everything from start to c told by the summary. */
  ghost predicate KeptFrom(h: seq<Message>, start: nat, c: nat, summary: seq<bv8>, cz: Compressor, h': seq<Message>) {
    start <= c < |h| && h' == h[..start] + [Message(Role.User, Stored(Some(summary), cz), [], "", None, [])] + h[c..]
  }

  lemma {:induction false} ByTurns(h: seq<Message>, summary: seq<bv8>, k: nat, cz: Compressor, h': seq<Message>, r: nat) returns (c: nat)
    requires Recent(h, summary, k, cz, h', r) && exists c: nat :: TurnCut(h, k, c)
    ensures TurnCut(h, k, c) && r == c - Prologue(h) && h' == Folded(h, Prologue(h), c, SummaryMessage(summary, cz))
  {
    c :| TurnCut(h, k, c) && r == c - Prologue(h) && h' == Folded(h, Prologue(h), c, SummaryMessage(summary, cz));
  }

  lemma {:induction false} ByHeads(h: seq<Message>, summary: seq<bv8>, k: nat, cz: Compressor, h': seq<Message>, r: nat) returns (c: nat)
    requires Recent(h, summary, k, cz, h', r)
    requires (!exists c: nat :: TurnCut(h, k, c)) && exists c: nat :: HeadCut(h, k, c)
    ensures HeadCut(h, k, c) && r == c - FallbackStart(h) && h' == Folded(h, FallbackStart(h), c, SummaryMessage(summary, cz))
  {
    c :| HeadCut(h, k, c) && r == c - FallbackStart(h) && h' == Folded(h, FallbackStart(h), c, SummaryMessage(summary, cz));
  }

  /** The newest k user turns stay when there are as many behind the first message after the prologue. */
  lemma {:induction false} KeepsTurns(h: seq<Message>, summary: seq<bv8>, k: nat, cz: Compressor, h': seq<Message>, r: nat)
    requires Recent(h, summary, k, cz, h', r) && k > 0 && k <= Users(h, Prologue(h) + 1)
    ensures r > 0 && KeptFrom(h, Prologue(h), Prologue(h) + r, summary, cz, h')
    ensures h[Prologue(h) + r].role == User && Users(h, Prologue(h) + r) == k
  {
    TurnCutIff(h, k);
    var c := ByTurns(h, summary, k, cz, h', r);
    TurnsKept(h, summary, k, cz, h', r, c);
  }

  lemma {:induction false} TurnsKept(h: seq<Message>, summary: seq<bv8>, k: nat, cz: Compressor, h': seq<Message>, r: nat, c: nat)
    requires TurnCut(h, k, c) && r == c - Prologue(h) && h' == Folded(h, Prologue(h), c, SummaryMessage(summary, cz))
    ensures r > 0 && KeptFrom(h, Prologue(h), Prologue(h) + r, summary, cz, h')
    ensures h[Prologue(h) + r].role == User && Users(h, Prologue(h) + r) == k
  {
    Counted(h, c);
  }

  /** Else the newest k exchanges stay, and with them the prologue and the first user message. */
  lemma {:induction false} KeepsExchanges(h: seq<Message>, summary: seq<bv8>, k: nat, cz: Compressor, h': seq<Message>, r: nat)
    requires Recent(h, summary, k, cz, h', r) && k > 0
    requires Users(h, Prologue(h) + 1) < k <= Heads(h, FallbackStart(h) + 1)
    ensures r > 0 && KeptFrom(h, FallbackStart(h), FallbackStart(h) + r, summary, cz, h')
    ensures IsHead(h[FallbackStart(h) + r]) && Heads(h, FallbackStart(h) + r) == k
  {
    TurnCutIff(h, k);
    HeadCutIff(h, k);
    var c := ByHeads(h, summary, k, cz, h', r);
    HeadsKept(h, summary, k, cz, h', r, c);
  }

  lemma {:induction false} HeadsKept(h: seq<Message>, summary: seq<bv8>, k: nat, cz: Compressor, h': seq<Message>, r: nat, c: nat)
    requires HeadCut(h, k, c) && r == c - FallbackStart(h) && h' == Folded(h, FallbackStart(h), c, SummaryMessage(summary, cz))
    ensures r > 0 && KeptFrom(h, FallbackStart(h), FallbackStart(h) + r, summary, cz, h')
    ensures IsHead(h[FallbackStart(h) + r]) && Heads(h, FallbackStart(h) + r) == k
  {
    Counted(h, c);
  }

  /** With too few of either nothing changes. */
  lemma {:induction false} KeepsAll(h: seq<Message>, summary: seq<bv8>, k: nat, cz: Compressor, h': seq<Message>, r: nat)
    requires Recent(h, summary, k, cz, h', r) && k > 0
    requires Users(h, Prologue(h) + 1) < k && Heads(h, FallbackStart(h) + 1) < k
    ensures h' == h && r == 0
  {
    TurnCutIff(h, k);
    HeadCutIff(h, k);
  }
}
