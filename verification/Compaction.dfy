/**
  What the two compaction passes may do to a history, as relations between the
  history before and after, and what they keep: the system prologue, the pairing
  of calls and results, the kept suffix word for word, and a shrinking size.
 */
module Compaction {
  import opened Wrappers
  import opened Utf8
  import opened Messages

  /** Length of the leading system prologue. */
  function Prologue(h: seq<Message>): (p: nat)
    ensures p <= |h|
    ensures forall i | 0 <= i < p :: h[i].role == System
    ensures p < |h| ==> h[p].role != System
  {
    if h == [] || h[0].role != System then 0 else 1 + Prologue(h[1..])
  }

  ghost function SummaryMessage(summary: seq<bv8>, cz: Compressor): Message {
    Message(User, Stored(Some(summary), cz), [], "", None, [])
  }

  /** h with [start, cut) replaced by one message. */
  ghost function Folded(h: seq<Message>, start: nat, cut: nat, summ: Message): seq<Message>
    requires start <= cut <= |h|
  {
    h[..start] + [summ] + h[cut..]
  }

  // --------------------------------------------------- compact_within

  /** Never keep more than half of what follows the prologue. */
  ghost function KeepLimit(h: seq<Message>, keepBytes: nat): nat {
    var half := Bytes(h[Prologue(h)..]) / 2;
    if keepBytes > half then half else keepBytes
  }

  /**
    The cut the walk settles on: the start of the longest suffix that begins at a
    cut point and fits limit, or the newest cut point when none fits.
   */
  ghost predicate BestCut(h: seq<Message>, limit: nat, c: nat) {
    && Prologue(h) <= c < |h| && IsCutPoint(h[c])
    && if Bytes(h[c..]) <= limit
       then forall i | Prologue(h) <= i < c && IsCutPoint(h[i]) :: Bytes(h[i..]) > limit
       else forall i | c < i < |h| :: !IsCutPoint(h[i])
  }

  /** A fold at c removes more than the summary text costs. */
  ghost predicate FoldsAt(h: seq<Message>, summary: seq<bv8>, keepBytes: nat, c: nat) {
    && BestCut(h, KeepLimit(h, keepBytes), c) && c > Prologue(h)
    && Bytes(h[Prologue(h)..c]) > |summary| + 32
  }

  /** The outcome of clm_history_compact_within: the new history and how many messages went. */
  ghost predicate Within(h: seq<Message>, summary: seq<bv8>, keepBytes: nat, cz: Compressor,
                         h': seq<Message>, r: nat)
  {
    if r > 0 then
      var c := Prologue(h) + r;
      FoldsAt(h, summary, keepBytes, c) && h' == Folded(h, Prologue(h), c, SummaryMessage(summary, cz))
    else
      h' == h && forall c: nat :: !FoldsAt(h, summary, keepBytes, c)
  }

  lemma {:induction false} BytesPositive(h: seq<Message>)
    ensures Bytes(h) >= 32 * |h|
  {
    if h != [] { BytesPositive(h[1..]); }
  }

  lemma {:induction false} SuffixBytesShrink(h: seq<Message>, i: nat, j: nat)
    requires i <= j <= |h|
    ensures Bytes(h[i..]) == Bytes(h[i..j]) + Bytes(h[j..])
    ensures i < j ==> Bytes(h[i..]) > Bytes(h[j..])
  {
    BytesSplit(h[i..], j - i);
    assert h[i..][..j - i] == h[i..j] && h[i..][j - i..] == h[j..];
    BytesPositive(h[i..j]);
  }

  /** There is only one best cut, so the outcome is determined. */
  lemma {:induction false} BestCutUnique(h: seq<Message>, limit: nat, a: nat, b: nat)
    requires BestCut(h, limit, a) && BestCut(h, limit, b)
    ensures a == b
  {
    if a < b { SuffixBytesShrink(h, a, b); }
    if b < a { SuffixBytesShrink(h, b, a); }
  }

  /**
    A cut that fits the limit is never the first message behind the prologue: from
    there on everything would have to fit half of itself. So the step forward from
    such a cut is never taken.
   */
  lemma {:induction false} FittingCutIsLater(h: seq<Message>, keepBytes: nat, c: nat)
    requires Prologue(h) <= c < |h| && Bytes(h[c..]) <= KeepLimit(h, keepBytes)
    ensures c > Prologue(h)
  {
    BytesPositive(h[Prologue(h)..]);
  }

  /** A positive return is a fold at a cut point behind the prologue. */
  lemma {:induction false} WithinFolds(h: seq<Message>, summary: seq<bv8>, keepBytes: nat, cz: Compressor, h': seq<Message>, r: nat)
    requires Within(h, summary, keepBytes, cz, h', r) && r > 0
    ensures Prologue(h) + r < |h| && IsCutPoint(h[Prologue(h) + r])
    ensures BestCut(h, KeepLimit(h, keepBytes), Prologue(h) + r)
    ensures Bytes(h[Prologue(h)..Prologue(h) + r]) > |summary| + 32
    ensures h' == Folded(h, Prologue(h), Prologue(h) + r, SummaryMessage(summary, cz))
  {
  }

  /** The prologue, the summary, and the suffix from the cut on, verbatim. */
  ghost predicate KeepsEnds(h: seq<Message>, cut: nat, summ: Message, h': seq<Message>)
    requires Prologue(h) <= cut <= |h|
  {
    var p := Prologue(h);
    && |h'| == |h| - (cut - p) + 1 && Prologue(h') == p && h'[..p] == h[..p]
    && h'[p] == summ && h'[p + 1..] == h[cut..]
  }

  lemma {:induction false} FoldedShape(h: seq<Message>, cut: nat, summ: Message, h': seq<Message>)
    requires Prologue(h) <= cut <= |h| && summ.role == User && h' == Folded(h, Prologue(h), cut, summ)
    ensures KeepsEnds(h, cut, summ, h')
  {
    FoldedParts(h, Prologue(h), cut, summ);
    FoldedPrologue(h, cut, summ);
  }

  /**
    A fold keeps the system prologue and, verbatim, the suffix from the best cut on;
    one summary message stands between.
   */
  lemma {:induction false} WithinShape(h: seq<Message>, summary: seq<bv8>, keepBytes: nat, cz: Compressor, h': seq<Message>, r: nat)
    requires Within(h, summary, keepBytes, cz, h', r) && r > 0
    ensures Prologue(h) + r < |h|
    ensures BestCut(h, KeepLimit(h, keepBytes), Prologue(h) + r)
    ensures KeepsEnds(h, Prologue(h) + r, SummaryMessage(summary, cz), h')
  {
    WithinFolds(h, summary, keepBytes, cz, h', r);
    FoldedShape(h, Prologue(h) + r, SummaryMessage(summary, cz), h');
  }

  /** A suffix that may be kept: within keepBytes, and no more than half of what follows the prologue. */
  ghost predicate MayKeep(h: seq<Message>, keepBytes: nat, c: nat)
    requires Prologue(h) <= c <= |h|
  {
    Bytes(h[c..]) <= keepBytes && 2 * Bytes(h[c..]) <= Bytes(h[Prologue(h)..])
  }

  /** The longest suffix from a cut point on that may be kept, or, when none may, the newest. */
  ghost predicate MostToKeep(h: seq<Message>, keepBytes: nat, c: nat)
    requires Prologue(h) <= c <= |h|
  {
    c < |h| && IsCutPoint(h[c]) &&
    if MayKeep(h, keepBytes, c)
    then forall i | Prologue(h) <= i < c && IsCutPoint(h[i]) :: !MayKeep(h, keepBytes, i)
    else forall i | Prologue(h) <= i < |h| && IsCutPoint(h[i]) :: i <= c && !MayKeep(h, keepBytes, i)
  }

  /**
    A fold at c as the source promises it: of what may be kept the most is, and the
    rest, which cost more, is told by a summary behind the prologue.
   */
  ghost predicate KeepsMost(h: seq<Message>, summary: seq<bv8>, keepBytes: nat, cz: Compressor, h': seq<Message>, c: nat) {
    && Prologue(h) <= c <= |h| && MostToKeep(h, keepBytes, c)
    && Bytes(h[Prologue(h)..c]) > |summary| + 32
    && h' == h[..Prologue(h)] + [Message(Role.User, Stored(Some(summary), cz), [], "", None, [])] + h[c..]
  }

  lemma {:induction false} KeepsTheMost(h: seq<Message>, summary: seq<bv8>, keepBytes: nat, cz: Compressor, h': seq<Message>, r: nat)
    requires Within(h, summary, keepBytes, cz, h', r) && r > 0
    ensures KeepsMost(h, summary, keepBytes, cz, h', Prologue(h) + r)
  {
    WithinIsCut(h, summary, keepBytes, cz, h', r);
    CutKeeps(h, summary, keepBytes, cz, h', Prologue(h) + r);
  }

  ghost predicate CutBy(h: seq<Message>, summary: seq<bv8>, keepBytes: nat, cz: Compressor, h': seq<Message>, c: nat) {
    && BestCut(h, KeepLimit(h, keepBytes), c) && Bytes(h[Prologue(h)..c]) > |summary| + 32
    && h' == Folded(h, Prologue(h), c, SummaryMessage(summary, cz))
  }

  lemma {:induction false} WithinIsCut(h: seq<Message>, summary: seq<bv8>, keepBytes: nat, cz: Compressor, h': seq<Message>, r: nat)
    requires Within(h, summary, keepBytes, cz, h', r) && r > 0
    ensures CutBy(h, summary, keepBytes, cz, h', Prologue(h) + r)
  {
  }

  lemma {:induction false} CutKeeps(h: seq<Message>, summary: seq<bv8>, keepBytes: nat, cz: Compressor, h': seq<Message>, c: nat)
    requires CutBy(h, summary, keepBytes, cz, h', c)
    ensures KeepsMost(h, summary, keepBytes, cz, h', c)
  {
    MostKept(h, keepBytes, c);
  }

  lemma {:induction false} MayKeepIff(h: seq<Message>, keepBytes: nat, c: nat)
    requires Prologue(h) <= c <= |h|
    ensures MayKeep(h, keepBytes, c) <==> Bytes(h[c..]) <= KeepLimit(h, keepBytes)
  {
  }

  lemma {:induction false} MostKept(h: seq<Message>, keepBytes: nat, c: nat)
    requires BestCut(h, KeepLimit(h, keepBytes), c)
    ensures MostToKeep(h, keepBytes, c)
  {
    MayKeepIff(h, keepBytes, c);
    forall i | Prologue(h) <= i < |h| ensures MayKeep(h, keepBytes, i) <==> Bytes(h[i..]) <= KeepLimit(h, keepBytes) {
      MayKeepIff(h, keepBytes, i);
    }
    if !MayKeep(h, keepBytes, c) {
      forall i | Prologue(h) <= i <= c ensures !MayKeep(h, keepBytes, i) { SuffixBytesShrink(h, i, c); }
    }
  }

  lemma {:induction false} FoldedPrologue(h: seq<Message>, cut: nat, summ: Message)
    requires Prologue(h) <= cut <= |h| && summ.role == User
    ensures Prologue(Folded(h, Prologue(h), cut, summ)) == Prologue(h)
  {
    var p := Prologue(h);
    var rest := [summ] + h[cut..];
    assert Folded(h, p, cut, summ) == h[..p] + rest;
    PrologueOf(h[..p], rest);
  }

  lemma {:induction false} FoldedParts(h: seq<Message>, start: nat, cut: nat, summ: Message)
    requires start <= cut <= |h|
    ensures var f := Folded(h, start, cut, summ);
            && |f| == |h| - (cut - start) + 1 && f[..start] == h[..start]
            && f[start] == summ && f[start + 1..] == h[cut..]
  {
  }

  lemma {:induction false} PrologueOf(a: seq<Message>, b: seq<Message>)
    requires (forall i | 0 <= i < |a| :: a[i].role == System) && (b != [] ==> b[0].role != System)
    ensures Prologue(a + b) == |a|
  {
    if a == [] {
      assert a + b == b;
    } else {
      assert (a + b)[1..] == a[1..] + b;
      PrologueOf(a[1..], b);
    }
  }

  lemma {:induction false} FoldedBytes(h: seq<Message>, start: nat, cut: nat, summ: Message)
    requires start <= cut <= |h|
    ensures Bytes(Folded(h, start, cut, summ)) + Bytes(h[start..cut]) == Bytes(h) + MessageBytes(summ)
  {
    BytesConcat(h[..start] + [summ], h[cut..]);
    BytesConcat(h[..start], [summ]);
    BytesSplit(h, start);
    SuffixBytesShrink(h, start, cut);
    assert Bytes([summ]) == MessageBytes(summ) by { assert [summ][1..] == []; }
  }

  /** A summary is honest when storing it costs no more than its own length. */
  ghost predicate Honest(summary: seq<bv8>, cz: Compressor) {
    Stored(Some(summary), cz).Len() <= |summary|
  }

  /** Well-formed text is honest, whatever the compressor. */
  lemma {:induction false} WellFormedIsHonest(summary: seq<bv8>, cz: Compressor)
    requires WellFormed(summary)
    ensures Honest(summary, cz)
  {
    KeptTextWellFormed(summary);
  }

  /** A positive return with an honest summary strictly lowers the total size. */
  lemma {:induction false} WithinShrinks(h: seq<Message>, summary: seq<bv8>, keepBytes: nat, cz: Compressor, h': seq<Message>, r: nat)
    requires Within(h, summary, keepBytes, cz, h', r) && r > 0 && Honest(summary, cz)
    ensures Bytes(h') < Bytes(h)
  {
    var p := Prologue(h);
    FoldedSmaller(h, p, p + r, SummaryMessage(summary, cz), |summary|);
  }

  lemma {:induction false} FoldedSmaller(h: seq<Message>, start: nat, cut: nat, summ: Message, cost: nat)
    requires start <= cut <= |h| && summ.calls == [] && summ.content.Len() <= cost
    requires Bytes(h[start..cut]) > cost + 32
    ensures Bytes(Folded(h, start, cut, summ)) < Bytes(h)
  {
    FoldedBytes(h, start, cut, summ);
    assert CallBytes([]) == 0;
  }

  ghost predicate AlwaysShrinks(summary: seq<bv8>, cz: Compressor) {
    forall h, keepBytes, h', r | Within(h, summary, keepBytes, cz, h', r) && r > 0 :: Bytes(h') < Bytes(h)
  }

  /** Two user turns, the first just dear enough that the fold goes ahead. */
  ghost function Probe(n: nat): seq<Message> {
    var text := seq(n, i => 0x61 as bv8);
    [Message(User, Plain(text), [], "", None, []), Message(User, Null, [], "", None, [])]
  }

  lemma {:induction false} ProbeFolds(summary: seq<bv8>, cz: Compressor)
    ensures var h := Probe(|summary| + 1);
            Within(h, summary, 0, cz, Folded(h, 0, 1, SummaryMessage(summary, cz)), 1)
    ensures Bytes(Probe(|summary| + 1)[0..1]) == |summary| + 33
  {
    var h := Probe(|summary| + 1);
    assert Prologue(h) == 0;
    assert h[0..1] == [h[0]] && h[0..1][1..] == [] && h[1..] == [h[1]] && h[1..][1..] == [];
    assert Bytes(h[1..]) == 32;
    assert BestCut(h, KeepLimit(h, 0), 1);
    assert FoldsAt(h, summary, 0, 1);
  }

  /**
    A positive return means the history shrank for exactly the honest summaries: a
    malformed one can grow by two bytes for each bad byte when it is stored.
   */
  lemma {:induction false} ShrinksIffHonest(summary: seq<bv8>, cz: Compressor)
    ensures AlwaysShrinks(summary, cz) <==> Honest(summary, cz)
  {
    if Honest(summary, cz) {
      forall h, keepBytes, h', r | Within(h, summary, keepBytes, cz, h', r) && r > 0
        ensures Bytes(h') < Bytes(h)
      {
        WithinShrinks(h, summary, keepBytes, cz, h', r);
      }
    } else {
      var h, summ := Probe(|summary| + 1), SummaryMessage(summary, cz);
      ProbeFolds(summary, cz);
      FoldedBytes(h, 0, 1, summ);
      assert Within(h, summary, 0, cz, Folded(h, 0, 1, summ), 1);
    }
  }

  /** One bad byte stores as three: a summary that is not honest. */
  lemma {:induction false} MalformedSummaryGrows()
    ensures !Honest([0xFF], NoCompressor) && !AlwaysShrinks([0xFF], NoCompressor)
  {
    var s: seq<bv8> := [0xFF];
    assert s[1..] == [];
    assert Utf8Seq(s) == 0;
    assert Repaired(s) == REPLACEMENT + Repaired(s[1..]);
    ShrinksIffHonest(s, NoCompressor);
  }

  /** A run of folds that each reported progress. */
  ghost predicate FoldRun(h: seq<Message>, folds: seq<(seq<bv8>, nat, seq<Message>, nat)>, cz: Compressor)
    decreases |folds|
  {
    folds == [] ||
    (var (summary, keepBytes, h', r) := folds[0];
     r > 0 && Within(h, summary, keepBytes, cz, h', r) && FoldRun(h', folds[1..], cz))
  }

  /** Folding again and again with honest summaries stops within the size of the history. */
  lemma {:induction false} FoldingTerminates(h: seq<Message>, folds: seq<(seq<bv8>, nat, seq<Message>, nat)>, cz: Compressor)
    requires FoldRun(h, folds, cz)
    requires forall f | f in folds :: Honest(f.0, cz)
    ensures |folds| <= Bytes(h)
    decreases |folds|
  {
    if folds != [] {
      var (summary, keepBytes, h', r) := folds[0];
      assert folds[0] in folds;
      WithinShrinks(h, summary, keepBytes, cz, h', r);
      FoldingTerminates(h', folds[1..], cz);
    }
  }

  // ----------------------------------------------------------- pairing kept

  lemma {:induction false} PairedUser(m: Message)
    requires m.role == User
    ensures Paired([m]) && Answered([m])
  {
    assert [m][1..] == [];
  }

  lemma {:induction false} AnsweredConcat(a: seq<Message>, b: seq<Message>)
    requires Answered(a) && Answered(b)
    ensures Answered(a + b)
    decreases |a|
  {
    if a == [] {
      assert a + b == b;
    } else {
      assert (a + b)[1..] == a[1..] + b;
      AnsweredConcat(a[1..], b);
      assert a[1..1 + RunLen(a[1..])] == a[1..][..RunLen(a[1..])];
      if IsHead(a[0]) { RunCovers(a[1..], b, a[0].calls); }
      AnsweredCons(a[0], a[1..] + b);
      assert a + b == [a[0]] + (a[1..] + b);
    }
  }

  lemma {:induction false} AnsweredCons(m: Message, t: seq<Message>)
    requires Answered(t) && (IsHead(m) ==> Covers(t[..RunLen(t)], m.calls))
    ensures Answered([m] + t)
  {
    assert ([m] + t)[1..] == t && ([m] + t)[1..1 + RunLen(t)] == t[..RunLen(t)];
  }

  lemma {:induction false} RunCovers(t: seq<Message>, b: seq<Message>, calls: seq<ToolCall>)
    requires Covers(t[..RunLen(t)], calls)
    ensures Covers((t + b)[..RunLen(t + b)], calls)
  {
    RunLenConcat(t, b);
    var more := (t + b)[RunLen(t)..RunLen(t + b)];
    assert (t + b)[..RunLen(t + b)] == t[..RunLen(t)] + more;
    ResultIdsConcat(t[..RunLen(t)], more);
  }

  lemma {:induction false} AnsweredSplit(h: seq<Message>, i: nat)
    requires Answered(h) && i <= |h| && (i < |h| ==> h[i].role != Tool)
    ensures Answered(h[..i]) && Answered(h[i..])
    decreases i
  {
    if i == 0 {
      assert h[0..] == h;
    } else {
      AnsweredSplit(h[1..], i - 1);
      assert h[i..] == h[1..][i - 1..];
      RunStops(h[1..], i - 1);
      AnsweredFront(h, i);
    }
  }

  lemma {:induction false} AnsweredFront(h: seq<Message>, i: nat)
    requires 0 < i <= |h| && Answered(h) && Answered(h[1..][..i - 1])
    requires RunLen(h[1..][..i - 1]) == RunLen(h[1..]) <= i - 1
    ensures Answered(h[..i])
  {
    var front := h[..i];
    var k := RunLen(h[1..]);
    assert front[1..] == h[1..][..i - 1];
    assert front[1..1 + k] == h[1..1 + k];
  }

  lemma {:induction false} RunStops(h: seq<Message>, i: nat)
    requires i <= |h| && (i < |h| ==> h[i].role != Tool)
    ensures RunLen(h[..i]) == RunLen(h) <= i
    decreases i
  {
    if i > 0 && h[0].role == Tool {
      assert h[..i][1..] == h[1..][..i - 1];
      RunStops(h[1..], i - 1);
    }
  }

  /** Folding a range that starts and ends where a message is not a result keeps pairing. */
  lemma {:induction false} FoldedKeepsPairing(h: seq<Message>, start: nat, cut: nat, summ: Message)
    requires start <= cut < |h| && h[start].role != Tool && h[cut].role != Tool && summ.role == User
    ensures Paired(h) ==> Paired(Folded(h, start, cut, summ))
    ensures Answered(h) ==> Answered(Folded(h, start, cut, summ))
  {
    PairedUser(summ);
    if Paired(h) {
      PairedSplit(h, start);
      PairedSplit(h, cut);
      PairedConcat(h[..start], [summ]);
      PairedConcat(h[..start] + [summ], h[cut..]);
    }
    if Answered(h) {
      AnsweredSplit(h, start);
      AnsweredSplit(h, cut);
      AnsweredConcat(h[..start], [summ]);
      AnsweredConcat(h[..start] + [summ], h[cut..]);
    }
  }

  /** A result stands after its call, so a history whose results are all asked for never starts with one. */
  lemma {:induction false} NoResultAfterPrologue(h: seq<Message>)
    requires Paired(h)
    ensures Prologue(h) < |h| ==> h[Prologue(h)].role != Tool
    decreases |h|
  {
    if h != [] && h[0].role == System { NoResultAfterPrologue(h[1..]); }
  }

  /** compact_within keeps a paired history paired. */
  lemma {:induction false} WithinKeepsPairing(h: seq<Message>, summary: seq<bv8>, keepBytes: nat, cz: Compressor, h': seq<Message>, r: nat)
    requires Within(h, summary, keepBytes, cz, h', r)
    ensures Paired(h) ==> Paired(h')
  {
    if r > 0 && Paired(h) {
      WithinFolds(h, summary, keepBytes, cz, h', r);
      NoResultAfterPrologue(h);
      FoldedAfterPrologue(h, Prologue(h) + r, SummaryMessage(summary, cz));
    }
  }

  lemma {:induction false} FoldedAfterPrologue(h: seq<Message>, cut: nat, summ: Message)
    requires Paired(h) && Prologue(h) <= cut < |h| && h[Prologue(h)].role != Tool && h[cut].role != Tool
    requires summ.role == User
    ensures Paired(Folded(h, Prologue(h), cut, summ))
  {
    FoldedKeepsPairing(h, Prologue(h), cut, summ);
  }

  // ---------------------------------------------------------- clm_history_compact

  function CountUsers(h: seq<Message>): nat {
    if h == [] then 0 else (if h[0].role == User then 1 else 0) + CountUsers(h[1..])
  }

  function CountHeads(h: seq<Message>): nat {
    if h == [] then 0 else (if IsHead(h[0]) then 1 else 0) + CountHeads(h[1..])
  }

  /** Index of the first user message at or after p, or |h|. */
  function Mission(h: seq<Message>, p: nat): (m: nat)
    requires p <= |h|
    ensures p <= m <= |h|
    ensures m < |h| ==> h[m].role == User
    ensures forall i | p <= i < m :: h[i].role != User
    decreases |h| - p
  {
    if p == |h| || h[p].role == User then p else Mission(h, p + 1)
  }

  /** The user message that opens the keepRecent newest turns. */
  ghost predicate TurnCut(h: seq<Message>, keepRecent: nat, c: nat) {
    Prologue(h) < c < |h| && h[c].role == User && CountUsers(h[c..]) == keepRecent
  }

  /** Where the fallback starts folding: after the mission message, which it keeps. */
  ghost function FallbackStart(h: seq<Message>): (s: nat)
    ensures Prologue(h) <= s <= |h|
  {
    var m := Mission(h, Prologue(h));
    if m < |h| then m + 1 else Prologue(h)
  }

  /** The head that opens the keepRecent newest tool exchanges. */
  ghost predicate HeadCut(h: seq<Message>, keepRecent: nat, c: nat) {
    FallbackStart(h) < c < |h| && IsHead(h[c]) && CountHeads(h[c..]) == keepRecent
  }

  /** The outcome of clm_history_compact for keepRecent > 0. */
  ghost predicate Recent(h: seq<Message>, summary: seq<bv8>, keepRecent: nat, cz: Compressor,
                         h': seq<Message>, r: nat)
  {
    var summ := SummaryMessage(summary, cz);
    if exists c: nat :: TurnCut(h, keepRecent, c) then
      exists c: nat :: TurnCut(h, keepRecent, c) && r == c - Prologue(h) && h' == Folded(h, Prologue(h), c, summ)
    else if exists c: nat :: HeadCut(h, keepRecent, c) then
      exists c: nat :: HeadCut(h, keepRecent, c) && r == c - FallbackStart(h) && h' == Folded(h, FallbackStart(h), c, summ)
    else h' == h && r == 0
  }

  lemma {:induction false} CountsDrop(h: seq<Message>, i: nat, j: nat)
    requires i <= j <= |h|
    ensures CountUsers(h[i..]) >= CountUsers(h[j..]) && CountHeads(h[i..]) >= CountHeads(h[j..])
    ensures i < j && h[i].role == User ==> CountUsers(h[i..]) > CountUsers(h[j..])
    ensures i < j && IsHead(h[i]) ==> CountHeads(h[i..]) > CountHeads(h[j..])
    decreases j - i
  {
    if i < j {
      assert h[i..][1..] == h[i + 1..];
      CountsDrop(h, i + 1, j);
    }
  }

  /** The cut, and with it the outcome, is determined. */
  lemma {:induction false} RecentCutUnique(h: seq<Message>, keepRecent: nat, a: nat, b: nat)
    requires a <= b
    ensures TurnCut(h, keepRecent, a) && TurnCut(h, keepRecent, b) ==> a == b
    ensures HeadCut(h, keepRecent, a) && HeadCut(h, keepRecent, b) ==> a == b
  {
    if b <= |h| { CountsDrop(h, a, b); }
  }

  /** clm_history_compact keeps a paired history paired. */
  lemma {:induction false} RecentKeepsPairing(h: seq<Message>, summary: seq<bv8>, keepRecent: nat, cz: Compressor, h': seq<Message>, r: nat)
    requires Recent(h, summary, keepRecent, cz, h', r) && Paired(h)
    ensures Paired(h')
  {
    var summ := SummaryMessage(summary, cz);
    NoResultAfterPrologue(h);
    if exists c: nat :: TurnCut(h, keepRecent, c) {
      var c: nat :| TurnCut(h, keepRecent, c) && h' == Folded(h, Prologue(h), c, summ);
      FoldedKeepsPairing(h, Prologue(h), c, summ);
    } else if exists c: nat :: HeadCut(h, keepRecent, c) {
      var c: nat :| HeadCut(h, keepRecent, c) && h' == Folded(h, FallbackStart(h), c, summ);
      var m := Mission(h, Prologue(h));
      if m < |h| { AfterUser(h, m); }
      FoldedKeepsPairing(h, FallbackStart(h), c, summ);
    }
  }

  lemma {:induction false} AfterUser(h: seq<Message>, m: nat)
    requires Paired(h) && m < |h| && h[m].role == User
    ensures m + 1 < |h| ==> h[m + 1].role != Tool
  {
    PairedSplit(h, m);
    assert h[m..][1..] == h[m + 1..];
    PairedNoLeadingTool(h[m + 1..]);
  }

  /** The exchange-head fallback keeps the prologue and the first user message. */
  lemma {:induction false} RecentKeepsMission(h: seq<Message>, summary: seq<bv8>, keepRecent: nat, cz: Compressor, h': seq<Message>, r: nat)
    requires Recent(h, summary, keepRecent, cz, h', r)
    requires !exists c: nat :: TurnCut(h, keepRecent, c)
    ensures h[..FallbackStart(h)] <= h'
    ensures var m := Mission(h, Prologue(h)); m < |h| ==> m < |h'| && h'[m] == h[m] && m < FallbackStart(h)
  {
    var s := FallbackStart(h);
    var m := Mission(h, Prologue(h));
    if m < |h| { assert h[..s][m] == h[m]; }
    if h' == h { assert h[..s] <= h; }
  }
}
