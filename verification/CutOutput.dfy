/** cut_output: a head and a tail of tool output that is too long, and a marker between them. */
module CutOutput {
  import opened Wrappers
  import opened Utf8
  import opened CutText

  // ------------------------------------------------------------ the measures

  lemma {:induction false} OffsetAt(d: Bytes, i: nat)
    requires i < |d|
    ensures var need := Need(d[i]);
            BinaryOffset(d[i..]) ==
              if need < 0 || i + need >= |d| || !Tails(d[i..], need) then 0 else need + 1 + BinaryOffset(d[i + need + 1..])
  {
    var need := Need(d[i]);
    if 0 <= need && i + need < |d| { assert d[i..][need + 1..] == d[i + need + 1..]; }
  }

  /** How many bytes must follow a lead byte; ok says whether it may open a character at all. */
  method LeadByte(b: bv8) returns (ok: bool, need: nat)
    ensures Need(b) == if ok then need else -1
  {
    MaskFacts(b);
    if b == 0 {
      return false, 0;
    }
    if b < 0x80 {
      return true, 0;
    } else if (b & 0xE0) == 0xC0 {
      return true, 1;
    } else if (b & 0xF0) == 0xE0 {
      return true, 2;
    } else if (b & 0xF8) == 0xF0 {
      return true, 3;
    }
    return false, 0;
  }

  method FindBinaryOffset(d: Bytes) returns (r: nat)
    ensures r == BinaryOffset(d)
  {
    var i := 0;
    assert d[0..] == d;
    while i < |d|
      invariant 0 <= i <= |d| && i + BinaryOffset(d[i..]) == BinaryOffset(d)
    {
      OffsetAt(d, i);
      var ok, need := LeadByte(d[i]);
      if !ok || i + need >= |d| {
        return i;
      }
      var tails := AllTails(d, i, need);
      if !tails {
        return i;
      }
      i := i + need + 1;
    }
    return |d|;
  }

  method AllTails(d: Bytes, i: nat, need: nat) returns (ok: bool)
    requires i + need < |d|
    ensures ok == Tails(d[i..], need)
  {
    for k := 1 to need + 1
      invariant forall m | 1 <= m < k :: IsTail(d[i..][m])
    {
      MaskFacts(d[i + k]);
      assert d[i..][k] == d[i + k];
      if (d[i + k] & 0xC0) != 0x80 {
        return false;
      }
    }
    return true;
  }

  /** word_cost. */
  method CostOfWord(w: Bytes) returns (c: nat)
    ensures c == WordCost(w)
  {
    c := 3;
    assert w[..|w|] == w;
    for i := 0 to |w|
      invariant c == 3 + PartCost(w[..i], |w|)
    {
      assert w[..i + 1][..i] == w[..i];
      c := c + ByteCost(w[i], |w|);
    }
  }

  method SkipBlanks(d: Bytes, i: nat) returns (j: nat)
    requires i <= |d|
    ensures i <= j <= |d| && Blank(d[i..j]) && (j < |d| ==> !IsSpace(d[j]))
  {
    j := i;
    while j < |d| && IsSpace(d[j])
      invariant i <= j <= |d| && forall m | i <= m < j :: IsSpace(d[m])
    {
      j := j + 1;
    }
  }

  method SkipWord(d: Bytes, j: nat) returns (k: nat)
    requires j <= |d|
    ensures j <= k <= |d| && Solid(d[j..k]) && (k < |d| ==> IsSpace(d[k]))
    ensures j < |d| && !IsSpace(d[j]) ==> j < k
  {
    k := j;
    while k < |d| && !IsSpace(d[k])
      invariant j <= k <= |d| && forall m | j <= m < k :: !IsSpace(d[m])
    {
      k := k + 1;
    }
  }

  /** One turn of the word loops: blanks, then a word. */
  lemma {:induction false} CostOfTurn(d: Bytes, i: nat, j: nat, k: nat)
    requires i <= j <= k <= |d| && Blank(d[i..j]) && Solid(d[j..k]) && (k < |d| ==> IsSpace(d[k]))
    ensures Cost(d[i..]) == (if j < k then WordCost(d[j..k]) else 0) + Cost(d[k..])
  {
    assert d[i..] == d[i..j] + d[j..] && d[j..] == d[j..k] + d[k..];
    BlanksFree(d[i..j], d[j..]);
    if j < k {
      CostOfWordThen(d[j..k], d[k..]);
    } else {
      assert d[j..] == d[k..];
    }
  }

  method EstTokens(d: Bytes) returns (t: nat)
    ensures t == (Cost(d) + 11) / 12
  {
    var i, c := 0, 0;
    assert d[0..] == d;
    while i < |d|
      invariant 0 <= i <= |d| && c + Cost(d[i..]) == Cost(d)
    {
      var j := SkipBlanks(d, i);
      var k := SkipWord(d, j);
      CostOfTurn(d, i, j, k);
      if k > j {
        var w := CostOfWord(d[j..k]);
        c := c + w;
      }
      i := k;
    }
    assert d[i..] == [];
    return (c + 11) / 12;
  }

  // ------------------------------------------------------------------- heads

  predicate WordEnd(d: Bytes, e: nat)
    requires e <= |d|
  {
    e > 0 && !IsSpace(d[e - 1]) && (e == |d| || IsSpace(d[e]))
  }

  /** No longer run of whole words from the start of d fits. */
  ghost predicate LongestHead(d: Bytes, budget: nat, maxBytes: nat, i: nat) {
    && i <= |d| && Cost(d[..i]) <= budget && (i > 0 ==> i <= maxBytes)
    && forall e: nat | i < e <= |d| && WordEnd(d, e) :: e > maxBytes || Cost(d[..e]) > budget
  }

  /** The last line break in the second half, if any, else all of it. */
  ghost predicate TrimmedHead(d: Bytes, i: nat, end: nat)
    requires i <= |d|
  {
    (end == i || (i / 2 < end <= i && d[end - 1] == NL)) && forall q | end <= q < i && i / 2 <= q :: d[q] != NL
  }

  /** utf8_floor. */
  function Floor(d: Bytes, off: nat): (r: nat)
    requires off <= |d|
    ensures r <= off
  {
    if 0 < off < |d| && IsTail(d[off]) then Floor(d, off - 1) else off
  }

  lemma {:induction false} FloorIsBoundary(d: Bytes, off: nat)
    requires Text(d) && off <= |d|
    ensures Boundary(d, Floor(d, off)) && off <= Floor(d, off) + 3
  {
    if off < |d| {
      var q := NearBoundary(d, off);
      FloorAbove(d, off, q);
      FloorStops(d, off);
    }
  }

  lemma {:induction false} FloorAbove(d: Bytes, off: nat, q: nat)
    requires q <= off < |d| && Boundary(d, q)
    ensures Floor(d, off) >= q
  {
    if q < off && IsTail(d[off]) { FloorAbove(d, off - 1, q); }
  }

  lemma {:induction false} FloorStops(d: Bytes, off: nat)
    requires Text(d) && off < |d|
    ensures Boundary(d, Floor(d, off))
  {
    if off > 0 && IsTail(d[off]) {
      FloorStops(d, off - 1);
    } else if off == 0 {
      TextBoundaries(d, 0);
    }
  }

  method Utf8Floor(d: Bytes, off: nat) returns (r: nat)
    requires off <= |d|
    ensures r == Floor(d, off)
  {
    r := off;
    if r < |d| { MaskFacts(d[r]); }
    while r > 0 && r < |d| && (d[r] & 0xC0) == 0x80
      invariant 0 <= r <= off && Floor(d, r) == Floor(d, off)
      invariant r < |d| ==> ((d[r] & 0xC0) == 0x80 <==> IsTail(d[r]))
    {
      r := r - 1;
      MaskFacts(d[r]);
    }
  }

  /** Leading blanks. */
  ghost predicate BlankRun(d: Bytes, j: nat) { j <= |d| && Blank(d[..j]) && (j < |d| ==> !IsSpace(d[j])) }

  /** The part of the first word that fits, byte by byte, where the whole word does not. */
  ghost predicate LongestPart(d: Bytes, j: nat, k: nat, budget: nat, maxBytes: nat, e: nat) {
    && j <= e <= k <= |d| && (e > j ==> e <= maxBytes && 3 + PartCost(d[j..e], k - j) <= budget)
    && (e == k || e >= maxBytes || 3 + PartCost(d[j..e], k - j) + ByteCost(d[e], k - j) > budget)
  }

  method TakePart(d: Bytes, j: nat, k: nat, budget: nat, maxBytes: nat) returns (e: nat)
    requires j <= k <= |d|
    ensures LongestPart(d, j, k, budget, maxBytes, e)
  {
    var wl := k - j;
    var cost := 3;
    e := j;
    while e < k && e < maxBytes && cost + ByteCost(d[e], wl) <= budget
      invariant j <= e <= k && cost == 3 + PartCost(d[j..e], wl)
      invariant e > j ==> e <= maxBytes && cost <= budget
    {
      assert d[j..e + 1][..e - j] == d[j..e];
      cost := cost + ByteCost(d[e], wl);
      e := e + 1;
    }
  }

  /** What the part costs by itself. */
  lemma {:induction false} PartFits(d: Bytes, j: nat, k: nat, budget: nat, maxBytes: nat, e: nat, r: nat)
    requires BlankRun(d, j) && j <= k <= |d| && Solid(d[j..k])
    requires LongestPart(d, j, k, budget, maxBytes, e) && r <= e
    ensures Cost(d[..r]) <= budget
  {
    PartSolid(d, j, e, k);
    BlanksThenWord(d, j, e);
    PartCostMono(d[j..e], e - j, k - j);
    EarlierHead(d, r, e);
  }

  lemma {:induction false} PartSolid(d: Bytes, j: nat, e: nat, k: nat)
    requires j <= e <= k <= |d| && Solid(d[j..k])
    ensures Solid(d[j..e])
  {
    assert d[j..e] == d[j..k][..e - j];
  }

  lemma {:induction false} BlanksThenWord(d: Bytes, j: nat, e: nat)
    requires j <= e <= |d| && Blank(d[..j]) && Solid(d[j..e])
    ensures Cost(d[..e]) == if j == e then 0 else WordCost(d[j..e])
  {
    assert d[..e] == d[..j] + d[j..e];
    BlanksFree(d[..j], d[j..e]);
    SolidCost(d[j..e]);
  }

  lemma {:induction false} EarlierHead(d: Bytes, r: nat, e: nat)
    requires r <= e <= |d|
    ensures Cost(d[..r]) <= Cost(d[..e])
  {
    assert d[..r] == d[..e][..r];
    HeadCost(d[..e], r);
  }

  lemma {:induction false} Pieces(d: Bytes, i: nat, j: nat, k: nat)
    requires i <= j <= k <= |d|
    ensures d[i..k] == d[i..j] + d[j..k]
  {
  }

  lemma {:induction false} HeadOfTurn(d: Bytes, i: nat, j: nat, k: nat)
    requires i <= j <= k <= |d| && Blank(d[i..j]) && Solid(d[j..k])
    requires i == 0 || i == |d| || IsSpace(d[i])
    ensures Cost(d[..k]) == Cost(d[..i]) + (if j < k then WordCost(d[j..k]) else 0)
  {
    Pieces(d, 0, i, k);
    Pieces(d, i, j, k);
    if i == 0 {
      assert d[..0] == [] && d[..k] == d[i..k];
    } else {
      CostConcat(d[..i], d[i..k]);
    }
    BlanksFree(d[i..j], d[j..k]);
    SolidCost(d[j..k]);
  }

  /** Where the next word does not fit, no later one does. */
  lemma {:induction false} NoLaterEnd(d: Bytes, i: nat, j: nat, k: nat, budget: nat, maxBytes: nat)
    requires i <= j <= k <= |d| && Blank(d[i..j]) && Solid(d[j..k]) && (k < |d| ==> IsSpace(d[k]))
    requires j == k ==> k == |d|
    requires j < k ==> k > maxBytes || Cost(d[..k]) > budget
    ensures forall e: nat | i < e <= |d| && WordEnd(d, e) :: e > maxBytes || Cost(d[..e]) > budget
  {
    forall m | i <= m < j ensures IsSpace(d[m]) { assert d[i..j][m - i] == d[m]; }
    forall m | j <= m < k ensures !IsSpace(d[m]) { assert d[j..k][m - j] == d[m]; }
    forall e: nat | i < e <= |d| && WordEnd(d, e) ensures e > maxBytes || Cost(d[..e]) > budget {
      assert e >= k;
      HeadCost(d[..e], k);
      assert d[..e][..k] == d[..k];
    }
  }

  /** fit_head; words says where the last whole word it took ends, stop how far a single word was taken. */
  method FitHead(d: Bytes, budget: nat, maxBytes: nat) returns (end: nat, ghost words: nat, ghost stop: nat)
    ensures end <= |d| && Cost(d[..end]) <= budget
    ensures LongestHead(d, budget, maxBytes, words)
    ensures words > 0 || d == [] ==> TrimmedHead(d, words, end)
    ensures words == 0 && d != [] ==>
              exists j: nat, k: nat :: BlankRun(d, j) && j <= k <= |d| && Solid(d[j..k]) && LongestPart(d, j, k, budget, maxBytes, stop)
                && end == Floor(d, stop)
    ensures end <= maxBytes || exists j: nat :: BlankRun(d, j) && end <= j
    ensures Text(d) ==> Boundary(d, end)
    ensures Blank(d) && |d| > maxBytes ==> end == |d|
  {
    var i, cost := 0, 0;
    assert d[..0] == [];
    stop := 0;
    while i < |d|
      invariant 0 <= i <= |d| && (i > 0 ==> i <= maxBytes) && Cost(d[..i]) <= cost <= budget
      invariant i < |d| ==> Cost(d[..i]) == cost && (i == 0 || IsSpace(d[i]))
      invariant Blank(d) && |d| > maxBytes ==> i == 0
    {
      var j := SkipBlanks(d, i);
      var k := SkipWord(d, j);
      var c := CostOfWord(d[j..k]);
      HeadOfTurn(d, i, j, k);
      if k > maxBytes || cost + c > budget {
        NoLaterEnd(d, i, j, k, budget, maxBytes);
        if i == 0 {
          end, stop := OneWordHead(d, j, k, budget, maxBytes);
          words := 0;
          return;
        }
        break;
      }
      cost := cost + c;
      i := k;
    }
    words := i;
    end := TrimHead(d, i);
    HeadCost(d[..i], end);
    assert d[..i][..end] == d[..end];
    if Text(d) { TrimmedBoundary(d, i, end); }
  }

  method OneWordHead(d: Bytes, j: nat, k: nat, budget: nat, maxBytes: nat) returns (end: nat, ghost stop: nat)
    requires BlankRun(d, j) && j <= k <= |d| && Solid(d[j..k])
    ensures LongestPart(d, j, k, budget, maxBytes, stop) && end == Floor(d, stop) && Cost(d[..end]) <= budget
    ensures end <= maxBytes || end <= j
    ensures Text(d) ==> Boundary(d, end)
    ensures j == |d| ==> end == |d|
  {
    var e := TakePart(d, j, k, budget, maxBytes);
    end := Utf8Floor(d, e);
    stop := e;
    PartFits(d, j, k, budget, maxBytes, e, end);
    if Text(d) { FloorIsBoundary(d, e); }
  }

  method TrimHead(d: Bytes, i: nat) returns (end: nat)
    requires i <= |d|
    ensures TrimmedHead(d, i, end) && end <= i
  {
    var p := i;
    while p > i / 2
      invariant i / 2 <= p <= i && forall q | p <= q < i :: d[q] != NL
    {
      if d[p - 1] == NL {
        return p;
      }
      p := p - 1;
    }
    return i;
  }

  lemma {:induction false} TrimmedBoundary(d: Bytes, i: nat, end: nat)
    requires Text(d) && i <= |d| && end <= |d| && TrimmedHead(d, i, end) && (i == 0 || i == |d| || IsSpace(d[i]))
    ensures Boundary(d, end)
  {
    if end == i {
      if i < |d| {
        if i == 0 { TextBoundaries(d, 0); } else { SpaceIsShort(d[i]); }
      }
    } else {
      TextBoundaries(d, end - 1);
    }
  }

  // ------------------------------------------------------------------- tails

  predicate WordStart(d: Bytes, e: nat)
    requires e <= |d|
  {
    e < |d| && !IsSpace(d[e]) && (e == 0 || IsSpace(d[e - 1]))
  }

  /** No longer run of whole words up to the end of d fits. */
  ghost predicate LongestTail(d: Bytes, budget: nat, maxBytes: nat, i: nat) {
    && i <= |d| && Cost(d[i..]) <= budget && (i < |d| ==> |d| - i <= maxBytes)
    && forall e: nat | e < i && WordStart(d, e) :: |d| - e > maxBytes || Cost(d[e..]) > budget
  }

  /** Behind the first line break of the first half, if any, else all of it. */
  ghost predicate TrimmedTail(d: Bytes, i: nat, start: nat)
    requires i <= |d|
  {
    var half := i + (|d| - i) / 2;
    if start == i then forall q | i <= q < half :: d[q] != NL
    else i < start <= half && d[start - 1] == NL && forall q | i <= q < start - 1 :: d[q] != NL
  }

  method SkipBlanksBack(d: Bytes, i: nat) returns (j: nat)
    requires i <= |d|
    ensures j <= i && Blank(d[j..i]) && (j > 0 ==> !IsSpace(d[j - 1]))
  {
    j := i;
    while j > 0 && IsSpace(d[j - 1])
      invariant 0 <= j <= i && forall m | j <= m < i :: IsSpace(d[m])
    {
      j := j - 1;
    }
  }

  method SkipWordBack(d: Bytes, j: nat) returns (k: nat)
    requires j <= |d|
    ensures k <= j && Solid(d[k..j]) && (k > 0 ==> IsSpace(d[k - 1]))
    ensures j > 0 && !IsSpace(d[j - 1]) ==> k < j
  {
    k := j;
    while k > 0 && !IsSpace(d[k - 1])
      invariant 0 <= k <= j && forall m | k <= m < j :: !IsSpace(d[m])
    {
      k := k - 1;
    }
  }

  lemma {:induction false} TailOfTurn(d: Bytes, k: nat, j: nat, i: nat)
    requires k <= j <= i <= |d| && Blank(d[j..i]) && Solid(d[k..j])
    requires j == i ==> i == |d| || i == 0
    ensures Cost(d[k..]) == (if k < j then WordCost(d[k..j]) else 0) + Cost(d[i..])
  {
    assert d[k..] == d[k..j] + d[j..] && d[j..] == d[j..i] + d[i..];
    BlanksFree(d[j..i], d[i..]);
    if k < j {
      assert j < i ==> d[j..i][0] == d[j];
      CostOfWordThen(d[k..j], d[j..]);
    } else {
      assert d[k..] == d[j..];
    }
  }

  /** No word before i starts later than k; none does at all where there was no word to skip. */
  ghost predicate FirstStart(d: Bytes, k: nat, j: nat, i: nat)
    requires i <= |d|
  {
    forall e: nat | e < i && WordStart(d, e) :: e <= k < j
  }

  lemma {:induction false} TurnStart(d: Bytes, k: nat, j: nat, i: nat)
    requires k <= j <= i <= |d| && Blank(d[j..i]) && Solid(d[k..j]) && (k == j ==> k == 0)
    ensures FirstStart(d, k, j, i)
  {
    forall m | j <= m < i ensures IsSpace(d[m]) { assert d[j..i][m - j] == d[m]; }
    forall m | k <= m < j ensures !IsSpace(d[m]) { assert d[k..j][m - k] == d[m]; }
  }

  /** Where the word before i does not fit, no earlier one does. */
  lemma {:induction false} NoEarlierStart(d: Bytes, k: nat, j: nat, i: nat, budget: nat, maxBytes: nat)
    requires k <= j <= i <= |d| && FirstStart(d, k, j, i)
    requires k < j ==> |d| - k > maxBytes || Cost(d[k..]) > budget
    ensures forall e: nat | e < i && WordStart(d, e) :: |d| - e > maxBytes || Cost(d[e..]) > budget
  {
    forall e: nat | e < i && WordStart(d, e) ensures |d| - e > maxBytes || Cost(d[e..]) > budget {
      LaterTail(d, e, k);
    }
  }

  /** The part of the last word that fits, taken from its end. */
  ghost predicate LongestEnd(d: Bytes, k: nat, j: nat, budget: nat, maxBytes: nat, s: nat) {
    && k <= s <= j <= |d| && (s < j ==> |d| - s <= maxBytes && 3 + PartCost(d[s..j], j - k) <= budget)
    && (s == k || |d| - s >= maxBytes || 3 + PartCost(d[s..j], j - k) + ByteCost(d[s - 1], j - k) > budget)
  }

  lemma {:induction false} CostInFront(d: Bytes, s: nat, j: nat, wordLen: nat)
    requires 0 < s <= j <= |d|
    ensures PartCost(d[s - 1..j], wordLen) == ByteCost(d[s - 1], wordLen) + PartCost(d[s..j], wordLen)
  {
    assert d[s - 1..j] == [d[s - 1]] + d[s..j];
    PartCostConcat([d[s - 1]], d[s..j], wordLen);
    assert [d[s - 1]][..0] == [];
  }

  method TakeEnd(d: Bytes, k: nat, j: nat, budget: nat, maxBytes: nat) returns (s: nat)
    requires k <= j <= |d|
    ensures LongestEnd(d, k, j, budget, maxBytes, s)
  {
    var wl := j - k;
    var cost := 3;
    s := j;
    while s > k && |d| - s < maxBytes && cost + ByteCost(d[s - 1], wl) <= budget
      invariant k <= s <= j && cost == 3 + PartCost(d[s..j], wl)
      invariant s < j ==> |d| - s <= maxBytes && cost <= budget
    {
      CostInFront(d, s, j, wl);
      s := s - 1;
      cost := cost + ByteCost(d[s], wl);
    }
  }

  /** What is read at p: a byte of d, or the one behind its end. */
  function At(d: Bytes, behind: bv8, p: nat): bv8
    requires p <= |d|
  {
    if p < |d| then d[p] else behind
  }

  /** Back to the start of a character, within the word. */
  function CharStart(d: Bytes, behind: bv8, k: nat, s: nat): (r: nat)
    requires k <= s <= |d|
    ensures k <= r <= s
  {
    if k < s && IsTail(At(d, behind, s)) then CharStart(d, behind, k, s - 1) else s
  }

  lemma {:induction false} CharStartNear(d: Bytes, behind: bv8, k: nat, s: nat)
    requires Text(d) && k <= s < |d| && Boundary(d, k)
    ensures Boundary(d, CharStart(d, behind, k, s)) && s <= CharStart(d, behind, k, s) + 3
  {
    var q := NearBoundary(d, s);
    if q >= k { CharStartAbove(d, behind, k, s, q); }
    CharStartStops(d, behind, k, s);
  }

  lemma {:induction false} CharStartAbove(d: Bytes, behind: bv8, k: nat, s: nat, q: nat)
    requires k <= q <= s < |d| && Boundary(d, q)
    ensures CharStart(d, behind, k, s) >= q
  {
    if q < s && IsTail(d[s]) { CharStartAbove(d, behind, k, s - 1, q); }
  }

  lemma {:induction false} CharStartStops(d: Bytes, behind: bv8, k: nat, s: nat)
    requires k <= s < |d| && Boundary(d, k)
    ensures Boundary(d, CharStart(d, behind, k, s))
  {
    if k < s && IsTail(d[s]) { CharStartStops(d, behind, k, s - 1); }
  }

  /** Trailing blanks begin at j. */
  ghost predicate BlankEnd(d: Bytes, j: nat) { j <= |d| && Blank(d[j..]) && (j > 0 ==> !IsSpace(d[j - 1])) }

  /** The last word of d, whatever blanks follow it. */
  ghost predicate LastWord(d: Bytes, k: nat, j: nat) {
    BlankEnd(d, j) && k <= j && Solid(d[k..j]) && (k > 0 ==> IsSpace(d[k - 1]))
  }

  /** A tail of part of the last word only. */
  ghost predicate OneEnd(d: Bytes, behind: bv8, k: nat, j: nat, budget: nat, maxBytes: nat, stop: nat, start: nat) {
    && LastWord(d, k, j) && LongestEnd(d, k, j, budget, maxBytes, stop) && start == CharStart(d, behind, k, stop)
  }

  /** A word reaches the end of d, and not even its last byte has room in the tail. */
  ghost predicate LooksBehind(d: Bytes, budget: nat, maxBytes: nat) {
    exists k: nat :: k < |d| && LastWord(d, k, |d|) && (maxBytes == 0 || 3 + ByteCost(d[|d| - 1], |d| - k) > budget)
  }

  /**
    Where a tail of text may begin: within its budget and room but for the rest of
    one character, or, stray, at the last character of all.
   */
  ghost predicate TailWithin(d: Bytes, budget: nat, maxBytes: nat, start: nat, stray: bool)
    requires start <= |d|
  {
    && Boundary(d, start)
    && if stray then 1 <= |d| - start <= 4
       else Cost(d[start..]) <= budget + WHOLE_CHAR && (|d| - start <= maxBytes + 3 || BlankEnd(d, start))
  }

  const WHOLE_CHAR: nat := 36  // what keeping the character whole may add

  lemma {:induction false} PartCostBound(w: Bytes, wordLen: nat)
    ensures PartCost(w, wordLen) <= 12 * |w|
  {
    if w != [] { PartCostBound(w[..|w| - 1], wordLen); }
  }

  lemma {:induction false} EndCost(d: Bytes, r: nat, j: nat)
    requires r < j <= |d| && Solid(d[r..j]) && Blank(d[j..])
    ensures Cost(d[r..]) == WordCost(d[r..j])
  {
    Pieces(d, r, j, |d|);
    assert d[r..|d|] == d[r..] && d[j..|d|] == d[j..];
    BlankCost(d[j..]);
    assert d[j..] == [] || IsSpace(d[j..][0]);
    CostOfWordThen(d[r..j], d[j..]);
  }

  lemma {:induction false} EndParts(d: Bytes, r: nat, s: nat, j: nat, wordLen: nat)
    requires r <= s <= j <= |d| && s <= r + 3 && j - r <= wordLen
    ensures WordCost(d[r..j]) <= 3 + PartCost(d[s..j], wordLen) + WHOLE_CHAR
  {
    PartCostMono(d[r..j], j - r, wordLen);
    Pieces(d, r, s, j);
    PartCostConcat(d[r..s], d[s..j], wordLen);
    PartCostBound(d[r..s], wordLen);
  }

  lemma {:induction false} SolidPart(d: Bytes, k: nat, r: nat, j: nat)
    requires k <= r <= j <= |d| && Solid(d[k..j])
    ensures Solid(d[r..j])
  {
    assert d[r..j] == d[k..j][r - k..];
  }

  lemma {:induction false} EndFits(d: Bytes, k: nat, j: nat, s: nat, r: nat, budget: nat)
    requires k <= r <= s <= j && s <= r + 3 && BlankEnd(d, j) && Solid(d[k..j])
    requires s < j ==> 3 + PartCost(d[s..j], j - k) <= budget
    requires s == j ==> r == j
    ensures Cost(d[r..]) <= budget + WHOLE_CHAR
  {
    if r < j {
      SolidPart(d, k, r, j);
      EndCost(d, r, j);
      EndParts(d, r, s, j, j - k);
    } else {
      BlankCost(d[j..]);
    }
  }

  lemma {:induction false} SolidAt(d: Bytes, k: nat, j: nat)
    requires k <= j <= |d| && Solid(d[k..j])
    ensures forall m: nat | k <= m < j :: !IsSpace(d[m])
  {
    forall m: nat | k <= m < j ensures !IsSpace(d[m]) { assert d[k..j][m - k] == d[m]; }
  }

  lemma {:induction false} BlankAt(d: Bytes, j: nat)
    requires j <= |d| && Blank(d[j..])
    ensures forall m: nat | j <= m < |d| :: IsSpace(d[m])
  {
    forall m: nat | j <= m < |d| ensures IsSpace(d[m]) { assert d[j..][m - j] == d[m]; }
  }

  lemma {:induction false} LastWordUnique(d: Bytes, k: nat, j: nat, l: nat)
    requires LastWord(d, k, j) && LastWord(d, l, |d|) && l < |d|
    ensures j == |d| && k == l
  {
    SolidAt(d, l, |d|);
    BlankAt(d, j);
    SolidAt(d, k, j);
  }

  /** A part of a word that holds its last byte costs at least that byte. */
  lemma {:induction false} LastByteCosts(d: Bytes, s: nat, wordLen: nat)
    requires s < |d|
    ensures PartCost(d[s..|d|], wordLen) >= ByteCost(d[|d| - 1], wordLen)
  {
  }

  /** The byte-wise loop stops at the very end exactly when it then looks behind it. */
  lemma {:induction false} StopsAtEnd(d: Bytes, k: nat, j: nat, budget: nat, maxBytes: nat, stop: nat)
    requires LastWord(d, k, j) && LongestEnd(d, k, j, budget, maxBytes, stop)
    ensures k < stop == |d| <==> LooksBehind(d, budget, maxBytes)
  {
    if k < stop == |d| {
      assert d[stop..j] == [];
    }
    if LooksBehind(d, budget, maxBytes) {
      var l: nat :| l < |d| && LastWord(d, l, |d|) && (maxBytes == 0 || 3 + ByteCost(d[|d| - 1], |d| - l) > budget);
      LastWordUnique(d, k, j, l);
      if stop < j { LastByteCosts(d, stop, j - k); }
    }
  }

  /** Where whole words are taken nothing is read behind the end. */
  lemma {:induction false} WordsLookNot(d: Bytes, i: nat, budget: nat, maxBytes: nat)
    requires i <= |d| && (i < |d| || d == []) && (i == 0 || IsSpace(d[i - 1]))
    requires Cost(d[i..]) <= budget && (i < |d| ==> |d| - i <= maxBytes)
    ensures !LooksBehind(d, budget, maxBytes)
  {
    forall k: nat | k < |d| && LastWord(d, k, |d|) ensures 3 + ByteCost(d[|d| - 1], |d| - k) <= budget {
      LastWordFits(d, i, k);
    }
  }

  lemma {:induction false} LastWordFits(d: Bytes, i: nat, k: nat)
    requires i < |d| && k < |d| && LastWord(d, k, |d|) && (i == 0 || IsSpace(d[i - 1]))
    ensures 3 + ByteCost(d[|d| - 1], |d| - k) <= Cost(d[i..])
  {
    SolidAt(d, k, |d|);
    LaterTail(d, i, k);
    WholeWordCosts(d, k);
  }

  lemma {:induction false} WholeWordCosts(d: Bytes, k: nat)
    requires k < |d| && Solid(d[k..|d|])
    ensures Cost(d[k..]) >= 3 + ByteCost(d[|d| - 1], |d| - k)
  {
    assert d[k..|d|] == d[k..];
    SolidCost(d[k..]);
    LastByteCosts(d, k, |d| - k);
  }

  /**
    fit_tail; words says where the first whole word it took begins, stop how far a
    single word was taken. behind is the byte in memory behind the end of d; looked
    says whether the code reads it.
   */
  method FitTail(d: Bytes, behind: bv8, budget: nat, maxBytes: nat)
    returns (start: nat, looked: bool, ghost words: nat, ghost stop: nat)
    ensures start <= |d| && LongestTail(d, budget, maxBytes, words)
    ensures words < |d| || d == [] ==> TrimmedTail(d, words, start) && Cost(d[start..]) <= budget
    ensures words == |d| && d != [] ==>
              exists k: nat, j: nat :: OneEnd(d, behind, k, j, budget, maxBytes, stop, start)
    ensures looked <==> LooksBehind(d, budget, maxBytes)
    ensures Text(d) ==> TailWithin(d, budget, maxBytes, start, looked && IsTail(behind))
  {
    var i, one, k, j := ScanTail(d, budget, maxBytes);
    words, stop := i, 0;
    if one {
      start, looked, stop := OneWordTail(d, behind, k, j, budget, maxBytes);
    } else {
      start := WordsTail(d, i, budget, maxBytes);
      looked := false;
      WordsLookNot(d, i, budget, maxBytes);
    }
  }

  lemma {:induction false} LaterTail(d: Bytes, i: nat, start: nat)
    requires i <= start <= |d|
    ensures Cost(d[start..]) <= Cost(d[i..])
  {
    TailCost(d[i..], start - i);
    assert d[i..][start - i..] == d[start..];
  }

  method WordsTail(d: Bytes, i: nat, budget: nat, maxBytes: nat) returns (start: nat)
    requires i <= |d| && Cost(d[i..]) <= budget && (i < |d| ==> |d| - i <= maxBytes)
    requires i == 0 || i == |d| || IsSpace(d[i - 1])
    ensures start <= |d| && TrimmedTail(d, i, start) && Cost(d[start..]) <= budget
    ensures Text(d) ==> TailWithin(d, budget, maxBytes, start, false)
  {
    start := TrimTail(d, i);
    LaterTail(d, i, start);
    if Text(d) { TrimmedTailBoundary(d, i, start); }
  }

  /** One turn backwards: blanks, then a word. */
  method TurnBack(d: Bytes, i: nat) returns (k: nat, j: nat, c: nat)
    requires 0 < i <= |d| && (i == |d| || IsSpace(d[i - 1]))
    ensures k <= j <= i && FirstStart(d, k, j, i) && (i == |d| ==> LastWord(d, k, j))
    ensures k < i && (k > 0 ==> k < j && IsSpace(d[k - 1]))
    ensures Cost(d[k..]) == (if k < j then c else 0) + Cost(d[i..])
  {
    j := SkipBlanksBack(d, i);
    k := SkipWordBack(d, j);
    c := CostOfWord(d[k..j]);
    TailOfTurn(d, k, j, i);
    TurnStart(d, k, j, i);
    assert d[j..|d|] == d[j..];
  }

  /** The word loop; one says that not even the last word, k to j, fits. */
  method ScanTail(d: Bytes, budget: nat, maxBytes: nat) returns (i: nat, one: bool, k: nat, j: nat)
    ensures LongestTail(d, budget, maxBytes, i)
    ensures one ==> i == |d| && d != [] && LastWord(d, k, j)
    ensures !one ==> (i < |d| || d == []) && (i == 0 || i == |d| || IsSpace(d[i - 1]))
  {
    var cost := 0;
    i, one, k, j := |d|, false, 0, 0;
    assert d[|d|..] == [];
    while i > 0
      invariant 0 <= i <= |d| && (i < |d| ==> |d| - i <= maxBytes) && Cost(d[i..]) <= cost <= budget
      invariant i > 0 ==> Cost(d[i..]) == cost && (i == |d| || IsSpace(d[i - 1]))
    {
      var c;
      k, j, c := TurnBack(d, i);
      if |d| - k > maxBytes || cost + c > budget {
        NoEarlierStart(d, k, j, i, budget, maxBytes);
        one := i == |d|;
        return;
      }
      cost := cost + c;
      i := k;
    }
  }

  method OneWordTail(d: Bytes, behind: bv8, k: nat, j: nat, budget: nat, maxBytes: nat)
    returns (start: nat, looked: bool, ghost stop: nat)
    requires d != [] && LastWord(d, k, j)
    ensures start <= |d| && OneEnd(d, behind, k, j, budget, maxBytes, stop, start)
    ensures looked <==> LooksBehind(d, budget, maxBytes)
    ensures Text(d) ==> TailWithin(d, budget, maxBytes, start, looked && IsTail(behind))
  {
    var s := TakeEnd(d, k, j, budget, maxBytes);
    stop := s;
    start, looked := BackToChar(d, behind, k, s);
    StopsAtEnd(d, k, j, budget, maxBytes, s);
    if Text(d) {
      if looked && IsTail(behind) { StrayCut(d, behind, k); } else { EndCut(d, behind, k, j, s, budget, maxBytes); }
    }
  }

  lemma {:induction false} WordBoundary(d: Bytes, k: nat)
    requires Text(d) && d != [] && k <= |d| && (k > 0 ==> IsSpace(d[k - 1]))
    ensures Boundary(d, k)
  {
    if k > 0 {
      SpaceIsShort(d[k - 1]);
      TextBoundaries(d, k - 1);
    } else {
      TextBoundaries(d, 0);
    }
  }

  lemma {:induction false} EndCut(d: Bytes, behind: bv8, k: nat, j: nat, s: nat, budget: nat, maxBytes: nat)
    requires Text(d) && d != [] && LastWord(d, k, j)
    requires LongestEnd(d, k, j, budget, maxBytes, s) && (k < s == |d| ==> !IsTail(behind))
    ensures TailWithin(d, budget, maxBytes, CharStart(d, behind, k, s), false)
  {
    WordBoundary(d, k);
    if s < |d| {
      CharStartNear(d, behind, k, s);
      if s == j {
        assert d[j..][0] == d[j];
        SpaceIsShort(d[j]);
      }
    }
    EndFits(d, k, j, s, CharStart(d, behind, k, s), budget);
  }

  /** A continuation byte behind the end: the tail is the last character. */
  lemma {:induction false} StrayCut(d: Bytes, behind: bv8, k: nat)
    requires Text(d) && k < |d| && (k > 0 ==> IsSpace(d[k - 1])) && IsTail(behind)
    ensures var r := CharStart(d, behind, k, |d|); Boundary(d, r) && 1 <= |d| - r <= 4
  {
    WordBoundary(d, k);
    CharStartNear(d, behind, k, |d| - 1);
  }

  method BackToChar(d: Bytes, behind: bv8, k: nat, s: nat) returns (r: nat, looked: bool)
    requires k <= s <= |d|
    ensures r == CharStart(d, behind, k, s) && (looked <==> k < s == |d|)
  {
    r := s;
    looked := k < s && s == |d|;
    MaskFacts(At(d, behind, r));
    while r > k && (At(d, behind, r) & 0xC0) == 0x80
      invariant k <= r <= s && CharStart(d, behind, k, r) == CharStart(d, behind, k, s)
      invariant (At(d, behind, r) & 0xC0) == 0x80 <==> IsTail(At(d, behind, r))
    {
      r := r - 1;
      MaskFacts(At(d, behind, r));
    }
  }

  /** A tail with room for no byte is empty exactly when the byte behind the output is no continuation byte. */
  lemma {:induction false} BehindDecides(d: Bytes, behind: bv8, k: nat)
    requires k < |d|
    ensures CharStart(d, behind, k, |d|) == |d| <==> !IsTail(behind)
  {
  }

  method TrimTail(d: Bytes, i: nat) returns (start: nat)
    requires i <= |d|
    ensures TrimmedTail(d, i, start) && i <= start <= |d|
  {
    var p := i;
    while p < i + (|d| - i) / 2
      invariant i <= p <= i + (|d| - i) / 2 && forall q | i <= q < p :: d[q] != NL
    {
      if d[p] == NL {
        return p + 1;
      }
      p := p + 1;
    }
    return i;
  }

  lemma {:induction false} TrimmedTailBoundary(d: Bytes, i: nat, start: nat)
    requires Text(d) && i <= start <= |d| && TrimmedTail(d, i, start) && (i == 0 || i == |d| || IsSpace(d[i - 1]))
    ensures Boundary(d, start)
  {
    if start == i {
      if i < |d| {
        if i == 0 {
          TextBoundaries(d, 0);
        } else {
          SpaceIsShort(d[i - 1]);
          TextBoundaries(d, i - 1);
        }
      }
    } else {
      TextBoundaries(d, start - 1);
    }
  }

  // ----------------------------------------------------------------- the cut

  const MARKER_MAX: nat := 1024

  function TokCap(cap: nat): nat { if cap / 4 > 0 then cap / 4 else 1 }

  /** Twelfths of a token for head and tail together, and their bytes. */
  function Budget(cap: nat): nat { (if TokCap(cap) > 128 then TokCap(cap) - 128 else TokCap(cap) / 2) * 12 }

  function Room(cap: nat): nat { if cap > MARKER_MAX then cap - MARKER_MAX else cap / 2 }

  function HeadBudget(cap: nat): nat { Budget(cap) * 2 / 3 }

  function TailBudget(cap: nat): nat { Budget(cap) - HeadBudget(cap) }

  function HeadRoom(cap: nat): nat { Room(cap) * 2 / 3 }

  function TailRoom(cap: nat): nat { Room(cap) - HeadRoom(cap) }

  /** Output that is passed on whole. */
  predicate Fits(data: Bytes, cap: nat) { |data| <= cap && (Cost(data) + 11) / 12 <= TokCap(cap) }

  /** The tail always has room for one byte, whatever the byte and its word. */
  ghost predicate TailTakesAByte(cap: nat) {
    TailRoom(cap) >= 1 && forall b: bv8, wordLen: nat :: 3 + ByteCost(b, wordLen) <= TailBudget(cap)
  }

  lemma {:induction false} TailTakesAByteIff(cap: nat)
    ensures TailTakesAByte(cap) <==> cap >= 32 && !(516 <= cap < 528)
    ensures TailTakesAByte(cap) <==> TailRoom(cap) >= 1 && TailBudget(cap) >= 15
  {
    assert ByteCost(48, 1) == 12;
    BudgetBounds(cap);
    if TailBudget(cap) >= 15 {
      forall b: bv8, wordLen: nat ensures 3 + ByteCost(b, wordLen) <= TailBudget(cap) { }
    }
  }

  lemma {:induction false} BudgetBounds(cap: nat)
    ensures TailBudget(cap) >= 15 && TailRoom(cap) >= 1 <==> cap >= 32 && !(516 <= cap < 528)
  {
    var t := TokCap(cap);
    var u := if t > 128 then t - 128 else t / 2;
    assert u * 12 * 2 / 3 == u * 8;
    assert TailBudget(cap) == u * 4;
  }

  /** What the marker line tells. */
  datatype Marker = Marker(
    newLine: bool, left: nat, total: nat, first: nat, last: nat, lines: nat, bytes: nat, saved: Option<Bytes>)

  function CountLines(d: Bytes): nat { CountNl(d) + if d != [] && d[|d| - 1] != NL then 1 else 0 }

  /** The marker of a cut from head to tail. */
  function MarkerFor(data: Bytes, head: nat, tail: nat, saved: Option<Bytes>): Marker
    requires head <= tail <= |data|
  {
    Marker(
      head > 0 && data[head - 1] != NL,
      (Cost(data[head..tail]) + 11) / 12, (Cost(data) + 11) / 12,
      LineOf(data, head), if tail > head then LineOf(data, tail - 1) else LineOf(data, head),
      CountLines(data), |data|, saved)
  }

  /** Its text as snprintf leaves it in its buffer. */
  function Printed(show: Marker -> Bytes, m: Marker): (t: Bytes)
    ensures |t| < MARKER_MAX
  {
    if |show(m)| < MARKER_MAX then show(m) else show(m)[..MARKER_MAX - 1]
  }

  method CountNlIn(d: Bytes) returns (n: nat)
    ensures n == CountNl(d)
  {
    n := 0;
    assert d[..|d|] == d;
    for i := 0 to |d|
      invariant n == CountNl(d[..i])
    {
      assert d[..i + 1][..i] == d[..i];
      n := n + if d[i] == NL then 1 else 0;
    }
  }

  /** The marker's lines are exactly those of the bytes left out. */
  lemma {:induction false} LinesLeftOut(data: Bytes, head: nat, tail: nat, saved: Option<Bytes>, n: nat)
    requires head < tail <= |data|
    ensures
      var m := MarkerFor(data, head, tail, saved);
      m.first <= n <= m.last <==> exists x: nat :: head <= x < tail && LineOf(data, x) == n
  {
    var m := MarkerFor(data, head, tail, saved);
    if m.first <= n <= m.last { LineMet(data, head, tail - 1, n); }
    forall x: nat | head <= x < tail ensures m.first <= LineOf(data, x) <= m.last {
      LineMono(data, head, x);
      LineMono(data, x, tail - 1);
    }
  }

  /** The output has as many lines as the number of its last byte's line, and the marker starts on a line of its own. */
  lemma {:induction false} MarkerCounts(data: Bytes, head: nat, tail: nat, saved: Option<Bytes>)
    requires head <= tail <= |data| && data != []
    ensures
      var m := MarkerFor(data, head, tail, saved);
      && m.lines == LineOf(data, |data| - 1) && m.bytes == |data| && m.saved == saved
      && (m.newLine <==> exists i: nat :: i < |data| && i + 1 == head && data[i] != NL)
  {
  }

  /** Where the head may end: within its budget, and within its room but for leading blanks. */
  ghost predicate HeadAt(data: Bytes, cap: nat, head: nat) {
    && head <= |data| && Cost(data[..head]) <= HeadBudget(cap)
    && (head <= HeadRoom(cap) || exists j: nat :: BlankRun(data, j) && head <= j)
  }

  /** How fit_head ends: behind the longest run of whole words that fits, trimmed, or inside the first word. */
  ghost predicate HeadChosen(d: Bytes, budget: nat, room: nat, end: nat) {
    exists words: nat, stop: nat :: HeadBy(d, budget, room, end, words, stop)
  }

  ghost predicate HeadBy(d: Bytes, budget: nat, room: nat, end: nat, words: nat, stop: nat) {
    && LongestHead(d, budget, room, words)
    && if words > 0 || d == [] then TrimmedHead(d, words, end)
       else
         && stop <= |d| && end == Floor(d, stop)
         && exists j: nat, k: nat :: BlankRun(d, j) && j <= k <= |d| && Solid(d[j..k]) && LongestPart(d, j, k, budget, room, stop)
  }

  /** How fit_tail begins: before the longest run of whole words that fits, trimmed, or inside the last word. */
  ghost predicate TailChosen(d: Bytes, behind: bv8, budget: nat, room: nat, start: nat) {
    exists words: nat, stop: nat :: TailBy(d, behind, budget, room, start, words, stop)
  }

  ghost predicate TailBy(d: Bytes, behind: bv8, budget: nat, room: nat, start: nat, words: nat, stop: nat) {
    && LongestTail(d, budget, room, words)
    && if words < |d| || d == [] then TrimmedTail(d, words, start)
       else exists k: nat, j: nat :: OneEnd(d, behind, k, j, budget, room, stop, start)
  }

  /** Whole words from the start that fit the head are kept, or at least more than half of their bytes. */
  lemma {:induction false} HeadKeepsHalf(d: Bytes, budget: nat, room: nat, end: nat, e: nat)
    requires HeadChosen(d, budget, room, end)
    requires e <= |d| && WordEnd(d, e) && e <= room && Cost(d[..e]) <= budget
    ensures 2 * end > e
  {
    var words: nat, stop: nat :| HeadBy(d, budget, room, end, words, stop);
    assert words >= e;
  }

  /** And so are whole words up to the end that fit the tail, at least half of their bytes. */
  lemma {:induction false} TailKeepsHalf(d: Bytes, behind: bv8, budget: nat, room: nat, start: nat, e: nat)
    requires TailChosen(d, behind, budget, room, start)
    requires e <= |d| && WordStart(d, e) && |d| - e <= room && Cost(d[e..]) <= budget
    ensures 2 * (|d| - start) >= |d| - e
  {
    var words: nat, stop: nat :| TailBy(d, behind, budget, room, start, words, stop);
    assert words <= e;
  }

  /**
    A proper place to cut, between characters, as far as cap and the blanks at either
    end allow; or, stray, with the last character alone as tail.
   */
  ghost predicate CutAt(data: Bytes, cap: nat, head: nat, tail: nat, stray: bool) {
    && HeadAt(data, cap, head) && head <= tail <= |data|
    && (Text(data) ==>
          && Boundary(data, head) && Boundary(data, tail)
          && if stray then 1 <= |data| - tail <= 4
             else
               && Cost(data[tail..]) <= TailBudget(cap) + WHOLE_CHAR
               && (|data| - tail <= TailRoom(cap) + 3 || BlankEnd(data[head..], tail - head)))
  }

  /** head is as fit_head chooses it for its share, and fit_tail leaves out left bytes of the rest for its own. */
  ghost predicate Chosen(data: Bytes, behind: bv8, cap: nat, head: nat, left: nat)
    requires head <= |data|
  {
    && HeadChosen(data, HeadBudget(cap), HeadRoom(cap), head)
    && TailChosen(data[head..], behind, TailBudget(cap), TailRoom(cap), left)
  }

  /** Cutting at head makes fit_tail read the byte behind the output. */
  ghost predicate CutLooks(data: Bytes, cap: nat, head: nat)
    requires head <= |data|
  {
    LooksBehind(data[head..], TailBudget(cap), TailRoom(cap))
  }

  lemma {:induction false} NeverLooks(data: Bytes, cap: nat, head: nat)
    requires TailTakesAByte(cap) && head <= |data|
    ensures !CutLooks(data, cap, head)
  {
  }

  /** The bytes behind the last blank. */
  function LastLen(d: Bytes): (n: nat)
    ensures n <= |d| && Solid(d[|d| - n..]) && (n < |d| ==> IsSpace(d[|d| - n - 1]))
    ensures d != [] && !IsSpace(d[|d| - 1]) ==> n > 0
  {
    if d == [] || IsSpace(d[|d| - 1]) then 0
    else
      var rest := d[..|d| - 1];
      var n := 1 + LastLen(rest);
      assert forall m | |d| - n <= m < |d| - 1 :: d[m] == rest[|rest| - (n - 1)..][m - (|d| - n)];
      n
  }

  lemma {:induction false} LastLenIsWord(d: Bytes)
    requires d != [] && !IsSpace(d[|d| - 1])
    ensures LastLen(d) > 0 && LastWord(d, |d| - LastLen(d), |d|)
  {
    var k := |d| - LastLen(d);
    assert d[k..|d|] == d[k..] && d[|d|..] == [];
  }

  lemma {:induction false} DigitLooks(d: Bytes, budget: nat, maxBytes: nat)
    requires d != [] && 48 <= d[|d| - 1] <= 57 && (budget < 15 || maxBytes == 0)
    ensures LooksBehind(d, budget, maxBytes)
  {
    LastLenIsWord(d);
    assert 3 + ByteCost(d[|d| - 1], LastLen(d)) == 15;
    assert LooksBehind(d, budget, maxBytes) by {
      var k := |d| - LastLen(d);
      assert k < |d| && LastWord(d, k, |d|);
    }
  }

  /** The head never takes in all of an output that is cut and begins with a word. */
  lemma {:induction false} HeadIsShort(data: Bytes, cap: nat, head: nat)
    requires !Fits(data, cap) && data != [] && !IsSpace(data[0]) && HeadAt(data, cap, head)
    ensures head < |data|
  {
    if head == |data| {
      assert data[..head] == data;
      NoBlankRun(data);
      HeadSmall(cap);
    }
  }

  lemma {:induction false} NoBlankRun(data: Bytes)
    requires data != [] && !IsSpace(data[0])
    ensures forall j: nat :: BlankRun(data, j) ==> j == 0
  {
    forall j: nat | j <= |data| && j != 0 ensures !Blank(data[..j]) { assert data[..j][0] == data[0]; }
  }

  lemma {:induction false} HeadSmall(cap: nat)
    ensures HeadRoom(cap) <= cap && (HeadBudget(cap) + 11) / 12 <= TokCap(cap)
  {
    var t := TokCap(cap);
    var u := if t > 128 then t - 128 else t / 2;
    assert u * 12 * 2 / 3 == u * 8;
  }

  /** With any other cap, every output that is cut, begins with a word and ends in a digit makes fit_tail look. */
  lemma {:induction false} DigitOutputLooks(data: Bytes, cap: nat, head: nat)
    requires !TailTakesAByte(cap) && !Fits(data, cap)
    requires data != [] && !IsSpace(data[0]) && 48 <= data[|data| - 1] <= 57
    requires HeadAt(data, cap, head)
    ensures CutLooks(data, cap, head)
  {
    TailTakesAByteIff(cap);
    HeadIsShort(data, cap, head);
    assert data[head..][|data| - head - 1] == data[|data| - 1];
    DigitLooks(data[head..], TailBudget(cap), TailRoom(cap));
  }

  /** One digit more than the cap, all zeros. */
  function Zeros(n: nat): (d: Bytes)
    ensures |d| == n && forall i | 0 <= i < n :: d[i] == 48
  {
    seq(n, i => 48)
  }

  /** An output that is cut, and makes fit_tail look wherever its head may end. */
  ghost predicate AlwaysLooks(data: Bytes, cap: nat) {
    !Fits(data, cap) && forall head: nat | HeadAt(data, cap, head) :: CutLooks(data, cap, head)
  }

  /**
    Some output makes fit_tail look at the byte behind its input exactly with a cap
    below 32 or from 516 to 527; with any other cap none does. With 516, say, 517
    zeros make it look.
   */
  lemma {:induction false} LooksBehindIff(cap: nat)
    ensures (exists data: Bytes :: AlwaysLooks(data, cap)) <==> cap < 32 || 516 <= cap < 528
    ensures (forall data: Bytes, head: nat | HeadAt(data, cap, head) :: !CutLooks(data, cap, head))
            <==> !(cap < 32 || 516 <= cap < 528)
  {
    TailTakesAByteIff(cap);
    if TailTakesAByte(cap) { GoodCapLooksNot(cap); } else { BadCapLooks(cap); }
  }

  lemma {:induction false} GoodCapLooksNot(cap: nat)
    requires TailTakesAByte(cap)
    ensures forall data: Bytes, head: nat | HeadAt(data, cap, head) :: !CutLooks(data, cap, head)
    ensures forall data: Bytes :: !AlwaysLooks(data, cap)
  {
    forall data: Bytes, head: nat | HeadAt(data, cap, head) ensures !CutLooks(data, cap, head) {
      NeverLooks(data, cap, head);
    }
    forall data: Bytes ensures !AlwaysLooks(data, cap) {
      NoHeadIsFine(data, cap);
      NeverLooks(data, cap, 0);
    }
  }

  lemma {:induction false} BadCapLooks(cap: nat)
    requires !TailTakesAByte(cap)
    ensures AlwaysLooks(Zeros(cap + 1), cap)
    ensures HeadAt(Zeros(cap + 1), cap, 0) && CutLooks(Zeros(cap + 1), cap, 0)
  {
    var data := Zeros(cap + 1);
    forall head: nat | HeadAt(data, cap, head) ensures CutLooks(data, cap, head) {
      DigitOutputLooks(data, cap, head);
    }
    NoHeadIsFine(data, cap);
  }

  lemma {:induction false} NoHeadIsFine(data: Bytes, cap: nat)
    ensures HeadAt(data, cap, 0)
  {
    assert data[..0] == [];
  }

  /** behind is the byte in memory behind the output. */
  method FindCut(data: Bytes, behind: bv8, cap: nat) returns (head: nat, left: nat, looked: bool)
    ensures CutAt(data, cap, head, head + left, looked && IsTail(behind)) && Chosen(data, behind, cap, head, left)
    ensures looked <==> CutLooks(data, cap, head)
    ensures Blank(data) && |data| > HeadRoom(cap) ==> head == |data|
  {
    head := FindHead(data, cap);
    left, looked := FindTail(data, behind, cap, head);
  }

  method FindHead(data: Bytes, cap: nat) returns (head: nat)
    ensures HeadAt(data, cap, head) && (Text(data) ==> Boundary(data, head))
    ensures HeadChosen(data, HeadBudget(cap), HeadRoom(cap), head)
    ensures Blank(data) && |data| > HeadRoom(cap) ==> head == |data|
  {
    ghost var w, s;
    head, w, s := FitHead(data, HeadBudget(cap), HeadRoom(cap));
    assert HeadBy(data, HeadBudget(cap), HeadRoom(cap), head, w, s);
  }

  lemma {:induction false} CutIsProper(data: Bytes, cap: nat, head: nat, t: nat, stray: bool)
    requires HeadAt(data, cap, head) && (Text(data) ==> Boundary(data, head)) && t <= |data| - head
    requires Text(data[head..]) ==> TailWithin(data[head..], TailBudget(cap), TailRoom(cap), t, stray)
    ensures CutAt(data, cap, head, head + t, stray)
  {
    if Text(data) {
      TextSplit(data, head);
      assert data[head..][t..] == data[head + t..];
      assert t < |data[head..]| ==> data[head..][t] == data[head + t];
    }
  }

  method TailOfRest(rest: Bytes, behind: bv8, budget: nat, room: nat) returns (t: nat, looked: bool)
    ensures t <= |rest| && (looked <==> LooksBehind(rest, budget, room)) && TailChosen(rest, behind, budget, room, t)
    ensures Text(rest) ==> TailWithin(rest, budget, room, t, looked && IsTail(behind))
  {
    ghost var w, s;
    t, looked, w, s := FitTail(rest, behind, budget, room);
    assert TailBy(rest, behind, budget, room, t, w, s);
  }

  method FindTail(data: Bytes, behind: bv8, cap: nat, head: nat) returns (t: nat, looked: bool)
    requires HeadAt(data, cap, head) && (Text(data) ==> Boundary(data, head))
    ensures t <= |data| - head && CutAt(data, cap, head, head + t, looked && IsTail(behind))
    ensures TailChosen(data[head..], behind, TailBudget(cap), TailRoom(cap), t)
    ensures looked <==> CutLooks(data, cap, head)
  {
    t, looked := TailOfRest(data[head..], behind, TailBudget(cap), TailRoom(cap));
    CutIsProper(data, cap, head, t, looked && IsTail(behind));
  }

  /**
    out is data cut to cap: its first head bytes, a marker, and what lies behind the
    left bytes that are left out. Blanks are free: output of blanks alone stays whole,
    with the marker behind it.
   */
  ghost predicate CutTo(data: Bytes, behind: bv8, cap: nat, saved: Option<Bytes>, show: Marker -> Bytes,
                        out: Bytes, looked: bool, head: nat, left: nat)
  {
    && CutAt(data, cap, head, head + left, looked && IsTail(behind))
    && Chosen(data, behind, cap, head, left) && (looked <==> CutLooks(data, cap, head))
    && out == Joined(data, head, head + left, Printed(show, MarkerFor(data, head, head + left, saved)))
    && (Blank(data) && |data| > HeadRoom(cap) ==>
          out == data + Printed(show, MarkerFor(data, |data|, |data|, saved)))
    && (looked ==> cap < 32 || 516 <= cap < 528)
  }

  /**
    cut_output; the spool's answer decides what the marker says of the full output.
    looked says whether the byte behind the output was read; where it was and is a
    continuation byte, the tail is the last character.
   */
  method Cut(data: Bytes, behind: bv8, cap: nat, saved: Option<Bytes>, show: Marker -> Bytes)
    returns (out: Bytes, looked: bool, ghost head: nat, ghost left: nat)
    ensures if Fits(data, cap) then out == data && !looked else CutTo(data, behind, cap, saved, show, out, looked, head, left)
  {
    var fits, total := Passes(data, cap);
    if fits {
      out, looked, head, left := data, false, 0, 0;
    } else {
      out, looked, head, left := CutLong(data, behind, cap, total, saved, show);
    }
  }

  method Passes(data: Bytes, cap: nat) returns (fits: bool, total: nat)
    ensures fits == Fits(data, cap) && total == (Cost(data) + 11) / 12
  {
    total := EstTokens(data);
    fits := |data| <= cap && total <= TokCap(cap);
  }

  method CutLong(data: Bytes, behind: bv8, cap: nat, total: nat, saved: Option<Bytes>, show: Marker -> Bytes)
    returns (out: Bytes, looked: bool, ghost head: nat, ghost left: nat)
    requires total == (Cost(data) + 11) / 12
    ensures CutTo(data, behind, cap, saved, show, out, looked, head, left)
  {
    var h, l;
    h, l, looked := FindCut(data, behind, cap);
    head, left := h, l;
    out := Assemble(data, h, l, total, saved, show);
    if looked { LookedCap(data, cap, h); }
  }

  lemma {:induction false} LookedCap(data: Bytes, cap: nat, head: nat)
    requires head <= |data| && CutLooks(data, cap, head)
    ensures cap < 32 || 516 <= cap < 528
  {
    TailTakesAByteIff(cap);
  }

  /** Head, marker and tail in one buffer. */
  method Assemble(data: Bytes, head: nat, left: nat, total: nat, saved: Option<Bytes>, show: Marker -> Bytes)
    returns (out: Bytes)
    requires head + left <= |data| && total == (Cost(data) + 11) / 12
    ensures out == Joined(data, head, head + left, Printed(show, MarkerFor(data, head, head + left, saved)))
    ensures head == |data| ==> out == data + Printed(show, MarkerFor(data, |data|, |data|, saved))
  {
    var m := MakeMarker(data, head, head + left, total, saved);
    out := Joined(data, head, head + left, Printed(show, m));
    if head == |data| { AllKept(data, Printed(show, m)); }
  }

  /** Head, marker and tail. */
  function Joined(data: Bytes, head: nat, tail: nat, marker: Bytes): Bytes
    requires head <= tail <= |data|
  {
    data[..head] + marker + data[tail..]
  }

  lemma {:induction false} AllKept(data: Bytes, marker: Bytes)
    ensures Joined(data, |data|, |data|, marker) == data + marker
  {
    assert data[..|data|] == data && data[|data|..] == [];
  }

  /** The numbers of the marker, counted as cut_output counts them. */
  method MakeMarker(data: Bytes, head: nat, tail: nat, total: nat, saved: Option<Bytes>) returns (m: Marker)
    requires head <= tail <= |data| && total == (Cost(data) + 11) / 12
    ensures m == MarkerFor(data, head, tail, saved)
  {
    var nl := CountNlIn(data);
    var lines := nl + if |data| > 0 && data[|data| - 1] != NL then 1 else 0;
    var before := CountNlIn(data[..head]);
    var first := before + 1;
    var last := first;
    if tail > head {
      var upTo := CountNlIn(data[..tail - 1]);
      last := upTo + 1;
    }
    var left := EstTokens(data[head..tail]);
    m := Marker(head > 0 && data[head - 1] != NL, left, total, first, last, lines, |data|, saved);
  }

  /** With no long blanks at the ends the whole keeps to its cap, but for the rest of one character. */
  lemma {:induction false} CutKeepsToCap(data: Bytes, cap: nat, head: nat, tail: nat, marker: nat)
    requires cap > MARKER_MAX && Text(data) && CutAt(data, cap, head, tail, false) && marker < MARKER_MAX
    requires forall j: nat :: BlankRun(data, j) ==> j <= HeadRoom(cap)
    requires forall j: nat :: BlankEnd(data[head..], j) ==> |data| - head - j <= TailRoom(cap)
    ensures head + marker + (|data| - tail) <= cap + 2
  {
  }
}
