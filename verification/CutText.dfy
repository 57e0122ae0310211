/**
  Text as cut_output measures it: spaces and words, what a word costs in twelfths
  of a token, where characters begin, and what lies on which line.
 */
module CutText {
  import opened Utf8

  type Bytes = seq<bv8>

  const NL: bv8 := 10

  predicate IsSpace(b: bv8) { b == 32 || 9 <= b <= 13 }

  predicate Blank(d: Bytes) { forall i | 0 <= i < |d| :: IsSpace(d[i]) }

  predicate Solid(d: Bytes) { forall i | 0 <= i < |d| :: !IsSpace(d[i]) }

  function ByteCost(b: bv8, wordLen: nat): (c: nat)
    ensures 3 <= c <= 12
  {
    if 48 <= b <= 57 then 12
    else if wordLen >= 32 then 8
    else if b >= 0x80 then 5
    else if 97 <= b <= 122 || 65 <= b <= 90 then 3
    else 6
  }

  predicate IsDigit(b: bv8) { 48 <= b <= 57 }

  predicate IsLetter(b: bv8) { 65 <= b <= 90 || 97 <= b <= 122 }

  /** By class of byte, in twelfths of a token: a digit is a token; long words are dear, letters cheap. */
  lemma {:induction false} ByteCosts(b: bv8, wordLen: nat)
    ensures ByteCost(b, wordLen) == 12 <==> IsDigit(b)
    ensures ByteCost(b, wordLen) == 8 <==> !IsDigit(b) && wordLen >= 32
    ensures ByteCost(b, wordLen) == 5 <==> !IsDigit(b) && wordLen < 32 && b >= 0x80
    ensures ByteCost(b, wordLen) == 3 <==> IsLetter(b) && wordLen < 32
    ensures ByteCost(b, wordLen) == 6 <==> !IsDigit(b) && !IsLetter(b) && b < 0x80 && wordLen < 32
  {
  }

  /** What the bytes of w cost as part of a word of the given length. */
  function PartCost(w: Bytes, wordLen: nat): nat {
    if w == [] then 0 else PartCost(w[..|w| - 1], wordLen) + ByteCost(w[|w| - 1], wordLen)
  }

  /** word_cost. */
  function WordCost(w: Bytes): nat { 3 + PartCost(w, |w|) }

  /** Words of one class: letters come at four to a token, digits at one, and each word at a quarter more. */
  lemma {:induction false} PlainWordCosts(w: Bytes)
    ensures (forall i | 0 <= i < |w| :: IsLetter(w[i])) && |w| < 32 ==> WordCost(w) == 3 + 3 * |w|
    ensures (forall i | 0 <= i < |w| :: IsDigit(w[i])) ==> WordCost(w) == 3 + 12 * |w|
  {
    if forall i | 0 <= i < |w| :: IsLetter(w[i]) { if |w| < 32 { SameCost(w, |w|, 3); } }
    if forall i | 0 <= i < |w| :: IsDigit(w[i]) { SameCost(w, |w|, 12); }
  }

  lemma {:induction false} SameCost(w: Bytes, wordLen: nat, c: nat)
    requires forall i | 0 <= i < |w| :: ByteCost(w[i], wordLen) == c
    ensures PartCost(w, wordLen) == c * |w|
  {
    if w != [] { SameCost(w[..|w| - 1], wordLen, c); }
  }

  /** Leading bytes that are no spaces. */
  function WordLen(d: Bytes): (n: nat)
    ensures n <= |d| && Solid(d[..n]) && (n < |d| ==> IsSpace(d[n]))
    ensures d != [] && !IsSpace(d[0]) ==> n > 0
  {
    if d == [] || IsSpace(d[0]) then 0
    else
      var n := 1 + WordLen(d[1..]);
      assert forall i | 0 < i < n :: d[i] == d[1..][i - 1];
      n
  }

  /** The cost of a text: its words', spaces are free. */
  function Cost(d: Bytes): nat {
    if d == [] then 0
    else if IsSpace(d[0]) then Cost(d[1..])
    else WordCost(d[..WordLen(d)]) + Cost(d[WordLen(d)..])
  }

  lemma {:induction false} WordLenIs(d: Bytes, n: nat)
    requires n <= |d| && Solid(d[..n]) && (n < |d| ==> IsSpace(d[n]))
    ensures WordLen(d) == n
  {
    var m := WordLen(d);
    forall i | 0 <= i < n ensures !IsSpace(d[i]) { assert d[..n][i] == d[i]; }
    forall i | 0 <= i < m ensures !IsSpace(d[i]) { assert d[..m][i] == d[i]; }
  }

  lemma {:induction false} PartCostMono(w: Bytes, shorter: nat, longer: nat)
    requires shorter <= longer
    ensures PartCost(w, shorter) <= PartCost(w, longer)
  {
    if w != [] { PartCostMono(w[..|w| - 1], shorter, longer); }
  }

  lemma {:induction false} PartCostConcat(a: Bytes, b: Bytes, wordLen: nat)
    ensures PartCost(a + b, wordLen) == PartCost(a, wordLen) + PartCost(b, wordLen)
    decreases |b|
  {
    if b == [] {
      assert a + b == a;
    } else {
      assert (a + b)[..|a + b| - 1] == a + b[..|b| - 1];
      PartCostConcat(a, b[..|b| - 1], wordLen);
    }
  }

  /** A part of a word costs no more alone than within it. */
  lemma {:induction false} SliceCost(w: Bytes, i: nat, j: nat)
    requires i <= j <= |w|
    ensures PartCost(w[i..j], j - i) <= PartCost(w[i..j], |w|) <= PartCost(w, |w|)
  {
    PartCostMono(w[i..j], j - i, |w|);
    assert w == w[..i] + w[i..j] + w[j..];
    PartCostConcat(w[..i] + w[i..j], w[j..], |w|);
    PartCostConcat(w[..i], w[i..j], |w|);
  }

  lemma {:induction false} SolidCost(w: Bytes)
    requires Solid(w)
    ensures Cost(w) == if w == [] then 0 else WordCost(w)
  {
    if w != [] {
      assert w[..|w|] == w && w[|w|..] == [];
      WordLenIs(w, |w|);
    }
  }

  lemma {:induction false} BlankCost(d: Bytes)
    requires Blank(d)
    ensures Cost(d) == 0
  {
    if d != [] { BlankCost(d[1..]); }
  }

  lemma {:induction false} BlanksFree(a: Bytes, b: Bytes)
    requires Blank(a)
    ensures Cost(a + b) == Cost(b)
  {
    if a == [] {
      assert a + b == b;
    } else {
      assert (a + b)[1..] == a[1..] + b;
      BlanksFree(a[1..], b);
    }
  }

  /** Costs add up where a space separates. */
  lemma {:induction false} CostConcat(a: Bytes, b: Bytes)
    requires b == [] || IsSpace(b[0])
    ensures Cost(a + b) == Cost(a) + Cost(b)
    decreases |a|
  {
    if a == [] {
      assert a + b == b;
    } else if IsSpace(a[0]) {
      assert (a + b)[1..] == a[1..] + b;
      CostConcat(a[1..], b);
    } else {
      var n := WordLen(a);
      assert (a + b)[..n] == a[..n] && (a + b)[n..] == a[n..] + b;
      WordLenIs(a + b, n);
      CostConcat(a[n..], b);
    }
  }

  /** A word in front of what starts with a space, or nothing. */
  lemma {:induction false} CostOfWordThen(w: Bytes, rest: Bytes)
    requires Solid(w) && w != [] && (rest == [] || IsSpace(rest[0]))
    ensures Cost(w + rest) == WordCost(w) + Cost(rest)
  {
    CostConcat(w, rest);
    SolidCost(w);
  }

  lemma {:induction false} HeadOfWord(d: Bytes, n: nat, p: nat)
    requires p <= n <= |d| && Solid(d[..n])
    ensures Cost(d[..p]) <= WordCost(d[..n])
  {
    assert d[..p] == d[..n][0..p];
    SliceCost(d[..n], 0, p);
    SolidCost(d[..p]);
  }

  lemma {:induction false} HeadOfWords(d: Bytes, n: nat, p: nat)
    requires 0 < n < p <= |d| && Solid(d[..n]) && IsSpace(d[n])
    ensures Cost(d[..p]) == WordCost(d[..n]) + Cost(d[n..][..p - n])
  {
    assert d[n..][..p - n][0] == d[n];
    CostOfWordThen(d[..n], d[n..][..p - n]);
    assert d[..p] == d[..n] + d[n..][..p - n];
  }

  /** A head costs no more than the whole. */
  lemma {:induction false} HeadCost(d: Bytes, p: nat)
    requires p <= |d|
    ensures Cost(d[..p]) <= Cost(d)
    decreases |d|
  {
    if p == 0 {
      assert d[..0] == [];
    } else if IsSpace(d[0]) {
      HeadCost(d[1..], p - 1);
      assert d[..p][1..] == d[1..][..p - 1];
    } else {
      var n := WordLen(d);
      if p <= n {
        HeadOfWord(d, n, p);
      } else {
        HeadCost(d[n..], p - n);
        HeadOfWords(d, n, p);
      }
    }
  }

  lemma {:induction false} TailOfWord(d: Bytes, p: nat, n: nat)
    requires p < n <= |d| && Solid(d[..n]) && (n < |d| ==> IsSpace(d[n]))
    ensures Cost(d[p..]) <= WordCost(d[..n]) + Cost(d[n..])
  {
    assert d[p..n] == d[..n][p..n];
    SliceCost(d[..n], p, n);
    assert d[p..] == d[p..n] + d[n..];
    CostOfWordThen(d[p..n], d[n..]);
  }

  /** So does a tail. */
  lemma {:induction false} TailCost(d: Bytes, p: nat)
    requires p <= |d|
    ensures Cost(d[p..]) <= Cost(d)
    decreases |d|
  {
    if p == 0 {
      assert d[0..] == d;
    } else if IsSpace(d[0]) {
      TailCost(d[1..], p - 1);
      assert d[p..] == d[1..][p - 1..];
    } else {
      var n := WordLen(d);
      if p < n {
        TailOfWord(d, p, n);
      } else {
        TailCost(d[n..], p - n);
        assert d[p..] == d[n..][p - n..];
      }
    }
  }

  // ------------------------------------------------------------- characters

  /** A byte a cut may stand before: no continuation byte. */
  predicate Boundary(d: Bytes, p: nat)
    requires p <= |d|
  {
    p == |d| || !IsTail(d[p])
  }

  /** The length find_binary_offset expects behind a lead byte; None for a byte that opens no text. */
  function Need(b: bv8): (n: int)
    ensures -1 <= n <= 3
  {
    if b == 0 then -1
    else if b < 0x80 then 0
    else if 0xC0 <= b <= 0xDF then 1
    else if 0xE0 <= b <= 0xEF then 2
    else if 0xF0 <= b <= 0xF7 then 3
    else -1
  }

  predicate Tails(d: Bytes, n: nat)
    requires n < |d|
  {
    forall k | 1 <= k <= n :: IsTail(d[k])
  }

  /** find_binary_offset, as a definition. */
  function BinaryOffset(d: Bytes): (n: nat)
    ensures n <= |d|
  {
    if d == [] then 0
    else
      var need := Need(d[0]);
      if need < 0 || need >= |d| || !Tails(d, need) then 0 else need + 1 + BinaryOffset(d[need + 1..])
  }

  /** Characters as that check sees them, one after another. */
  predicate Text(d: Bytes) {
    d == [] || (0 <= Need(d[0]) < |d| && Tails(d, Need(d[0])) && Text(d[Need(d[0]) + 1..]))
  }

  lemma {:induction false} TextIffNoOffset(d: Bytes)
    ensures BinaryOffset(d) == |d| <==> Text(d)
  {
    if d != [] && 0 <= Need(d[0]) < |d| && Tails(d, Need(d[0])) { TextIffNoOffset(d[Need(d[0]) + 1..]); }
  }

  lemma {:induction false} SliceBoth(d: Bytes, n: nat, p: nat)
    requires n <= p <= |d|
    ensures d[..p][n..] == d[n..][..p - n]
  {
  }

  /** One character in front of text is text. */
  lemma {:induction false} TextCons(d: Bytes, n: nat, p: nat)
    requires d != [] && n == Need(d[0]) + 1 && 1 <= n <= p <= |d| && Tails(d, n - 1)
    ensures Text(d[n..][..p - n]) <==> Text(d[..p])
  {
    SliceBoth(d, n, p);
    SameFirst(d[..p], d, n);
    TextFront(d[..p], n);
  }

  lemma {:induction false} TextFront(t: Bytes, n: nat)
    requires t != [] && n == Need(t[0]) + 1 && 1 <= n <= |t| && Tails(t, n - 1)
    ensures Text(t) <==> Text(t[n..])
  {
  }

  lemma {:induction false} SameFirst(t: Bytes, d: Bytes, n: nat)
    requires t <= d && 1 <= n <= |t| && n == Need(d[0]) + 1 && Tails(d, n - 1)
    ensures t[0] == d[0] && Tails(t, n - 1)
  {
  }

  /** No longer head of d is text. */
  lemma {:induction false} NoTextBehindOffset(d: Bytes, p: nat)
    requires p <= |d| && Text(d[..p])
    ensures p <= BinaryOffset(d)
    decreases |d|
  {
    if p > 0 {
      FirstOfHead(d, p);
      var n := Need(d[0]) + 1;
      TextCons(d, n, p);
      NoTextBehindOffset(d[n..], p - n);
    }
  }

  lemma {:induction false} FirstOfHead(d: Bytes, p: nat)
    requires 0 < p <= |d| && Text(d[..p])
    ensures 0 <= Need(d[0]) < p && Tails(d, Need(d[0]))
  {
    var t := d[..p];
    assert t[0] == d[0];
    forall k | 1 <= k <= Need(d[0]) ensures IsTail(d[k]) { assert t[k] == d[k]; }
  }

  /** A boundary of text does not lie inside its first character. */
  lemma {:induction false} BoundaryBehindFirst(d: Bytes, p: nat)
    requires Text(d) && 0 < p <= |d| && Boundary(d, p)
    ensures p > Need(d[0]) && Boundary(d[Need(d[0]) + 1..], p - Need(d[0]) - 1)
  {
  }

  /** Text may be parted at any boundary. */
  lemma {:induction false} TextSplit(d: Bytes, p: nat)
    requires Text(d) && p <= |d| && Boundary(d, p)
    ensures Text(d[..p]) && Text(d[p..])
    decreases |d|
  {
    if p == 0 {
      assert d[0..] == d && d[..0] == [];
    } else {
      BoundaryBehindFirst(d, p);
      var n := Need(d[0]) + 1;
      TextSplit(d[n..], p - n);
      TextCons(d, n, p);
      assert d[p..] == d[n..][p - n..];
    }
  }

  /** In text a boundary follows every one-byte character. */
  lemma {:induction false} TextBoundaries(d: Bytes, p: nat)
    requires Text(d) && p < |d|
    ensures d[p] < 0x80 ==> Boundary(d, p + 1)
    ensures p == 0 ==> Boundary(d, 0)
    decreases |d|
  {
    var n := Need(d[0]) + 1;
    if p < n {
      if n < |d| {
        TextBoundaries(d[n..], 0);
        assert d[n] == d[n..][0];
      }
    } else {
      TextBoundaries(d[n..], p - n);
      assert p + 1 < |d| ==> d[n..][p - n + 1] == d[p + 1];
      assert d[n..][p - n] == d[p];
    }
  }

  /** No four continuation bytes stand in a row: the nearest boundary before p. */
  lemma {:induction false} NearBoundary(d: Bytes, p: nat) returns (q: nat)
    requires Text(d) && p < |d|
    ensures q <= p <= q + 3 && Boundary(d, q)
    decreases |d|
  {
    var n := Need(d[0]) + 1;
    if p < n {
      q := 0;
      TextBoundaries(d, 0);
    } else {
      q := NearBoundary(d[n..], p - n);
      assert d[n..][q] == d[n + q];
      q := q + n;
    }
  }

  lemma {:induction false} SpaceIsShort(b: bv8)
    ensures IsSpace(b) ==> b < 0x80 && !IsTail(b)
  {
  }

  // ------------------------------------------------------------------ lines

  function CountNl(d: Bytes): nat {
    if d == [] then 0 else CountNl(d[..|d| - 1]) + if d[|d| - 1] == NL then 1 else 0
  }

  /** The line byte p of d is on. */
  function LineOf(d: Bytes, p: nat): nat
    requires p <= |d|
  {
    CountNl(d[..p]) + 1
  }

  lemma {:induction false} LineStep(d: Bytes, p: nat)
    requires p < |d|
    ensures LineOf(d, p + 1) == LineOf(d, p) + if d[p] == NL then 1 else 0
  {
    assert d[..p + 1][..p] == d[..p];
  }

  lemma {:induction false} LineMono(d: Bytes, p: nat, q: nat)
    requires p <= q <= |d|
    ensures LineOf(d, p) <= LineOf(d, q)
    decreases q - p
  {
    if p < q {
      LineStep(d, p);
      LineMono(d, p + 1, q);
    }
  }

  /** Lines from that of byte p to that of byte q are all met between them. */
  lemma {:induction false} LineMet(d: Bytes, p: nat, q: nat, n: nat)
    requires p <= q < |d| && LineOf(d, p) <= n <= LineOf(d, q)
    ensures exists x: nat :: p <= x <= q && LineOf(d, x) == n
    decreases q - p
  {
    if LineOf(d, p) < n {
      LineStep(d, p);
      LineMet(d, p + 1, q, n);
    }
  }
}
