/**
  UTF-8 as the conversation history enforces it: recognising one sequence,
  replacing every bad byte by U+FFFD, and cutting long content on a character
  boundary.
 */
module Utf8 {

  const MAX_CONTENT: nat := 65535  // UINT16_MAX
  const REPLACEMENT: seq<bv8> := [0xEF, 0xBF, 0xBD]  // U+FFFD

  predicate IsTail(b: bv8) { 0x80 <= b <= 0xBF }

  /** One character as the ABNF of section 4 of RFC 3629 spells it. */
  predicate IsUtf8Char(c: seq<bv8>) {
    match |c|
    case 1 => c[0] <= 0x7F
    case 2 => 0xC2 <= c[0] <= 0xDF && IsTail(c[1])
    case 3 =>
      && IsTail(c[2])
      && (|| (c[0] == 0xE0 && 0xA0 <= c[1] <= 0xBF)
          || (0xE1 <= c[0] <= 0xEC && IsTail(c[1]))
          || (c[0] == 0xED && 0x80 <= c[1] <= 0x9F)
          || (0xEE <= c[0] <= 0xEF && IsTail(c[1])))
    case 4 =>
      && IsTail(c[2]) && IsTail(c[3])
      && (|| (c[0] == 0xF0 && 0x90 <= c[1] <= 0xBF)
          || (0xF1 <= c[0] <= 0xF3 && IsTail(c[1]))
          || (c[0] == 0xF4 && 0x80 <= c[1] <= 0x8F))
    case _ => false
  }

  /** The length of the character a lead byte opens; the first octet decides it. */
  function LeadLen(b: bv8): (n: nat)
    ensures 1 <= n <= 4
  {
    if b <= 0x7F then 1 else if b <= 0xDF then 2 else if b <= 0xEF then 3 else 4
  }

  /** UTF8-octets = *( UTF8-char ), section 4 of RFC 3629. */
  ghost predicate WellFormed(s: seq<bv8>)
    decreases |s|
  {
    s == [] ||
    (var n := LeadLen(s[0]); n <= |s| && IsUtf8Char(s[..n]) && WellFormed(s[n..]))
  }

  /** Length of the valid sequence at the start of s, or 0 (utf8_seq). */
  function Utf8Seq(s: seq<bv8>): (n: nat)
    requires s != []
    ensures n <= |s|
  {
    if s[0] < 0x80 then 1
    else
      var need :=
        if (s[0] & 0xE0) == 0xC0 && s[0] >= 0xC2 then 1
        else if (s[0] & 0xF0) == 0xE0 then 2
        else if (s[0] & 0xF8) == 0xF0 && s[0] <= 0xF4 then 3
        else 0;
      if need == 0 || need >= |s| then 0
      else if exists k | 1 <= k <= need :: (s[k] & 0xC0) != 0x80 then 0
      else if || (s[0] == 0xE0 && s[1] < 0xA0) || (s[0] == 0xED && s[1] > 0x9F)
              || (s[0] == 0xF0 && s[1] < 0x90) || (s[0] == 0xF4 && s[1] > 0x8F) then 0
      else need + 1
  }

  lemma {:induction false} MaskFacts(b: bv8)
    ensures (b & 0xC0) == 0x80 <==> IsTail(b)
    ensures (b & 0xE0) == 0xC0 <==> 0xC0 <= b <= 0xDF
    ensures (b & 0xF0) == 0xE0 <==> 0xE0 <= b <= 0xEF
    ensures (b & 0xF8) == 0xF0 <==> 0xF0 <= b <= 0xF7
  {
  }

  /** utf8_seq accepts exactly the well-formed characters, and finds the only one there is. */
  lemma {:induction false} Utf8SeqExact(s: seq<bv8>, n: nat)
    requires s != [] && 1 <= n <= |s|
    ensures Utf8Seq(s) == n <==> IsUtf8Char(s[..n])
  {
    MaskFacts(s[0]);
    forall k | 1 <= k < 4 && k < |s| ensures (s[k] & 0xC0) == 0x80 <==> IsTail(s[k]) {
      MaskFacts(s[k]);
    }
  }

  // ---------------------------------------------------------------- repair

  /** How many bytes of s belong to no valid sequence. */
  ghost function Bad(s: seq<bv8>): nat
    decreases |s|
  {
    if s == [] then 0
    else if Utf8Seq(s) == 0 then 1 + Bad(s[1..])
    else Bad(s[Utf8Seq(s)..])
  }

  /** s with each bad byte replaced. */
  ghost function Repaired(s: seq<bv8>): seq<bv8>
    decreases |s|
  {
    if s == [] then []
    else if Utf8Seq(s) == 0 then REPLACEMENT + Repaired(s[1..])
    else s[..Utf8Seq(s)] + Repaired(s[Utf8Seq(s)..])
  }

  /** The counting pass of utf8_repair. */
  method CountBad(s: seq<bv8>) returns (bad: nat)
    ensures bad == Bad(s)
  {
    var i := 0;
    bad := 0;
    while i < |s|
      invariant 0 <= i <= |s|
      invariant bad + Bad(s[i..]) == Bad(s)
    {
      var n := Utf8Seq(s[i..]);
      BadStep(s, i);
      bad := if n == 0 then bad + 1 else bad;
      i := if n == 0 then i + 1 else i + n;
    }
  }

  lemma {:induction false} BadStep(s: seq<bv8>, i: nat)
    requires i < |s|
    ensures var n := Utf8Seq(s[i..]); Bad(s[i..]) == if n == 0 then 1 + Bad(s[i + 1..]) else Bad(s[i + n..])
  {
    var n := Utf8Seq(s[i..]);
    assert s[i..][1..] == s[i + 1..] && s[i..][n..] == s[i + n..];
  }

  lemma {:induction false} RepairedStep(s: seq<bv8>, i: nat)
    requires i < |s|
    ensures var n := Utf8Seq(s[i..]);
            Repaired(s[i..]) == if n == 0 then REPLACEMENT + Repaired(s[i + 1..]) else s[i..i + n] + Repaired(s[i + n..])
  {
    var t := s[i..];
    var n := Utf8Seq(t);
    assert t[1..] == s[i + 1..];
    assert t[n..] == s[i + n..] && t[..n] == s[i..i + n];
  }

  /**
    utf8_repair: the counting pass sizes the buffer, a second pass fills it. Null
    when the input is valid as it is.
   */
  method Utf8Repair(s: seq<bv8>) returns (out: array?<bv8>, outLen: nat)
    ensures out == null <==> Bad(s) == 0
    ensures out != null ==>
      && fresh(out) && out.Length == |s| + 2 * Bad(s) + 1
      && outLen == |s| + 2 * Bad(s)
      && out[..outLen] == Repaired(s) && out[outLen] == 0
  {
    out, outLen := null, 0;
    var bad := CountBad(s);
    if bad == 0 {
      return;
    }
    RepairedLen(s);
    out := new bv8[|s| + bad * 2 + 1];
    var i, p := 0, 0;
    while i < |s|
      invariant 0 <= i <= |s| && 0 <= p
      invariant p + |Repaired(s[i..])| == |Repaired(s)|
      invariant out[..p] + Repaired(s[i..]) == Repaired(s)
    {
      i, p := EmitOne(s, i, out, p);
    }
    out[p] := 0;
    outLen := p;
    assert s[i..] == [];
  }

  /** One turn of the second pass: a bad byte's replacement, or a whole sequence. */
  method EmitOne(s: seq<bv8>, i: nat, out: array<bv8>, p: nat) returns (next: nat, q: nat)
    requires i < |s| && p + |Repaired(s[i..])| <= out.Length
    modifies out
    ensures i < next <= |s| && q + |Repaired(s[next..])| == p + |Repaired(s[i..])|
    ensures out[..q] + Repaired(s[next..]) == old(out[..p]) + Repaired(s[i..])
  {
    var n := Utf8Seq(s[i..]);
    RepairedStep(s, i);
    var chunk := if n == 0 then REPLACEMENT else s[i..i + n];
    next := if n == 0 then i + 1 else i + n;
    q := EmitChunk(out, p, chunk, Repaired(s[next..]), Repaired(s[i..]));
  }

  /** The text so far, chunk, and the rest. */
  method EmitChunk(out: array<bv8>, p: nat, chunk: seq<bv8>, ghost rest: seq<bv8>, ghost all: seq<bv8>) returns (q: nat)
    requires all == chunk + rest && p + |all| <= out.Length
    modifies out
    ensures q + |rest| == p + |all| && out[..q] + rest == old(out[..p]) + all
  {
    EmitStep(out[..p], chunk, rest, all);
    CopyInto(out, p, chunk);
    q := p + |chunk|;
  }

  lemma {:induction false} EmitStep(before: seq<bv8>, chunk: seq<bv8>, rest: seq<bv8>, all: seq<bv8>)
    requires all == chunk + rest
    ensures before + all == (before + chunk) + rest
  {
  }

  /** memcpy of chunk to out + p. */
  method CopyInto(out: array<bv8>, p: nat, chunk: seq<bv8>)
    requires p + |chunk| <= out.Length
    modifies out
    ensures out[..p + |chunk|] == old(out[..p]) + chunk
  {
    forall k | 0 <= k < |chunk| { out[p + k] := chunk[k]; }
  }

  lemma {:induction false} RepairedLen(s: seq<bv8>)
    ensures |Repaired(s)| == |s| + 2 * Bad(s)
    decreases |s|
  {
    if s != [] {
      if Utf8Seq(s) == 0 { RepairedLen(s[1..]); } else { RepairedLen(s[Utf8Seq(s)..]); }
    }
  }

  lemma {:induction false} LeadLenOf(c: seq<bv8>)
    requires IsUtf8Char(c)
    ensures LeadLen(c[0]) == |c| && !IsTail(c[0])
  {
  }

  lemma {:induction false} WellFormedCons(c: seq<bv8>, rest: seq<bv8>)
    requires IsUtf8Char(c) && WellFormed(rest)
    ensures WellFormed(c + rest)
  {
    LeadLenOf(c);
    assert (c + rest)[..|c|] == c && (c + rest)[|c|..] == rest;
  }

  /** What repair leaves is always well formed. */
  lemma {:induction false} RepairedWellFormed(s: seq<bv8>)
    ensures WellFormed(Repaired(s))
    decreases |s|
  {
    if s != [] {
      var n := Utf8Seq(s);
      var rest := if n == 0 then s[1..] else s[n..];
      var c := if n == 0 then REPLACEMENT else s[..n];
      RepairedWellFormed(rest);
      if n > 0 { Utf8SeqExact(s, n); }
      WellFormedCons(c, Repaired(rest));
    }
  }

  /** A string is left alone exactly when it was well formed. */
  lemma {:induction false} BadZeroIffWellFormed(s: seq<bv8>)
    ensures Bad(s) == 0 <==> WellFormed(s)
    ensures Bad(s) == 0 ==> Repaired(s) == s
    decreases |s|
  {
    if s != [] {
      WellFormedFront(s);
      if Utf8Seq(s) > 0 { BadZeroIffWellFormed(s[Utf8Seq(s)..]); }
    }
  }

  lemma {:induction false} WellFormedFront(s: seq<bv8>)
    requires s != []
    ensures WellFormed(s) <==> Utf8Seq(s) > 0 && WellFormed(s[Utf8Seq(s)..])
  {
    var n, k := Utf8Seq(s), LeadLen(s[0]);
    if k <= |s| { Utf8SeqExact(s, k); }
    if n > 0 {
      Utf8SeqExact(s, n);
      LeadLenOf(s[..n]);
    }
  }

  lemma {:induction false} GoodIsKept(a: seq<bv8>, t: seq<bv8>)
    requires WellFormed(a)
    ensures Repaired(a + t) == a + Repaired(t)
    decreases |a|
  {
    if a == [] {
      assert a + t == t;
    } else {
      var n := FirstChar(a);
      assert (a + t)[..n] == a[..n] && (a + t)[n..] == a[n..] + t;
      Utf8SeqExact(a + t, n);
      GoodIsKept(a[n..], t);
      EmitStep(a[..n], a[n..], Repaired(t), a[n..] + Repaired(t));
      assert a[..n] + a[n..] == a;
    }
  }

  /** Behind well-formed text, a byte that opens no character becomes U+FFFD, and repair goes on with the next byte. */
  lemma {:induction false} BadByteReplaced(a: seq<bv8>, b: bv8, rest: seq<bv8>)
    requires WellFormed(a) && forall n | 1 <= n <= 1 + |rest| :: !IsUtf8Char(([b] + rest)[..n])
    ensures Repaired(a + ([b] + rest)) == a + [0xEF, 0xBF, 0xBD] + Repaired(rest)
  {
    var t := [b] + rest;
    GoodIsKept(a, t);
    assert t[1..] == rest;
    if Utf8Seq(t) > 0 { Utf8SeqExact(t, Utf8Seq(t)); }
    EmitStep(a, REPLACEMENT, Repaired(rest), Repaired(t));
  }

  // ------------------------------------------------------------ truncation

  /** Back up from k while s[k] is a continuation byte. */
  ghost function CutBack(s: seq<bv8>, k: nat): (t: nat)
    requires k < |s|
    ensures t <= k
  {
    if k > 0 && IsTail(s[k]) then CutBack(s, k - 1) else k
  }

  lemma {:induction false} CutBackShift(s: seq<bv8>, n: nat, k: nat)
    requires n <= k < |s| && !IsTail(s[n])
    ensures CutBack(s, k) == n + CutBack(s[n..], k - n)
    decreases k
  {
    if k > n && IsTail(s[k]) { CutBackShift(s, n, k - 1); }
  }

  /** In well-formed text the cut lands on a character boundary, at most three bytes back. */
  lemma {:induction false} CutBackOnBoundary(s: seq<bv8>, k: nat)
    requires WellFormed(s) && k < |s|
    ensures k - CutBack(s, k) <= 3
    ensures WellFormed(s[..CutBack(s, k)]) && WellFormed(s[CutBack(s, k)..])
  {
    Lands(s, k);
  }

  /** Where a cut is allowed. */
  ghost predicate SplitsAt(s: seq<bv8>, t: nat) { t <= |s| && WellFormed(s[..t]) && WellFormed(s[t..]) }

  lemma {:induction false} Lands(s: seq<bv8>, k: nat)
    requires WellFormed(s) && k < |s|
    ensures Landed(s, k)
    decreases |s|
  {
    var n := FirstChar(s);
    if k < n {
      LandsInside(s, n, k);
    } else {
      Lands(s[n..], k - n);
      LandsOnward(s, n, k);
    }
  }

  ghost predicate Landed(s: seq<bv8>, k: nat)
    requires k < |s|
  {
    k - CutBack(s, k) <= 3 && SplitsAt(s, CutBack(s, k))
  }

  lemma {:induction false} LandsInside(s: seq<bv8>, n: nat, k: nat)
    requires WellFormed(s) && 1 <= n <= 4 && n <= |s| && IsUtf8Char(s[..n]) && k < n
    ensures Landed(s, k)
  {
    CutBackInside(s, n, k);
    assert s[0..] == s && s[..0] == [];
  }

  lemma {:induction false} LandsOnward(s: seq<bv8>, n: nat, k: nat)
    requires 1 <= n <= k < |s| && !IsTail(s[n]) && IsUtf8Char(s[..n]) && Landed(s[n..], k - n)
    ensures Landed(s, k)
  {
    CutBackOnward(s, n, k, CutBack(s[n..], k - n));
  }

  lemma {:induction false} FirstChar(s: seq<bv8>) returns (n: nat)
    requires WellFormed(s) && s != []
    ensures 1 <= n <= 4 && n <= |s| && IsUtf8Char(s[..n]) && WellFormed(s[n..])
    ensures n < |s| ==> !IsTail(s[n])
  {
    n := LeadLen(s[0]);
    if n < |s| { LeadLenOf(s[n..][..LeadLen(s[n])]); }
  }

  lemma {:induction false} CutBackOnward(s: seq<bv8>, n: nat, k: nat, t: nat)
    requires 1 <= n <= k < |s| && !IsTail(s[n]) && IsUtf8Char(s[..n])
    requires t == CutBack(s[n..], k - n) && SplitsAt(s[n..], t)
    ensures CutBack(s, k) == n + t && SplitsAt(s, n + t)
  {
    CutBackShift(s, n, k);
    WellFormedCons(s[..n], s[n..][..t]);
    assert s[..n + t] == s[..n] + s[n..][..t];
    assert s[n + t..] == s[n..][t..];
  }

  lemma {:induction false} CutBackInside(s: seq<bv8>, n: nat, k: nat)
    requires 1 <= n <= |s| && IsUtf8Char(s[..n]) && k < n
    ensures CutBack(s, k) == 0
    decreases k
  {
    if k > 0 {
      assert s[..n][k] == s[k];
      CutBackInside(s, n, k - 1);
    }
  }
}
