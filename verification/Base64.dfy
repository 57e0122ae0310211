/** Canonical base64 (sections 4 and 3.5 of RFC 4648) as image data uses it. */
module Base64 {
  import opened Wrappers

  type Bytes = seq<bv8>

  const PAD: bv8 := 61  // '='
  const INVALID: bv32 := 0xFFFFFFFF

  /** The alphabet of the encoder's table: A-Z, a-z, 0-9, + and /. */
  function Tab(g: bv32): bv8 {
    var i := (g & 0xFF) as bv8;
    if i < 26 then i + 65
    else if i < 52 then i + 71
    else if i < 62 then i - 4
    else if i == 62 then 43
    else 47
  }

  /** b64val; INVALID is its -1. */
  function Val(c: bv8): bv32 {
    if 65 <= c <= 90 then (c - 65) as bv32
    else if 97 <= c <= 122 then (c - 71) as bv32
    else if 48 <= c <= 57 then (c + 4) as bv32
    else if c == 43 then 62
    else if c == 47 then 63
    else INVALID
  }

  /** The decoder reads the alphabet backwards. */
  lemma {:induction false} ValOfTab(g: bv32)
    requires g < 64
    ensures Val(Tab(g)) == g && Tab(g) != PAD
  {
  }

  lemma {:induction false} TabOfVal(c: bv8)
    ensures Val(c) != INVALID ==> Val(c) < 64 && Tab(Val(c)) == c && c != PAD
  {
  }

  /** clm_base64_len. */
  function EncodedLen(n: nat): nat { (n + 2) / 3 * 4 }

  // ---------------------------------------------------------------- a quantum

  /** Three bytes as one number. */
  function Packed(a: bv8, b: bv8, c: bv8): bv32 { ((a as bv32) << 16) | ((b as bv32) << 8) | (c as bv32) }

  /** The bytes of a quantum; missing ones count as zero. */
  function Quantum(x: Bytes): bv32
    requires x != []
  {
    Packed(x[0], if |x| > 1 then x[1] else 0, if |x| > 2 then x[2] else 0)
  }

  /** The k-th six bits of a quantum. */
  function Six(v: bv32, k: nat): bv32 {
    match k
    case 0 => (v >> 18) & 63
    case 1 => (v >> 12) & 63
    case 2 => (v >> 6) & 63
    case _ => v & 63
  }

  /** Three bytes, or the last one or two, as four characters. */
  function EncodeQuantum(x: Bytes): (s: Bytes)
    requires x != []
    ensures |s| == 4
  {
    var v := Quantum(x);
    [Tab(Six(v, 0)), Tab(Six(v, 1)), if |x| > 1 then Tab(Six(v, 2)) else PAD, if |x| > 2 then Tab(Six(v, 3)) else PAD]
  }

  function Joined(a: bv32, b: bv32, c: bv32, d: bv32): bv32 { (a << 18) | (b << 12) | (c << 6) | d }

  /** The bytes of a quantum; bits that padding drops must be zero. */
  function Unpacked(v: bv32, pad: nat): (r: Option<Bytes>)
    requires pad <= 2
    ensures r.Some? ==> |r.value| == 3 - pad
  {
    if (pad == 2 && (v & 0xFFFF) != 0) || (pad == 1 && (v & 0xFF) != 0) then None
    else
      Some([((v >> 16) & 0xFF) as bv8]
           + (if pad < 2 then [((v >> 8) & 0xFF) as bv8] else [])
           + if pad < 1 then [(v & 0xFF) as bv8] else [])
  }

  /** One quantum read back; last says that nothing follows it. */
  function DecodeQuantum(s: Bytes, last: bool): (r: Option<Bytes>)
    requires |s| == 4
    ensures r.Some? ==> 1 <= |r.value| <= 3 && (!last ==> |r.value| == 3)
  {
    var a, b, c, d := Val(s[0]), Val(s[1]), Val(s[2]), Val(s[3]);
    if a == INVALID || b == INVALID then None
    else if c == INVALID && !(last && s[2] == PAD && s[3] == PAD) then None
    else if d == INVALID && !(last && s[3] == PAD) then None
    else
      var pad := if c == INVALID then 2 else if d == INVALID then 1 else 0;
      Unpacked(Joined(a, b, if c == INVALID then 0 else c, if d == INVALID then 0 else d), pad)
  }

  lemma {:induction false} SixOfPacked(a: bv8, b: bv8, c: bv8)
    ensures
      var v := Packed(a, b, c);
      && Joined(Six(v, 0), Six(v, 1), Six(v, 2), Six(v, 3)) == v
      && Six(v, 0) < 64 && Six(v, 1) < 64 && Six(v, 2) < 64 && Six(v, 3) < 64
      && (c == 0 ==> Six(v, 3) == 0) && (b == 0 && c == 0 ==> Six(v, 2) == 0)
  {
  }

  lemma {:induction false} BytesOfPacked(a: bv8, b: bv8, c: bv8)
    ensures
      var v := Packed(a, b, c);
      && ((v >> 16) & 0xFF) as bv8 == a && ((v >> 8) & 0xFF) as bv8 == b && (v & 0xFF) as bv8 == c
      && (c == 0 <==> (v & 0xFF) == 0) && (b == 0 && c == 0 <==> (v & 0xFFFF) == 0)
  {
  }

  lemma {:induction false} PackedOfBytes(v: bv32)
    requires v < 0x1000000
    ensures Packed(((v >> 16) & 0xFF) as bv8, ((v >> 8) & 0xFF) as bv8, (v & 0xFF) as bv8) == v
  {
  }

  lemma {:induction false} SixOfJoined(a: bv32, b: bv32, c: bv32, d: bv32)
    requires a < 64 && b < 64 && c < 64 && d < 64
    ensures
      var v := Joined(a, b, c, d);
      v < 0x1000000 && Six(v, 0) == a && Six(v, 1) == b && Six(v, 2) == c && Six(v, 3) == d
  {
  }

  /** Reading back four characters that stand for these numbers. */
  lemma {:induction false} DecodeParts(s: Bytes, last: bool, a: bv32, b: bv32, c: bv32, d: bv32, pad: nat)
    requires |s| == 4 && a < 64 && b < 64 && c < 64 && d < 64 && pad <= 2 && (pad > 0 ==> last)
    requires Val(s[0]) == a && Val(s[1]) == b
    requires if pad == 2 then s[2] == PAD && c == 0 else Val(s[2]) == c
    requires if pad >= 1 then s[3] == PAD && d == 0 else Val(s[3]) == d
    ensures DecodeQuantum(s, last) == Unpacked(Joined(a, b, c, d), pad)
  {
  }

  lemma {:induction false} QuantumRoundTrip(x: Bytes, last: bool)
    requires 1 <= |x| <= 3 && (!last ==> |x| == 3)
    ensures DecodeQuantum(EncodeQuantum(x), last) == Some(x)
  {
    var a, b, c := x[0], if |x| > 1 then x[1] else 0, if |x| > 2 then x[2] else 0;
    var v := Packed(a, b, c);
    SixOfPacked(a, b, c);
    ValOfTab(Six(v, 0));
    ValOfTab(Six(v, 1));
    ValOfTab(Six(v, 2));
    ValOfTab(Six(v, 3));
    DecodeParts(EncodeQuantum(x), last, Six(v, 0), Six(v, 1), Six(v, 2), Six(v, 3), 3 - |x|);
    UnpackedQuantum(x);
  }

  lemma {:induction false} UnpackedQuantum(x: Bytes)
    requires 1 <= |x| <= 3
    ensures Unpacked(Quantum(x), 3 - |x|) == Some(x)
  {
    BytesOfPacked(x[0], if |x| > 1 then x[1] else 0, if |x| > 2 then x[2] else 0);
    assert x == [x[0]] + (if |x| > 1 then [x[1]] else []) + if |x| > 2 then [x[2]] else [];
  }

  lemma {:induction false} QuantumOfUnpacked(v: bv32, pad: nat)
    requires v < 0x1000000 && pad <= 2 && Unpacked(v, pad).Some?
    ensures Quantum(Unpacked(v, pad).value) == v
  {
    PackedOfBytes(v);
    LowBytes(v);
  }

  lemma {:induction false} LowBytes(v: bv32)
    ensures (v & 0xFF) == 0 ==> ((v & 0xFF) as bv8) == 0
    ensures (v & 0xFFFF) == 0 ==> ((v >> 8) & 0xFF) as bv8 == 0 && (v & 0xFF) as bv8 == 0
  {
  }

  lemma {:induction false} EncodeParts(s: Bytes, q: Bytes)
    requires |s| == 4 && 1 <= |q| <= 3
    requires Six(Quantum(q), 0) == Val(s[0]) && Six(Quantum(q), 1) == Val(s[1])
    requires Val(s[0]) != INVALID && Val(s[1]) != INVALID
    requires if |q| > 1 then Six(Quantum(q), 2) == Val(s[2]) != INVALID else s[2] == PAD
    requires if |q| > 2 then Six(Quantum(q), 3) == Val(s[3]) != INVALID else s[3] == PAD
    ensures EncodeQuantum(q) == s
  {
    TabOfVal(s[0]);
    TabOfVal(s[1]);
    TabOfVal(s[2]);
    TabOfVal(s[3]);
  }

  lemma {:induction false} QuantumCanonical(s: Bytes, last: bool)
    requires |s| == 4 && DecodeQuantum(s, last).Some?
    ensures EncodeQuantum(DecodeQuantum(s, last).value) == s
  {
    var a, b, c, d := Val(s[0]), Val(s[1]), Val(s[2]), Val(s[3]);
    var pad := if c == INVALID then 2 else if d == INVALID then 1 else 0;
    var low, least := if c == INVALID then 0 else c, if d == INVALID then 0 else d;
    TabOfVal(s[0]);
    TabOfVal(s[1]);
    TabOfVal(s[2]);
    TabOfVal(s[3]);
    DecodeParts(s, last, a, b, low, least, pad);
    SixOfJoined(a, b, low, least);
    QuantumOfUnpacked(Joined(a, b, low, least), pad);
    EncodeParts(s, DecodeQuantum(s, last).value);
  }

  // ------------------------------------------------------------- whole texts

  function Encode(x: Bytes): Bytes
    decreases |x|
  {
    if x == [] then [] else if |x| <= 3 then EncodeQuantum(x) else EncodeQuantum(x[..3]) + Encode(x[3..])
  }

  function Decode(s: Bytes): Option<Bytes>
    decreases |s|
  {
    if s == [] then Some([])
    else if |s| < 4 then None
    else
      var q := DecodeQuantum(s[..4], |s| == 4);
      var rest := Decode(s[4..]);
      if q.None? || rest.None? then None else Some(q.value + rest.value)
  }

  /** decode(encode(x)) = x. */
  lemma {:induction false} DecodeEncode(x: Bytes)
    ensures Decode(Encode(x)) == Some(x)
    decreases |x|
  {
    if x == [] {
    } else if |x| <= 3 {
      QuantumRoundTrip(x, true);
      assert EncodeQuantum(x)[..4] == EncodeQuantum(x) && EncodeQuantum(x)[4..] == [];
      assert x + [] == x;
    } else {
      var q, rest := EncodeQuantum(x[..3]), Encode(x[3..]);
      DecodeEncode(x[3..]);
      QuantumRoundTrip(x[..3], false);
      assert (q + rest)[..4] == q && (q + rest)[4..] == rest;
      assert rest != [];
      assert x[..3] + x[3..] == x;
    }
  }

  /** An accepted text is the encoding of what it decodes to: there is no second spelling. */
  lemma {:induction false} EncodeDecode(s: Bytes)
    requires Decode(s).Some?
    ensures Encode(Decode(s).value) == s
    decreases |s|
  {
    if s != [] {
      var q := DecodeQuantum(s[..4], |s| == 4).value;
      var rest := Decode(s[4..]).value;
      EncodeDecode(s[4..]);
      QuantumCanonical(s[..4], |s| == 4);
      assert s[..4] + s[4..] == s;
      if |s| == 4 {
        assert s[4..] == [] && q + rest == q;
      } else {
        NotEmpty(s[4..]);
        assert (q + rest)[..3] == q && (q + rest)[3..] == rest;
      }
    }
  }

  lemma {:induction false} NotEmpty(s: Bytes)
    requires Decode(s).Some? && s != []
    ensures Decode(s).value != []
  {
  }

  /** The accepted texts are exactly the encodings. */
  lemma {:induction false} AcceptedIffEncoding(s: Bytes)
    ensures Decode(s).Some? <==> exists x :: Encode(x) == s
  {
    if Decode(s).Some? { EncodeDecode(s); }
    forall x | Encode(x) == s ensures Decode(s).Some? { DecodeEncode(x); }
  }

  lemma {:induction false} LengthAgrees(x: Bytes)
    ensures |Encode(x)| == EncodedLen(|x|)
    decreases |x|
  {
    if |x| > 3 { LengthAgrees(x[3..]); }
  }

  // ------------------------------------------------------------- the bit stream

  function ByteAt(x: Bytes, i: nat): bv8 { if i < |x| then x[i] else 0 }

  /** Bit j of a byte, most significant first. */
  predicate ByteBit(b: bv8, j: nat) {
    match j
    case 0 => (b & 0x80) != 0
    case 1 => (b & 0x40) != 0
    case 2 => (b & 0x20) != 0
    case 3 => (b & 0x10) != 0
    case 4 => (b & 0x08) != 0
    case 5 => (b & 0x04) != 0
    case 6 => (b & 0x02) != 0
    case _ => (b & 0x01) != 0
  }

  /** Bit j of six bits, most significant first. */
  predicate SixBit(g: bv32, j: nat) {
    match j
    case 0 => (g & 0x20) != 0
    case 1 => (g & 0x10) != 0
    case 2 => (g & 0x08) != 0
    case 3 => (g & 0x04) != 0
    case 4 => (g & 0x02) != 0
    case _ => (g & 0x01) != 0
  }

  /** Bit i of the byte stream, zero behind its end. */
  predicate Bit(x: Bytes, i: nat) { ByteBit(ByteAt(x, i / 8), i % 8) }

  lemma {:induction false} BitsOfFirst(a: bv8, b: bv8, c: bv8)
    ensures
      var g := Six(Packed(a, b, c), 0);
      && SixBit(g, 0) == ByteBit(a, 0) && SixBit(g, 1) == ByteBit(a, 1) && SixBit(g, 2) == ByteBit(a, 2)
      && SixBit(g, 3) == ByteBit(a, 3) && SixBit(g, 4) == ByteBit(a, 4) && SixBit(g, 5) == ByteBit(a, 5)
  {
  }

  lemma {:induction false} BitsOfSecond(a: bv8, b: bv8, c: bv8)
    ensures
      var g := Six(Packed(a, b, c), 1);
      && SixBit(g, 0) == ByteBit(a, 6) && SixBit(g, 1) == ByteBit(a, 7) && SixBit(g, 2) == ByteBit(b, 0)
      && SixBit(g, 3) == ByteBit(b, 1) && SixBit(g, 4) == ByteBit(b, 2) && SixBit(g, 5) == ByteBit(b, 3)
  {
  }

  lemma {:induction false} BitsOfThird(a: bv8, b: bv8, c: bv8)
    ensures
      var g := Six(Packed(a, b, c), 2);
      && SixBit(g, 0) == ByteBit(b, 4) && SixBit(g, 1) == ByteBit(b, 5) && SixBit(g, 2) == ByteBit(b, 6)
      && SixBit(g, 3) == ByteBit(b, 7) && SixBit(g, 4) == ByteBit(c, 0) && SixBit(g, 5) == ByteBit(c, 1)
  {
  }

  lemma {:induction false} BitsOfFourth(a: bv8, b: bv8, c: bv8)
    ensures
      var g := Six(Packed(a, b, c), 3);
      && SixBit(g, 0) == ByteBit(c, 2) && SixBit(g, 1) == ByteBit(c, 3) && SixBit(g, 2) == ByteBit(c, 4)
      && SixBit(g, 3) == ByteBit(c, 5) && SixBit(g, 4) == ByteBit(c, 6) && SixBit(g, 5) == ByteBit(c, 7)
  {
  }

  lemma {:induction false} BitIs(x: Bytes, i: nat, b: nat, j: nat)
    requires i == 8 * b + j && j < 8
    ensures Bit(x, i) == ByteBit(ByteAt(x, b), j)
  {
    assert i / 8 == b && i % 8 == j;
  }

  lemma {:induction false} FirstBits(x: Bytes, j: nat)
    requires x != [] && j < 6
    ensures SixBit(Six(Quantum(x), 0), j) == Bit(x, 0 + j)
  {
    BitsOfFirst(ByteAt(x, 0), ByteAt(x, 1), ByteAt(x, 2));
    BitIs(x, 0 + j, (0 + j) / 8, (0 + j) % 8);
  }

  lemma {:induction false} SecondBits(x: Bytes, j: nat)
    requires x != [] && j < 6
    ensures SixBit(Six(Quantum(x), 1), j) == Bit(x, 6 + j)
  {
    BitsOfSecond(ByteAt(x, 0), ByteAt(x, 1), ByteAt(x, 2));
    BitIs(x, 6 + j, (6 + j) / 8, (6 + j) % 8);
  }

  lemma {:induction false} ThirdBits(x: Bytes, j: nat)
    requires x != [] && j < 6
    ensures SixBit(Six(Quantum(x), 2), j) == Bit(x, 12 + j)
  {
    BitsOfThird(ByteAt(x, 0), ByteAt(x, 1), ByteAt(x, 2));
    BitIs(x, 12 + j, (12 + j) / 8, (12 + j) % 8);
  }

  lemma {:induction false} FourthBits(x: Bytes, j: nat)
    requires x != [] && j < 6
    ensures SixBit(Six(Quantum(x), 3), j) == Bit(x, 18 + j)
  {
    BitsOfFourth(ByteAt(x, 0), ByteAt(x, 1), ByteAt(x, 2));
    BitIs(x, 18 + j, (18 + j) / 8, (18 + j) % 8);
  }

  lemma {:induction false} QuantumBits(x: Bytes, k: nat, j: nat)
    requires x != [] && k < 4 && j < 6
    ensures SixBit(Six(Quantum(x), k), j) == Bit(x, 6 * k + j)
  {
    match k
    case 0 => FirstBits(x, j);
    case 1 => SecondBits(x, j);
    case 2 => ThirdBits(x, j);
    case _ => FourthBits(x, j);
  }

  lemma {:induction false} SixBelow64(v: bv32, k: nat)
    ensures Six(v, k) < 64
  {
  }

  /** Characters that carry bits; the others are padding. */
  function Carrying(n: nat): nat { (8 * n + 5) / 6 }

  /** What character k of the encoding of x has to be: six bits of x, or padding. */
  ghost predicate StandsFor(x: Bytes, k: nat, c: bv8) {
    if k < Carrying(|x|) then Val(c) < 64 && forall j: nat | j < 6 :: SixBit(Val(c), j) == Bit(x, 6 * k + j)
    else c == PAD
  }

  lemma {:induction false} QuantumEncodes(x: Bytes, k: nat)
    requires 1 <= |x| <= 3 && k < 4
    ensures StandsFor(x, k, EncodeQuantum(x)[k])
  {
    SixBelow64(Quantum(x), k);
    ValOfTab(Six(Quantum(x), k));
    forall j: nat | j < 6 ensures SixBit(Six(Quantum(x), k), j) == Bit(x, 6 * k + j) { QuantumBits(x, k, j); }
  }

  lemma {:induction false} FrontStands(x: Bytes, k: nat, c: bv8)
    requires |x| > 3 && k < 4 && StandsFor(x[..3], k, c)
    ensures StandsFor(x, k, c)
  {
    forall j: nat | j < 6 ensures SixBit(Val(c), j) == Bit(x, 6 * k + j) { BitOfFront(x, 6 * k + j); }
  }

  lemma {:induction false} BitOfFront(x: Bytes, i: nat)
    requires |x| >= 3 && i < 24
    ensures Bit(x[..3], i) == Bit(x, i)
  {
  }

  lemma {:induction false} BitOfRest(x: Bytes, i: nat)
    requires |x| >= 3 && i >= 24
    ensures Bit(x[3..], i - 24) == Bit(x, i)
  {
    assert i / 8 == (i - 24) / 8 + 3 && i % 8 == (i - 24) % 8;
  }

  lemma {:induction false} CarryingRest(n: nat)
    requires n >= 3
    ensures Carrying(n) == Carrying(n - 3) + 4
  {
  }

  lemma {:induction false} RestStands(x: Bytes, k: nat, c: bv8)
    requires |x| > 3 && k >= 4 && StandsFor(x[3..], k - 4, c)
    ensures StandsFor(x, k, c)
  {
    CarryingRest(|x|);
    if k < Carrying(|x|) {
      forall j: nat | j < 6 ensures SixBit(Val(c), j) == Bit(x, 6 * k + j) {
        BitOfRest(x, 6 * k + j);
        assert 6 * (k - 4) + j == 6 * k + j - 24;
      }
    }
  }

  /**
    Section 4 of RFC 4648: character k stands for bits 6k to 6k + 5 of the byte
    stream, zero bits behind its end; what carries no bit is padding.
   */
  lemma {:induction false} EncodesSixBits(x: Bytes, k: nat)
    requires k < |Encode(x)|
    ensures StandsFor(x, k, Encode(x)[k])
    decreases |x|
  {
    if |x| <= 3 {
      QuantumEncodes(x, k);
    } else {
      EncodeAt(x, k);
      if k < 4 {
        QuantumEncodes(x[..3], k);
        FrontStands(x, k, Encode(x)[k]);
      } else {
        EncodesSixBits(x[3..], k - 4);
        RestStands(x, k, Encode(x)[k]);
      }
    }
  }

  lemma {:induction false} EncodeAt(x: Bytes, k: nat)
    requires |x| > 3 && k < |Encode(x)|
    ensures k < 4 ==> Encode(x)[k] == EncodeQuantum(x[..3])[k]
    ensures k >= 4 ==> k - 4 < |Encode(x[3..])| && Encode(x)[k] == Encode(x[3..])[k - 4]
  {
  }

  // ---------------------------------------------------------------- in place

  lemma {:induction false} LenStep(n: nat)
    ensures n >= 3 ==> EncodedLen(n) == EncodedLen(n - 3) + 4
    ensures EncodedLen(0) == 0 && EncodedLen(1) == EncodedLen(2) == 4
  {
  }

  /** clm_base64_encode. */
  method EncodeInto(x: array<bv8>, out: array<bv8>)
    requires x != out && out.Length >= EncodedLen(x.Length) + 1
    modifies out
    ensures out[..EncodedLen(x.Length)] == Encode(x[..])
    ensures out[EncodedLen(x.Length)] == 0
  {
    var i, o := EncodeTriples(x, out);
    o := EncodeEnd(x, i, out, o);
    out[o] := 0;
  }

  /** What is written, and what is still to come. */
  function Written(done: Bytes, x: Bytes, i: nat): Bytes
    requires i <= |x|
  {
    done + Encode(x[i..])
  }

  lemma {:induction false} EncodeStep(done: Bytes, x: Bytes, i: nat)
    requires i + 2 < |x|
    ensures Written(done + EncodeQuantum(x[i..i + 3]), x, i + 3) == Written(done, x, i)
  {
    EncodeFront(x, i);
  }

  method EncodeTriples(x: array<bv8>, out: array<bv8>) returns (i: nat, o: nat)
    requires x != out && out.Length >= EncodedLen(x.Length)
    modifies out
    ensures i <= x.Length <= i + 2 && o + EncodedLen(x.Length - i) == EncodedLen(x.Length)
    ensures out[..o] + Encode(x[i..]) == Encode(x[..])
  {
    var n := x.Length;
    i, o := 0, 0;
    ghost var all := x[..];
    assert all[0..] == all && [] + Encode(all) == Encode(all);
    while i + 2 < n
      invariant 0 <= i <= n && o + EncodedLen(n - i) == EncodedLen(n)
      invariant Written(out[..o], all, i) == Encode(all)
    {
      LenStep(n - i);
      EncodeStep(out[..o], all, i);
      EncodeTriple(x, i, out, o);
      assert x[i..i + 3] == all[i..i + 3];
      o, i := o + 4, i + 3;
    }
    assert all[i..] == x[i..];
  }

  method EncodeEnd(x: array<bv8>, i: nat, out: array<bv8>, o: nat) returns (p: nat)
    requires x != out && i <= x.Length <= i + 2 && o + EncodedLen(x.Length - i) <= out.Length
    modifies out
    ensures p == o + EncodedLen(x.Length - i) && out[..p] == old(out[..o]) + Encode(x[i..])
  {
    LenStep(x.Length - i);
    if i < x.Length {
      EncodeLast(x, i, out, o);
      p := o + 4;
    } else {
      p := o;
      assert x[i..] == [] && out[..o] + [] == out[..o];
    }
  }

  lemma {:induction false} ThreeEncoded(a: bv8, b: bv8, c: bv8)
    ensures
      var v := Packed(a, b, c);
      EncodeQuantum([a, b, c]) == [Tab(Six(v, 0)), Tab(Six(v, 1)), Tab(Six(v, 2)), Tab(Six(v, 3))]
  {
    assert Quantum([a, b, c]) == Packed(a, b, c);
  }

  method EncodeTriple(x: array<bv8>, i: nat, out: array<bv8>, o: nat)
    requires x != out && i + 2 < x.Length && o + 4 <= out.Length
    modifies out
    ensures out[..o + 4] == old(out[..o]) + EncodeQuantum(x[i..i + 3])
  {
    var v := Packed(x[i], x[i + 1], x[i + 2]);
    assert x[i..i + 3] == [x[i], x[i + 1], x[i + 2]];
    ThreeEncoded(x[i], x[i + 1], x[i + 2]);
    PutFour(out, o, Tab(Six(v, 0)), Tab(Six(v, 1)), Tab(Six(v, 2)), Tab(Six(v, 3)));
  }

  method PutFour(out: array<bv8>, o: nat, a: bv8, b: bv8, c: bv8, d: bv8)
    requires o + 4 <= out.Length
    modifies out
    ensures out[..o + 4] == old(out[..o]) + [a, b, c, d]
  {
    out[o], out[o + 1], out[o + 2], out[o + 3] := a, b, c, d;
    assert out[o..o + 4] == [a, b, c, d];
    assert out[..o] == old(out[..o]);
    Cut(out[..], o, o + 4);
  }

  lemma {:induction false} Cut(s: Bytes, i: nat, j: nat)
    requires i <= j <= |s|
    ensures s[..j] == s[..i] + s[i..j]
  {
  }

  method EncodeLast(x: array<bv8>, i: nat, out: array<bv8>, o: nat)
    requires x != out && i < x.Length <= i + 2 && o + 4 <= out.Length
    modifies out
    ensures out[..o + 4] == old(out[..o]) + EncodeQuantum(x[i..])
  {
    var n := x.Length;
    var v := (x[i] as bv32) << 16;
    if i + 1 < n {
      v := v | ((x[i + 1] as bv32) << 8);
    }
    assert x[i..] == if i + 1 < n then [x[i], x[i + 1]] else [x[i]];
    assert v == Quantum(x[i..]);
    PutFour(out, o, Tab(Six(v, 0)), Tab(Six(v, 1)), if i + 1 < n then Tab(Six(v, 2)) else PAD, PAD);
  }

  lemma {:induction false} EncodeFront(x: Bytes, i: nat)
    requires i + 2 < |x|
    ensures Encode(x[i..]) == EncodeQuantum(x[i..i + 3]) + Encode(x[i + 3..])
  {
    assert x[i..][..3] == x[i..i + 3] && x[i..][3..] == x[i + 3..];
    if i + 3 == |x| {
      assert x[i..i + 3] == x[i..];
      assert EncodeQuantum(x[i..]) + [] == EncodeQuantum(x[i..]);
    }
  }

  lemma {:induction false} DecodeFront(s: Bytes, i: nat)
    requires i + 4 <= |s|
    ensures
      var q := DecodeQuantum(s[i..i + 4], i + 4 == |s|);
      var rest := Decode(s[i + 4..]);
      Decode(s[i..]) == if q.None? || rest.None? then None else Some(q.value + rest.value)
  {
    assert s[i..][..4] == s[i..i + 4] && s[i..][4..] == s[i + 4..];
  }

  lemma {:induction false} OddLengthRefused(s: Bytes)
    requires |s| % 4 != 0
    ensures Decode(s).None?
    decreases |s|
  {
    if |s| >= 4 { OddLengthRefused(s[4..]); }
  }

  /** clm_base64_decode; out needs three bytes for every four characters, no more. */
  method DecodeInto(s: Bytes, out: array<bv8>) returns (ok: bool, len: nat)
    requires out.Length >= |s| / 4 * 3
    modifies out
    ensures len <= out.Length
    ensures Decode(s) == if ok then Some(out[..len]) else None
  {
    var n := |s|;
    len, ok := 0, false;
    if n % 4 != 0 {
      OddLengthRefused(s);
      return;
    }
    ok, len := DecodeQuanta(s, n / 4, out);
  }

  method DecodeQuanta(s: Bytes, m: nat, out: array<bv8>) returns (ok: bool, len: nat)
    requires |s| == 4 * m && out.Length >= 3 * m
    modifies out
    ensures len <= out.Length
    ensures Decode(s) == if ok then Some(out[..len]) else None
  {
    var i, o := 0, 0;
    ghost var t := 0;
    ReadAll([], s);
    assert out[..0] == [];
    while i < |s|
      invariant i == 4 * t <= |s| && 0 <= o <= 3 * t
      invariant Read(out[..o], s, i) == Decode(s)
    {
      var good, k := DecodeOne(s, i, out, o);
      if !good {
        return false, 0;
      }
      o, i, t := k, i + 4, t + 1;
    }
    ReadAll(out[..o], s);
    ok, len := true, o;
  }

  /** What is read, and what the rest will give. */
  function Read(done: Bytes, s: Bytes, i: nat): Option<Bytes>
    requires i <= |s|
  {
    var rest := Decode(s[i..]);
    if rest.None? then None else Some(done + rest.value)
  }

  lemma {:induction false} ReadAll(done: Bytes, s: Bytes)
    ensures Read(done, s, |s|) == Some(done)
    ensures Read([], s, 0) == Decode(s)
  {
    assert s[|s|..] == [] && s[0..] == s && done + [] == done;
    if Decode(s).Some? { assert [] + Decode(s).value == Decode(s).value; }
  }

  lemma {:induction false} ReadStep(done: Bytes, s: Bytes, i: nat)
    requires i + 4 <= |s|
    ensures
      var q := DecodeQuantum(s[i..i + 4], i + 4 == |s|);
      if q.None? then Read(done, s, i) == None else Read(done, s, i) == Read(done + q.value, s, i + 4)
  {
    DecodeFront(s, i);
    var q := DecodeQuantum(s[i..i + 4], i + 4 == |s|);
    var rest := Decode(s[i + 4..]);
    if q.Some? && rest.Some? { assert done + q.value + rest.value == done + (q.value + rest.value); }
  }

  method DecodeOne(s: Bytes, i: nat, out: array<bv8>, o: nat) returns (good: bool, k: nat)
    requires i + 4 <= |s| && o + 3 <= out.Length
    modifies out
    ensures good ==> k <= o + 3 && Read(out[..k], s, i + 4) == Read(old(out[..o]), s, i)
    ensures !good ==> Read(old(out[..o]), s, i) == None
  {
    ReadStep(out[..o], s, i);
    var q := DecodeQuantum(s[i..i + 4], i + 4 == |s|);
    if q.None? {
      return false, o;
    }
    k := Put(out, o, q.value);
    good := true;
  }

  method Put(out: array<bv8>, o: nat, q: Bytes) returns (k: nat)
    requires 1 <= |q| <= 3 && o + 3 <= out.Length
    modifies out
    ensures k == o + |q| && out[..k] == old(out[..o]) + q
  {
    out[o] := q[0];
    if |q| > 1 {
      out[o + 1] := q[1];
    }
    if |q| > 2 {
      out[o + 2] := q[2];
    }
    k := o + |q|;
    assert out[..o] == old(out[..o]) && out[o..k] == q;
    assert out[..k] == out[..o] + out[o..k];
  }
}
