/**
  What the session files hold at every moment: the log, its backup, the file a
  rewrite is writing, and one file per image. Image names are found in a log by
  a plain byte search, which must miss none even behind a torn line.
 */
module SessionSpec {
  import opened Wrappers

  /** One image of a message: the hash of its bytes, and the extension of its media type. */
  datatype Image = Image(sha: string, ext: string, data: seq<bv8>)

  /** One printed record, its line break included. */
  datatype Line = Line(text: string, images: seq<Image>)

  /** The backup is a second name of the log's own file until a rename takes the log's name away. */
  datatype Backup = NoBackup | Linked | Apart(text: string)

  datatype Disk = Disk(log: Option<string>, tmp: Option<string>, bak: Backup, blobs: map<string, seq<bv8>>) {
    function BakText(): Option<string> {
      match bak
      case NoBackup => None
      case Linked => log
      case Apart(t) => Some(t)
    }
  }

  // ------------------------------------------------------------ image names

  const KEY: string := "\"sha256\":\""
  const SHA_LEN: nat := 64

  predicate HexDigit(c: char) { '0' <= c <= '9' || 'a' <= c <= 'f' }

  predicate ShaValid(s: string) { |s| == SHA_LEN && forall i | 0 <= i < |s| :: HexDigit(s[i]) }

  predicate KeyAt(t: string, k: int) { 0 <= k <= |t| - |KEY| && t[k..k + |KEY|] == KEY }

  /** The bytes a name takes, key and hash. */
  const SPAN: nat := |KEY| + SHA_LEN

  ghost predicate NamedAt(t: string, k: int, sha: string) {
    KeyAt(t, k) && k + SPAN <= |t| && t[k + |KEY|..k + SPAN] == sha && ShaValid(sha)
  }

  ghost predicate Names(t: string, sha: string) { exists k :: NamedAt(t, k, sha) }

  /** No key begins inside the span of another. */
  ghost predicate Spaced(t: string) {
    forall j, k :: KeyAt(t, j) && KeyAt(t, k) && j < k ==> j + SPAN <= k
  }

  /**
    A line as the JSON printer leaves it: quotes inside strings are escaped, so a
    key is an image's own; the image list comes after the role, the type and the
    media type, so no key stands near the front.
   */
  ghost predicate LineOk(l: string) {
    && |l| >= 2 && l[0] == '{' && l[|l| - 1] == '\n'
    && (forall i | 0 <= i < |l| - 1 :: l[i] != '\n')
    && forall k :: KeyAt(l, k) ==> SHA_LEN <= k && k + SPAN <= |l| && ShaValid(l[k + |KEY|..k + SPAN])
  }

  ghost predicate Printed(l: Line) {
    && LineOk(l.text)
    && (forall img | img in l.images :: ShaValid(img.sha) && img.ext in Exts())
    && (forall img | img in l.images :: Names(l.text, img.sha))
    && (forall sha :: Names(l.text, sha) ==> exists img :: img in l.images && img.sha == sha)
  }

  /** blob_ext's results. */
  function Exts(): set<string> { {"png", "jpg", "gif", "webp", "bin"} }

  lemma {:induction false} KeyChars()
    ensures |KEY| == 10 && SPAN == 74
    ensures KEY[0] == '"' && (forall i | 0 <= i < 10 :: KEY[i] != '{' && KEY[i] != '\n')
  {
  }

  lemma {:induction false} KeyHead(t: string, k: int, i: nat)
    requires KeyAt(t, k) && i < |KEY|
    ensures t[k + i] == KEY[i]
  {
    assert t[k..k + |KEY|][i] == t[k + i];
  }

  lemma {:induction false} SpanHex(t: string, k: int, i: int)
    requires KeyAt(t, k) && k + SPAN <= |t| && ShaValid(t[k + |KEY|..k + SPAN])
    requires k + |KEY| <= i < k + SPAN
    ensures HexDigit(t[i])
  {
    assert t[k + |KEY|..k + SPAN][i - k - |KEY|] == t[i];
  }

  /** Keys overlap in a quote at most. */
  lemma {:induction false} KeyOverlap(t: string, j: int, k: int)
    requires KeyAt(t, j) && KeyAt(t, k) && j < k
    ensures j + |KEY| <= k + 1
  {
    KeyChars();
    if k - j < |KEY| {
      KeyHead(t, j, k - j);
      KeyHead(t, k, 0);
      if k - j < 9 {
        KeyHead(t, j, k - j + 1);
        KeyHead(t, k, 1);
      }
    }
  }

  /** Printed lines are spaced: a hash holds no quote. */
  lemma {:induction false} LineSpaced(l: string)
    requires LineOk(l)
    ensures Spaced(l)
  {
    KeyChars();
    forall j, k | KeyAt(l, j) && KeyAt(l, k) && j < k ensures j + SPAN <= k {
      KeyOverlap(l, j, k);
      if k < j + SPAN {
        KeyHead(l, k, 0);
        KeyHead(l, k, 1);
        if k + 1 < j + SPAN {
          SpanHex(l, j, k + 1);
        } else {
          SpanHex(l, j, k);
        }
      }
    }
  }

  // ----------------------------------------------------- growing a log text

  lemma {:induction false} KeyInPrefix(t: string, x: string, k: int)
    requires k + |KEY| <= |t|
    ensures KeyAt(t + x, k) <==> KeyAt(t, k)
  {
    if 0 <= k { assert (t + x)[k..k + |KEY|] == t[k..k + |KEY|]; }
  }

  lemma {:induction false} KeyInSuffix(t: string, x: string, k: int)
    requires |t| <= k
    ensures KeyAt(t + x, k) <==> KeyAt(x, k - |t|)
  {
    if k + |KEY| <= |t + x| { assert (t + x)[k..k + |KEY|] == x[k - |t|..k - |t| + |KEY|]; }
  }

  /** No key straddles the start of a printed line. */
  lemma {:induction false} NoKeyAcross(t: string, x: string, k: int)
    requires x != [] && x[0] == '{' && KeyAt(t + x, k)
    ensures k + |KEY| <= |t| || |t| <= k
  {
    KeyChars();
    if k < |t| < k + |KEY| { KeyHead(t + x, k, |t| - k); }
  }

  /** What was named stays named when the log grows. */
  lemma {:induction false} NamesGrow(t: string, x: string, sha: string)
    requires Names(t, sha)
    ensures Names(t + x, sha)
  {
    var k :| NamedAt(t, k, sha);
    KeyInPrefix(t, x, k);
    assert (t + x)[k + |KEY|..k + SPAN] == t[k + |KEY|..k + SPAN];
    assert NamedAt(t + x, k, sha);
  }

  /** A log followed by any part of a printed line names nothing new but the line's images. */
  lemma {:induction false} NamesOfGrown(t: string, l: string, n: nat, sha: string)
    requires LineOk(l) && n <= |l| && Names(t + l[..n], sha)
    ensures Names(t, sha) || Names(l, sha)
  {
    var x := l[..n];
    var k :| NamedAt(t + x, k, sha);
    if n == 0 {
      assert t + x == t;
    } else {
      NoKeyAcross(t, x, k);
      if |t| <= k {
        KeyInSuffix(t, x, k);
        assert (t + x)[k + |KEY|..k + SPAN] == x[k - |t| + |KEY|..k - |t| + SPAN];
        assert NamedAt(x, k - |t|, sha);
        assert x + l[n..] == l;
        NamesGrow(x, l[n..], sha);
      } else {
        KeyInPrefix(t, x, k);
        if k + SPAN <= |t| {
          assert (t + x)[k + |KEY|..k + SPAN] == t[k + |KEY|..k + SPAN];
          assert NamedAt(t, k, sha);
        } else {
          assert (t + x)[|t|] == '{';
          SpanHex(t + x, k, |t|);
        }
      }
    }
  }

  lemma {:induction false} SpacedGrows(t: string, l: string, n: nat)
    requires Spaced(t) && LineOk(l) && n <= |l|
    ensures Spaced(t + l[..n])
  {
    var x := l[..n];
    if n == 0 {
      assert t + x == t;
    } else {
      LineSpaced(l);
      KeyChars();
      assert x + l[n..] == l;
      forall j, k | KeyAt(t + x, j) && KeyAt(t + x, k) && j < k ensures j + SPAN <= k {
        NoKeyAcross(t, x, j);
        NoKeyAcross(t, x, k);
        if |t| <= k {
          KeyInSuffix(t, x, k);
          KeyInPrefix(x, l[n..], k - |t|);
          if |t| <= j {
            KeyInSuffix(t, x, j);
            KeyInPrefix(x, l[n..], j - |t|);
          } else {
            KeyInPrefix(t, x, j);
          }
        } else {
          KeyInPrefix(t, x, j);
          KeyInPrefix(t, x, k);
        }
      }
    }
  }

  // ------------------------------------------------------------- the search

  /** blob_refs_from: what the byte search finds, skipping each span it has read. */
  function Found(t: string, from: nat): seq<string>
    requires from <= |t|
    decreases |t| - from
  {
    if |t| - from < |KEY| then []
    else if !KeyAt(t, from) then Found(t, from + 1)
    else if |t| - from < SPAN then []
    else
      var sha := t[from + |KEY|..from + SPAN];
      (if ShaValid(sha) then [sha] else []) + Found(t, from + SPAN)
  }

  /** The search finds names only. */
  lemma {:induction false} FoundIsNamed(t: string, from: nat, sha: string)
    requires from <= |t| && sha in Found(t, from)
    ensures Names(t, sha)
    decreases |t| - from
  {
    if !KeyAt(t, from) {
      FoundIsNamed(t, from + 1, sha);
    } else {
      var s := t[from + |KEY|..from + SPAN];
      if sha in Found(t, from + SPAN) {
        FoundIsNamed(t, from + SPAN, sha);
      } else {
        assert NamedAt(t, from, sha);
      }
    }
  }

  /** In a spaced text it misses none, torn or garbled lines notwithstanding. */
  lemma {:induction false} NamedIsFound(t: string, from: nat, k: int, sha: string)
    requires Spaced(t) && from <= |t| && from <= k && NamedAt(t, k, sha)
    ensures sha in Found(t, from)
    decreases |t| - from
  {
    if !KeyAt(t, from) {
      NamedIsFound(t, from + 1, k, sha);
    } else if from < k {
      NamedIsFound(t, from + SPAN, k, sha);
    }
  }

  lemma {:induction false} FoundIffNamed(t: string, sha: string)
    requires Spaced(t)
    ensures sha in Found(t, 0) <==> Names(t, sha)
  {
    if Names(t, sha) {
      var k :| NamedAt(t, k, sha);
      NamedIsFound(t, 0, k, sha);
    }
    if sha in Found(t, 0) { FoundIsNamed(t, 0, sha); }
  }

  // -------------------------------------------------------- lines as loaded

  function LineEnd(t: string): (n: nat)
    requires t != ""
    ensures 1 <= n <= |t| && (forall i | 0 <= i < n - 1 :: t[i] != '\n')
    ensures n < |t| ==> t[n - 1] == '\n'
  {
    if t[0] == '\n' || |t| == 1 then 1 else 1 + LineEnd(t[1..])
  }

  /** The lines clm_session_load parses one by one; the last may lack its break. */
  function Lines(t: string): seq<string> {
    if t == "" then [] else [t[..LineEnd(t)]] + Lines(t[LineEnd(t)..])
  }

  predicate EndsLine(t: string) { t == "" || t[|t| - 1] == '\n' }

  lemma {:induction false} LineEndUnique(t: string, n: nat)
    requires 1 <= n <= |t| && (forall i | 0 <= i < n - 1 :: t[i] != '\n') && (n < |t| ==> t[n - 1] == '\n')
    ensures LineEnd(t) == n
  {
    var m := LineEnd(t);
    assert n < |t| ==> t[n - 1] == '\n';
    assert m < |t| ==> t[m - 1] == '\n';
  }

  /** What is behind a complete log is read as if it stood alone. */
  lemma {:induction false} LinesConcat(t: string, x: string)
    requires EndsLine(t)
    ensures Lines(t + x) == Lines(t) + Lines(x)
    decreases |t|
  {
    if t == "" {
      assert t + x == x;
    } else {
      var n := LineEnd(t);
      LineEndUnique(t + x, n);
      PartsOfConcat(t, x, n);
      LinesConcat(t[n..], x);
      assert [t[..n]] + Lines(t[n..]) + Lines(x) == [t[..n]] + (Lines(t[n..]) + Lines(x));
    }
  }

  lemma {:induction false} PartsOfConcat(t: string, x: string, n: nat)
    requires n <= |t|
    ensures (t + x)[..n] == t[..n] && (t + x)[n..] == t[n..] + x
  {
  }

  lemma {:induction false} OneLine(x: string)
    requires x != "" && forall i | 0 <= i < |x| - 1 :: x[i] != '\n'
    ensures Lines(x) == [x]
  {
    LineEndUnique(x, |x|);
    assert x[..|x|] == x && x[|x|..] == "";
  }

  /** A crash while a line is appended costs at most that line: all earlier ones load as before. */
  lemma {:induction false} TornLineCostsNoOther(t: string, l: string, n: nat)
    requires EndsLine(t) && LineOk(l) && n <= |l|
    ensures Lines(t + l[..n]) == Lines(t) + (if n == 0 then [] else [l[..n]])
  {
    LinesConcat(t, l[..n]);
    if n > 0 { OneLine(l[..n]); }
  }

  lemma {:induction false} GluedLine(t: string, l: string)
    requires !EndsLine(t) && LineOk(l)
    ensures |Lines(t)| > 0 && |Lines(t + l)| == |Lines(t)|
    ensures Lines(t + l)[|Lines(t)| - 1] == Lines(t)[|Lines(t)| - 1] + l
    decreases |t|
  {
    var n := LineEnd(t);
    if n == |t| {
      GluedWhole(t, l);
    } else {
      LineEndUnique(t + l, n);
      PartsOfConcat(t, l, n);
      StillTorn(t, n);
      GluedLine(t[n..], l);
    }
  }

  lemma {:induction false} StillTorn(t: string, n: nat)
    requires n < |t| && !EndsLine(t)
    ensures !EndsLine(t[n..])
  {
    assert t[n..][|t[n..]| - 1] == t[|t| - 1];
  }

  /** A torn line alone, and what is glued to it. */
  lemma {:induction false} GluedWhole(t: string, l: string)
    requires !EndsLine(t) && LineEnd(t) == |t| && LineOk(l)
    ensures Lines(t) == [t] && Lines(t + l) == [t + l]
  {
    OneLine(t);
    forall i | 0 <= i < |t + l| - 1 ensures (t + l)[i] != '\n' {
      if i >= |t| { assert (t + l)[i] == l[i - |t|]; }
    }
    OneLine(t + l);
  }

  /**
    An appended record is loaded as a line of its own exactly when the log ended
    with a line break; behind a torn line it becomes part of that line.
   */
  lemma {:induction false} AppendedAloneIff(t: string, l: string)
    requires LineOk(l)
    ensures Lines(t + l) == Lines(t) + [l] <==> EndsLine(t)
  {
    if EndsLine(t) {
      TornLineCostsNoOther(t, l, |l|);
      assert l[..|l|] == l;
    } else {
      GluedLine(t, l);
    }
  }

  /** Such a log exists: a crash in the middle of a first record leaves one. */
  lemma {:induction false} TornThenAppended(l: string, m: string, n: nat)
    requires LineOk(l) && LineOk(m) && 0 < n < |l|
    ensures Lines(l[..n] + m) == [l[..n] + m]
  {
    assert !EndsLine(l[..n]);
    GluedLine(l[..n], m);
    OneLine(l[..n]);
  }

  // ------------------------------------------------------------ the invariant

  predicate IsTmp(f: string) { |f| >= 4 && f[|f| - 4..] == ".tmp" }

  function FileName(img: Image): string { img.sha + "." + img.ext }

  ghost predicate NamedIn(d: Disk, sha: string) {
    (d.log.Some? && Names(d.log.value, sha)) || (d.BakText().Some? && Names(d.BakText().value, sha))
  }

  ghost predicate Has(blobs: map<string, seq<bv8>>, sha: string) {
    exists f :: f in blobs && !IsTmp(f) && |f| >= SHA_LEN && f[..SHA_LEN] == sha
  }

  /** Every image named by the log or its backup is in the blob directory. */
  ghost predicate Inv(d: Disk) {
    && (d.log.Some? ==> Spaced(d.log.value))
    && (d.BakText().Some? ==> Spaced(d.BakText().value))
    && forall sha :: NamedIn(d, sha) ==> Has(d.blobs, sha)
  }

  ghost predicate Stored(blobs: map<string, seq<bv8>>, images: seq<Image>) {
    forall img | img in images :: FileName(img) in blobs
  }

  /** No image file changes or goes; a new one is a whole image of images. */
  ghost predicate KeptBlobs(was: map<string, seq<bv8>>, now: map<string, seq<bv8>>, images: seq<Image>) {
    && (forall f | f in was && !IsTmp(f) :: f in now && now[f] == was[f])
    && (forall f | f in now && !IsTmp(f) && f !in was ::
          exists img :: img in images && f == FileName(img) && now[f] == img.data)
  }

  lemma {:induction false} NameOfImage(img: Image)
    requires ShaValid(img.sha) && img.ext in Exts()
    ensures !IsTmp(FileName(img)) && |FileName(img)| >= SHA_LEN && FileName(img)[..SHA_LEN] == img.sha
  {
    var f := FileName(img);
    assert f[|f| - 2] == img.ext[|img.ext| - 2];
    assert f[|f| - 4..][2] == f[|f| - 2];
  }

  lemma {:induction false} HasStored(blobs: map<string, seq<bv8>>, l: Line, sha: string)
    requires Printed(l) && Stored(blobs, l.images) && Names(l.text, sha)
    ensures Has(blobs, sha)
  {
    var img :| img in l.images && img.sha == sha;
    NameOfImage(img);
    assert FileName(img) in blobs;
  }

  lemma {:induction false} HasKept(was: map<string, seq<bv8>>, now: map<string, seq<bv8>>, images: seq<Image>, sha: string)
    requires Has(was, sha) && KeptBlobs(was, now, images)
    ensures Has(now, sha)
  {
    var f :| f in was && !IsTmp(f) && |f| >= SHA_LEN && f[..SHA_LEN] == sha;
    assert f in now;
  }

  // ------------------------------------------------- appending, step by step

  /** A moment of clm_session_append: n bytes of the line are in the log. */
  ghost predicate AppendedTo(d: Disk, l: Line, n: nat, e: Disk) {
    && d.log.Some? && n <= |l.text| && e.log == Some(d.log.value + l.text[..n])
    && e.tmp == d.tmp && e.bak == d.bak
    && KeptBlobs(d.blobs, e.blobs, l.images) && (n > 0 ==> Stored(e.blobs, l.images))
  }

  ghost predicate Appending(d: Disk, l: Line, e: Disk) { exists n: nat :: AppendedTo(d, l, n, e) }

  lemma {:induction false} AppendSafe(d: Disk, l: Line, e: Disk)
    requires Inv(d) && Printed(l) && Appending(d, l, e)
    ensures Inv(e) && e.log.Some?
  {
    var n: nat :| AppendedTo(d, l, n, e);
    SpacedGrows(d.log.value, l.text, n);
    assert n == 0 ==> d.log.value + l.text[..n] == d.log.value;
    forall sha | NamedIn(e, sha) ensures Has(e.blobs, sha) {
      if NamedIn(d, sha) {
        HasKept(d.blobs, e.blobs, l.images, sha);
      } else {
        NamesOfGrown(d.log.value, l.text, n, sha);
        HasStored(e.blobs, l, sha);
      }
    }
  }

  // ---------------------------------------------------------------- clearing

  /** blob_gc passes a file by: it is hidden, or an image some log names. */
  ghost predicate Spared(d: Disk, f: string) {
    (f != "" && f[0] == '.') || (!IsTmp(f) && |f| >= SHA_LEN && NamedIn(d, f[..SHA_LEN]))
  }

  /** A moment of blob_gc. */
  ghost predicate Clearing(d: Disk, e: Disk) {
    && e.log == d.log && e.tmp == d.tmp && e.bak == d.bak
    && (forall f | f in e.blobs :: f in d.blobs && e.blobs[f] == d.blobs[f])
    && forall f | f in d.blobs && Spared(d, f) :: f in e.blobs
  }

  lemma {:induction false} ClearSafe(d: Disk, e: Disk)
    requires Inv(d) && Clearing(d, e)
    ensures Inv(e)
  {
    forall sha | NamedIn(e, sha) ensures Has(e.blobs, sha) {
      assert NamedIn(d, sha);
      var f :| f in d.blobs && !IsTmp(f) && |f| >= SHA_LEN && f[..SHA_LEN] == sha;
      assert Spared(d, f);
    }
  }

  // --------------------------------------------------------------- rewriting

  /** read_meta_line, and the break dprintf puts behind it. */
  function Head(t: string): string {
    if t == "" then "\n"
    else
      var n := LineEnd(t);
      if t[n - 1] == '\n' then t[..n] else t[..n] + "\n"
  }

  function Texts(lines: seq<Line>): string {
    if lines == [] then "" else Texts(lines[..|lines| - 1]) + lines[|lines| - 1].text
  }

  function AllImages(lines: seq<Line>): seq<Image> {
    if lines == [] then [] else AllImages(lines[..|lines| - 1]) + lines[|lines| - 1].images
  }

  ghost predicate AllPrinted(lines: seq<Line>) { forall l | l in lines :: Printed(l) }

  function Rewrite(t: string, lines: seq<Line>): string { Head(t) + Texts(lines) }

  /** A moment of clm_session_rewrite before its rename. */
  ghost predicate Rewriting(d: Disk, lines: seq<Line>, e: Disk) {
    && d.log.Some? && e.log == d.log && (e.bak == d.bak || e.bak.NoBackup? || e.bak.Linked?)
    && KeptBlobs(d.blobs, e.blobs, AllImages(lines))
  }

  /** The rename: the new log takes the name, the old one stays under the backup's, if linked. */
  function Renamed(m: Disk, t: string): Disk {
    Disk(Some(t), None, if m.bak.Linked? && m.log.Some? then Apart(m.log.value) else m.bak, m.blobs)
  }

  /** A moment after it, while old images are cleared away. */
  ghost predicate RewrittenVia(d: Disk, lines: seq<Line>, m: Disk, e: Disk) {
    && Rewriting(d, lines, m) && Stored(m.blobs, AllImages(lines))
    && Clearing(Renamed(m, Rewrite(d.log.value, lines)), e)
  }

  ghost predicate Rewritten(d: Disk, lines: seq<Line>, e: Disk) { exists m :: RewrittenVia(d, lines, m, e) }

  /** But for its break the head is the front of the log. */
  lemma {:induction false} HeadPart(t: string, i: nat, j: nat)
    requires i <= j < |Head(t)|
    ensures j <= |t| && Head(t)[i..j] == t[i..j]
  {
    var h := Head(t);
    assert forall m | 0 <= m < |h| - 1 :: h[m] == t[m];
    forall m | 0 <= m < j - i ensures h[i..j][m] == t[i..j][m] { assert h[i + m] == t[i + m]; }
  }

  lemma {:induction false} HeadNames(t: string, sha: string)
    requires Names(Head(t), sha)
    ensures Names(t, sha)
  {
    var k :| NamedAt(Head(t), k, sha);
    var h := Head(t);
    KeyChars();
    SpanHex(h, k, k + SPAN - 1);
    assert k + SPAN <= |h| - 1;
    HeadPart(t, k, k + |KEY|);
    HeadPart(t, k + |KEY|, k + SPAN);
    assert NamedAt(t, k, sha);
  }

  lemma {:induction false} HeadSpaced(t: string)
    requires Spaced(t)
    ensures Spaced(Head(t))
  {
    var h := Head(t);
    KeyChars();
    forall j, k | KeyAt(h, j) && KeyAt(h, k) && j < k ensures j + SPAN <= k {
      KeyHead(h, j, 9);
      KeyHead(h, k, 9);
      HeadPart(t, j, j + |KEY|);
      HeadPart(t, k, k + |KEY|);
      assert KeyAt(t, j) && KeyAt(t, k);
    }
  }

  lemma {:induction false} TextsFacts(t: string, lines: seq<Line>)
    requires Spaced(t) && AllPrinted(lines)
    ensures Spaced(t + Texts(lines))
    decreases |lines|
  {
    if lines == [] {
      assert t + "" == t;
    } else {
      var init, l := lines[..|lines| - 1], lines[|lines| - 1];
      TextsFacts(t, init);
      assert l in lines;
      SpacedGrows(t + Texts(init), l.text, |l.text|);
      assert l in lines && l.text[..|l.text|] == l.text;
      assert t + Texts(lines) == t + Texts(init) + l.text;
    }
  }

  /** A rewritten log names what its first line named and what its records' images are. */
  lemma {:induction false} TextsNames(t: string, lines: seq<Line>, blobs: map<string, seq<bv8>>, sha: string)
    requires AllPrinted(lines) && Stored(blobs, AllImages(lines)) && Names(t + Texts(lines), sha)
    ensures Names(t, sha) || Has(blobs, sha)
    decreases |lines|
  {
    if lines == [] {
      assert t + "" == t;
    } else {
      var init, l := lines[..|lines| - 1], lines[|lines| - 1];
      assert l in lines && l.text[..|l.text|] == l.text;
      assert t + Texts(lines) == t + Texts(init) + l.text;
      NamesOfGrown(t + Texts(init), l.text, |l.text|, sha);
      if Names(l.text, sha) {
        HasStored(blobs, l, sha);
      } else {
        TextsNames(t, init, blobs, sha);
      }
    }
  }

  function TextsOf(lines: seq<Line>): seq<string> {
    seq(|lines|, i requires 0 <= i < |lines| => lines[i].text)
  }

  lemma {:induction false} TextsLines(t: string, lines: seq<Line>)
    requires EndsLine(t) && AllPrinted(lines)
    ensures EndsLine(t + Texts(lines)) && Lines(t + Texts(lines)) == Lines(t) + TextsOf(lines)
    decreases |lines|
  {
    if lines == [] {
      assert t + "" == t && Lines(t) + [] == Lines(t);
    } else {
      var init, l := lines[..|lines| - 1], lines[|lines| - 1];
      assert l in lines;
      TextsLines(t, init);
      OneMore(t + Texts(init), l.text, Lines(t) + TextsOf(init));
      LastText(lines);
      Regroup(t, Texts(init), l.text);
      Regroup(Lines(t), TextsOf(init), [l.text]);
    }
  }

  lemma {:induction false} LastText(lines: seq<Line>)
    requires lines != []
    ensures var init, l := lines[..|lines| - 1], lines[|lines| - 1];
            Texts(lines) == Texts(init) + l.text && TextsOf(lines) == TextsOf(init) + [l.text]
  {
  }

  lemma {:induction false} OneMore(t: string, l: string, have: seq<string>)
    requires LineOk(l) && EndsLine(t) && Lines(t) == have
    ensures EndsLine(t + l) && Lines(t + l) == have + [l]
  {
    AppendedAloneIff(t, l);
  }

  lemma {:induction false} Regroup<T>(a: seq<T>, b: seq<T>, c: seq<T>)
    ensures a + b + c == a + (b + c)
  {
  }

  /** The first line, with its break even where that was missing. */
  lemma {:induction false} HeadLine(t: string)
    ensures EndsLine(Head(t)) && Lines(Head(t)) == [Head(t)]
    ensures t == "" ==> Head(t) == "\n"
    ensures t != "" ==> Head(t) == Lines(t)[0] || Head(t) == Lines(t)[0] + "\n"
    ensures t != "" ==> Head(t)[..|Head(t)| - 1] + "\n" == Head(t)
  {
    if t != "" {
      var n := LineEnd(t);
      assert Lines(t)[0] == t[..n];
      assert (t[..n] + "\n")[..n] == t[..n];
    }
    OneLine(Head(t));
  }

  /** A rewritten log loads as the old first line, then the records, each a line of its own. */
  lemma {:induction false} RewrittenLines(t: string, lines: seq<Line>)
    requires AllPrinted(lines)
    ensures Lines(Rewrite(t, lines)) == [Head(t)] + TextsOf(lines)
  {
    HeadLine(t);
    TextsLines(Head(t), lines);
  }

  lemma {:induction false} RewritingSafe(d: Disk, lines: seq<Line>, e: Disk)
    requires Inv(d) && Rewriting(d, lines, e)
    ensures Inv(e) && e.log == d.log
  {
    forall sha | NamedIn(e, sha) ensures Has(e.blobs, sha) {
      assert NamedIn(d, sha);
      HasKept(d.blobs, e.blobs, AllImages(lines), sha);
    }
  }

  lemma {:induction false} RenameSafe(m: Disk, lines: seq<Line>)
    requires Inv(m) && m.log.Some? && AllPrinted(lines) && Stored(m.blobs, AllImages(lines))
    ensures Inv(Renamed(m, Rewrite(m.log.value, lines)))
  {
    var t := Rewrite(m.log.value, lines);
    var e := Renamed(m, t);
    HeadSpaced(m.log.value);
    TextsFacts(Head(m.log.value), lines);
    forall sha | NamedIn(e, sha) ensures Has(e.blobs, sha) {
      if NamedIn(m, sha) {
      } else {
        TextsNames(Head(m.log.value), lines, m.blobs, sha);
        if Names(Head(m.log.value), sha) { HeadNames(m.log.value, sha); }
      }
    }
  }

  lemma {:induction false} RewriteSafe(d: Disk, lines: seq<Line>, e: Disk)
    requires Inv(d) && AllPrinted(lines) && Rewritten(d, lines, e)
    ensures Inv(e) && e.log == Some(Rewrite(d.log.value, lines))
  {
    var m :| RewrittenVia(d, lines, m, e);
    RewritingSafe(d, lines, m);
    RenameSafe(m, lines);
    ClearSafe(Renamed(m, Rewrite(d.log.value, lines)), e);
  }

  /** The rename takes the log away from under a linked backup: what the backup says stays. */
  lemma {:induction false} BackupStays(d: Disk, lines: seq<Line>, m: Disk, e: Disk)
    requires RewrittenVia(d, lines, m, e)
    ensures e.BakText() == m.BakText() && e.tmp.None?
    ensures m.bak.Linked? ==> e.BakText() == d.log
    ensures !m.bak.Linked? ==> m.bak.NoBackup? || m.bak == d.bak
  {
  }

  // -------------------------------------------------------------------- runs

  datatype Op = Append(line: Line) | Refold(lines: seq<Line>) | Open

  ghost predicate OpPrinted(op: Op) {
    match op
    case Append(l) => Printed(l)
    case Refold(ls) => AllPrinted(ls)
    case Open => true
  }

  /** A moment of the operation, its end included: where a crash may leave the disk. */
  ghost predicate Moment(d: Disk, op: Op, e: Disk) {
    match op
    case Append(l) => Appending(d, l, e)
    case Refold(ls) => Rewriting(d, ls, e) || Rewritten(d, ls, e)
    case Open => Clearing(d, e)
  }

  /** The log's name holds the old log, at most a part of the line more, or the whole new one. */
  ghost predicate LogAsPromised(d: Disk, op: Op, e: Disk) {
    d.log.Some? && e.log.Some? &&
    match op
    case Append(l) => exists n: nat :: n <= |l.text| && e.log.value == d.log.value + l.text[..n]
    case Refold(ls) => e.log == d.log || e.log.value == Rewrite(d.log.value, ls)
    case Open => e.log == d.log
  }

  lemma {:induction false} MomentSafe(d: Disk, op: Op, e: Disk)
    requires Inv(d) && d.log.Some? && OpPrinted(op) && Moment(d, op, e)
    ensures Inv(e) && LogAsPromised(d, op, e)
  {
    match op
    case Append(l) =>
      AppendSafe(d, l, e);
      var n: nat :| AppendedTo(d, l, n, e);
      assert e.log.value == d.log.value + l.text[..n];
    case Refold(ls) => if Rewriting(d, ls, e) { RewritingSafe(d, ls, e); } else { RewriteSafe(d, ls, e); }
    case Open => ClearSafe(d, e);
  }

  /** An image file lives on, unchanged, as long as a log names it. */
  lemma {:induction false} NamedFileLives(d: Disk, op: Op, e: Disk, f: string)
    requires Moment(d, op, e) && f in d.blobs && !IsTmp(f) && |f| >= SHA_LEN && NamedIn(e, f[..SHA_LEN])
    ensures f in e.blobs && e.blobs[f] == d.blobs[f]
  {
    match op
    case Append(l) =>
      var n: nat :| AppendedTo(d, l, n, e);
    case Refold(ls) =>
      if !Rewriting(d, ls, e) {
        var m :| RewrittenVia(d, ls, m, e);
        assert f in m.blobs && m.blobs[f] == d.blobs[f];
        assert Spared(Renamed(m, Rewrite(d.log.value, ls)), f);
      }
    case Open => assert Spared(d, f);
  }

  /** A run: operations one after another, each cut short anywhere or finished. */
  ghost predicate Run(disks: seq<Disk>, ops: seq<Op>) {
    |disks| == |ops| + 1 && forall i | 0 <= i < |ops| :: OpPrinted(ops[i]) && Moment(disks[i], ops[i], disks[i + 1])
  }

  /** Whatever is appended, rewritten or crashed, no log names a missing image and the log is there. */
  lemma {:induction false} RunSafe(disks: seq<Disk>, ops: seq<Op>, i: nat)
    requires Run(disks, ops) && i < |disks| && Inv(disks[0]) && disks[0].log.Some?
    ensures Inv(disks[i]) && disks[i].log.Some?
  {
    if i > 0 {
      RunSafe(disks, ops, i - 1);
      MomentSafe(disks[i - 1], ops[i - 1], disks[i]);
    }
  }

  lemma {:induction false} RunKeepsFile(disks: seq<Disk>, ops: seq<Op>, i: nat, f: string)
    requires Run(disks, ops) && i < |disks| && f in disks[0].blobs && !IsTmp(f) && |f| >= SHA_LEN
    requires forall j | 0 <= j <= i :: NamedIn(disks[j], f[..SHA_LEN])
    ensures f in disks[i].blobs && disks[i].blobs[f] == disks[0].blobs[f]
  {
    if i > 0 {
      RunKeepsFile(disks, ops, i - 1, f);
      NamedFileLives(disks[i - 1], ops[i - 1], disks[i], f);
    }
  }

  /** The step wrote record l: some of its line is appended, or the rewritten log holds it. */
  ghost predicate Wrote(d: Disk, op: Op, e: Disk, l: Line) {
    match op
    case Append(a) => a == l && exists n: nat :: n > 0 && AppendedTo(d, l, n, e)
    case Refold(ls) => l in ls && Rewritten(d, ls, e)
    case Open => false
  }

  lemma {:induction false} ImageOfLines(lines: seq<Line>, l: Line, img: Image)
    requires l in lines && img in l.images
    ensures img in AllImages(lines)
  {
    if l != lines[|lines| - 1] { ImageOfLines(lines[..|lines| - 1], l, img); }
  }

  /** A record that is written has its images in the directory, each under the very name the loader opens. */
  lemma {:induction false} WroteStored(d: Disk, op: Op, e: Disk, l: Line, img: Image)
    requires OpPrinted(op) && Wrote(d, op, e, l) && img in l.images && NamedIn(e, img.sha)
    ensures FileName(img) in e.blobs && !IsTmp(FileName(img))
    ensures |FileName(img)| >= SHA_LEN && FileName(img)[..SHA_LEN] == img.sha
  {
    assert Printed(l);
    NameOfImage(img);
    if op.Refold? { RefoldStored(d, op.lines, e, l, img); } else { AppendStored(d, l, e, img); }
  }

  lemma {:induction false} AppendStored(d: Disk, l: Line, e: Disk, img: Image)
    requires (exists n: nat :: n > 0 && AppendedTo(d, l, n, e)) && img in l.images
    ensures FileName(img) in e.blobs
  {
  }

  lemma {:induction false} RefoldStored(d: Disk, lines: seq<Line>, e: Disk, l: Line, img: Image)
    requires l in lines && Rewritten(d, lines, e) && img in l.images && NamedIn(e, img.sha)
    requires !IsTmp(FileName(img)) && |FileName(img)| >= SHA_LEN && FileName(img)[..SHA_LEN] == img.sha
    ensures FileName(img) in e.blobs
  {
    var m :| RewrittenVia(d, lines, m, e);
    ImageOfLines(lines, l, img);
    ClearSpares(Renamed(m, Rewrite(d.log.value, lines)), e, FileName(img));
  }

  lemma {:induction false} ClearSpares(d: Disk, e: Disk, f: string)
    requires Clearing(d, e) && f in d.blobs && !IsTmp(f) && |f| >= SHA_LEN && NamedIn(e, f[..SHA_LEN])
    ensures f in e.blobs
  {
    assert Spared(d, f);
  }

  lemma {:induction false} RunSuffix(disks: seq<Disk>, ops: seq<Op>, k: nat)
    requires Run(disks, ops) && k < |disks|
    ensures Run(disks[k..], ops[k..])
  {
    forall i | 0 <= i < |ops[k..]| ensures OpPrinted(ops[k..][i]) && Moment(disks[k..][i], ops[k..][i], disks[k..][i + 1]) {
      assert ops[k..][i] == ops[k + i] && disks[k..][i] == disks[k + i] && disks[k..][i + 1] == disks[k + i + 1];
    }
  }

  /**
    Over any run the image files of a record written in it stay, under the full names
    the loader opens and with the same bytes, as long as some log names their hashes.
   */
  lemma {:induction false} RunKeepsRecord(disks: seq<Disk>, ops: seq<Op>, k: nat, i: nat, l: Line, img: Image)
    requires Run(disks, ops) && k < i < |disks|
    requires Wrote(disks[k], ops[k], disks[k + 1], l) && img in l.images
    requires forall j | k < j <= i :: NamedIn(disks[j], img.sha)
    ensures FileName(img) in disks[k + 1].blobs && FileName(img) in disks[i].blobs
    ensures disks[i].blobs[FileName(img)] == disks[k + 1].blobs[FileName(img)]
  {
    assert OpPrinted(ops[k]);
    WroteStored(disks[k], ops[k], disks[k + 1], l, img);
    RunSuffix(disks, ops, k + 1);
    RunKeepsFile(disks[k + 1..], ops[k + 1..], i - k - 1, FileName(img));
  }
}
