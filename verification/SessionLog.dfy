/**
  The session files as the code writes them, one system call after another. Each
  state the disk passes through is kept in moments: a crash leaves one of them.
 */
module SessionLog {
  import opened Wrappers
  import opened SessionSpec

  /** Only image files were added. */
  ghost predicate OnlyImages(d: Disk, images: seq<Image>, e: Disk) {
    e.log == d.log && e.tmp == d.tmp && e.bak == d.bak && KeptBlobs(d.blobs, e.blobs, images)
  }

  lemma {:induction false} OnlyImagesJoin(d: Disk, a: seq<Image>, m: Disk, b: seq<Image>, e: Disk)
    requires OnlyImages(d, a, m) && OnlyImages(m, b, e)
    ensures OnlyImages(d, a + b, e)
  {
    forall f | f in e.blobs && !IsTmp(f) && f !in d.blobs
      ensures exists img :: img in a + b && f == FileName(img) && e.blobs[f] == img.data
    {
      if f in m.blobs {
        var img :| img in a && f == FileName(img) && m.blobs[f] == img.data;
        assert img in a + b;
      } else {
        var img :| img in b && f == FileName(img) && e.blobs[f] == img.data;
        assert img in a + b;
      }
    }
  }

  lemma {:induction false} OnlyImagesMore(d: Disk, a: seq<Image>, e: Disk, b: seq<Image>)
    requires OnlyImages(d, a, e)
    ensures OnlyImages(d, a + b, e)
  {
    forall f | f in e.blobs && !IsTmp(f) && f !in d.blobs
      ensures exists img :: img in a + b && f == FileName(img) && e.blobs[f] == img.data
    {
      var img :| img in a && f == FileName(img) && e.blobs[f] == img.data;
      assert img in a + b;
    }
  }

  predicate ImagesOk(images: seq<Image>) { forall img | img in images :: ShaValid(img.sha) && img.ext in Exts() }

  /** strstr for the key, from the given place. */
  method FindKey(t: string, from: nat) returns (k: int)
    requires from <= |t|
    ensures k == -1 ==> Found(t, from) == []
    ensures k != -1 ==> from <= k && KeyAt(t, k) && Found(t, from) == Found(t, k)
  {
    k := from;
    while k + |KEY| <= |t|
      invariant from <= k <= |t| && Found(t, k) == Found(t, from)
    {
      if t[k..k + |KEY|] == KEY {
        return;
      }
      k := k + 1;
    }
    k := -1;
  }

  /** blob_refs_from. */
  method BlobRefsFrom(t: string) returns (refs: seq<string>)
    ensures refs == Found(t, 0)
  {
    refs := [];
    var p := 0;
    while true
      invariant 0 <= p <= |t|
      invariant refs + Found(t, p) == Found(t, 0)
      decreases |t| - p
    {
      var k := FindKey(t, p);
      if k == -1 {
        assert refs + [] == refs;
        return;
      }
      if |t| - k < SPAN {
        assert refs + [] == refs;
        return;
      }
      var sha := t[k + |KEY|..k + SPAN];
      if ShaValid(sha) {
        refs := refs + [sha];
      }
      p := k + SPAN;
    }
  }

  /** refs_have: the first 64 bytes of the name are one of refs. */
  method RefsHave(refs: seq<string>, name: string) returns (have: bool)
    requires forall r | r in refs :: |r| == SHA_LEN
    ensures have <==> |name| >= SHA_LEN && name[..SHA_LEN] in refs
  {
    for i := 0 to |refs|
      invariant |name| >= SHA_LEN ==> name[..SHA_LEN] !in refs[..i]
    {
      if |name| >= SHA_LEN && name[..SHA_LEN] == refs[i] {
        return true;
      }
    }
    assert refs[..|refs|] == refs;
    return false;
  }

  class Session {
    var disk: Disk
    ghost var moments: set<Disk>
    const calm: bool    // no system call fails or falls short

    constructor (d: Disk, calm: bool)
      ensures disk == d && moments == {d} && this.calm == calm
    {
      disk, moments := d, {d};
      this.calm := calm;
    }

    /** Every change of the disk goes through here. */
    method Commit(d: Disk)
      modifies this
      ensures disk == d && moments == old(moments) + {d}
    {
      disk := d;
      moments := moments + {d};
    }

    // ------------------------------------------------------------- images

    /** The write loop of blob_write; any part of the data may be on disk when it stops. */
    method FillTmp(tmp: string, data: seq<bv8>) returns (ok: bool)
      requires IsTmp(tmp) && tmp in disk.blobs && disk.blobs[tmp] == []
      modifies this
      ensures disk.tmp == old(disk).tmp && tmp in disk.blobs && (ok ==> disk.blobs[tmp] == data) && (calm ==> ok)
      ensures OnlyImages(old(disk), [], disk)
      ensures forall t | t in moments && t !in old(moments) :: OnlyImages(old(disk), [], t)
    {
      var len := |data|;
      while len > 0
        invariant 0 <= len <= |data|
        invariant tmp in disk.blobs && disk.blobs[tmp] == data[..|data| - len]
        invariant OnlyImages(old(disk), [], disk)
        invariant forall t | t in moments && t !in old(moments) :: OnlyImages(old(disk), [], t)
      {
        var fails: bool := *;
        if fails && !calm {
          return false;
        }
        var w: nat :| 0 < w <= len;
        Commit(disk.(blobs := disk.blobs[tmp := data[..|data| - len + w]]));
        len := len - w;
      }
      assert data[..|data|] == data;
      return true;
    }

    /** blob_write: under a name that only ever holds the whole image. */
    method BlobWrite(img: Image) returns (ok: bool)
      requires ShaValid(img.sha) && img.ext in Exts()
      modifies this
      ensures (ok ==> FileName(img) in disk.blobs) && (calm ==> ok)
      ensures OnlyImages(old(disk), [img], disk)
      ensures forall t | t in moments && t !in old(moments) :: OnlyImages(old(disk), [img], t)
    {
      var path := FileName(img);
      if path in disk.blobs {
        return true;
      }
      var tmp := path + ".tmp";
      TmpName(path);
      var opens: bool := *;
      if !opens && !calm {
        return false;
      }
      TmpPut(disk, tmp, [], [img]);
      Commit(disk.(blobs := disk.blobs[tmp := []]));
      ok := FillAndLand(img, tmp);
      forall t | (t in moments && t !in old(moments)) || t == disk ensures OnlyImages(old(disk), [img], t) {
        if OnlyImages(old(disk).(blobs := old(disk).blobs[tmp := []]), [img], t) {
          OnlyImagesJoin(old(disk), [], old(disk).(blobs := old(disk).blobs[tmp := []]), [img], t);
          assert [] + [img] == [img];
        }
      }
    }

    /** The data, then fsync and rename; a failure leaves no temporary file. */
    method FillAndLand(img: Image, tmp: string) returns (ok: bool)
      requires ShaValid(img.sha) && img.ext in Exts() && IsTmp(tmp)
      requires tmp in disk.blobs && disk.blobs[tmp] == [] && FileName(img) !in disk.blobs
      modifies this
      ensures (ok ==> FileName(img) in disk.blobs) && (calm ==> ok)
      ensures OnlyImages(old(disk), [img], disk)
      ensures forall t | t in moments && t !in old(moments) :: OnlyImages(old(disk), [img], t)
    {
      ghost var was := disk;
      ok := FillTmp(tmp, img.data);
      forall t | (t in moments && t !in old(moments)) || t == disk ensures OnlyImages(was, [img], t) {
        OnlyImagesMore(was, [], t, [img]);
        assert [] + [img] == [img];
      }
      var lands: bool := *;
      if ok && (lands || calm) {
        Landed(was, disk, img, tmp);
        Commit(disk.(blobs := (disk.blobs - {tmp})[FileName(img) := img.data]));
        return true;
      }
      TmpGone(was, disk, tmp, [img]);
      Commit(disk.(blobs := disk.blobs - {tmp}));
      return false;
    }

    static lemma {:induction false} TmpName(path: string)
      ensures IsTmp(path + ".tmp")
    {
      assert (path + ".tmp")[|path|..] == ".tmp";
    }

    static lemma {:induction false} TmpPut(d: Disk, tmp: string, data: seq<bv8>, images: seq<Image>)
      requires IsTmp(tmp)
      ensures OnlyImages(d, images, d.(blobs := d.blobs[tmp := data]))
      ensures OnlyImages(d, [], d.(blobs := d.blobs[tmp := data]))
    {
    }

    static lemma {:induction false} TmpGone(was: Disk, d: Disk, tmp: string, images: seq<Image>)
      requires IsTmp(tmp) && OnlyImages(was, images, d)
      ensures OnlyImages(was, images, d.(blobs := d.blobs - {tmp}))
    {
    }

    static lemma {:induction false} Landed(was: Disk, d: Disk, img: Image, tmp: string)
      requires IsTmp(tmp) && OnlyImages(was, [], d) && FileName(img) !in was.blobs
      ensures OnlyImages(was, [img], d.(blobs := (d.blobs - {tmp})[FileName(img) := img.data]))
    {
      assert img in [img];
    }

    /** store_attachments. */
    method StoreAttachments(images: seq<Image>) returns (ok: bool)
      requires ImagesOk(images)
      modifies this
      ensures (ok ==> Stored(disk.blobs, images)) && (calm ==> ok)
      ensures OnlyImages(old(disk), images, disk)
      ensures forall t | t in moments && t !in old(moments) :: OnlyImages(old(disk), images, t)
    {
      assert images[..|images|] == images;
      for i := 0 to |images|
        invariant Stored(disk.blobs, images[..i])
        invariant OnlyImages(old(disk), images[..i], disk)
        invariant forall t | t in moments && t !in old(moments) :: OnlyImages(old(disk), images, t)
      {
        ok := StoreOne(images, i, old(disk));
        if !ok {
          OnlyImagesMore(old(disk), images[..i + 1], disk, images[i + 1..]);
          assert images[..i + 1] + images[i + 1..] == images;
          return false;
        }
      }
      return true;
    }

    method StoreOne(images: seq<Image>, i: nat, ghost was: Disk) returns (ok: bool)
      requires ImagesOk(images) && i < |images|
      requires OnlyImages(was, images[..i], disk) && Stored(disk.blobs, images[..i])
      modifies this
      ensures (ok ==> Stored(disk.blobs, images[..i + 1])) && (calm ==> ok)
      ensures OnlyImages(was, images[..i + 1], disk)
      ensures forall t | t in moments && t !in old(moments) :: OnlyImages(was, images, t)
    {
      ghost var before := disk;
      ok := BlobWrite(images[i]);
      assert images[..i + 1] == images[..i] + [images[i]];
      assert images[..i + 1] + images[i + 1..] == images;
      forall t | (t in moments && t !in old(moments)) || t == disk
        ensures OnlyImages(was, images[..i + 1], t) && OnlyImages(was, images, t)
      {
        OnlyImagesJoin(was, images[..i], before, [images[i]], t);
        OnlyImagesMore(was, images[..i + 1], t, images[i + 1..]);
      }
      StoredKept(was, images[..i], before, images[i], disk);
    }

    static lemma {:induction false} StoredKept(was: Disk, images: seq<Image>, d: Disk, img: Image, e: Disk)
      requires ImagesOk(images) && Stored(d.blobs, images) && OnlyImages(d, [img], e)
      ensures Stored(e.blobs, images)
    {
      forall i | i in images ensures FileName(i) in e.blobs { NameOfImage(i); }
    }

    // ---------------------------------------------------------- clearing up

    /** blob_gc; swept says that no unlink failed. */
    method BlobGc() returns (ghost swept: bool)
      requires Inv(disk)
      modifies this
      ensures Clearing(old(disk), disk)
      ensures forall t | t in moments && t !in old(moments) :: Clearing(old(disk), t)
      ensures (swept ==> forall f | f in disk.blobs :: Spared(old(disk), f)) && (calm ==> swept)
    {
      ghost var was := disk;
      var refs: seq<string> := [];
      var bak := disk.BakText();
      if disk.log.Some? {
        refs := BlobRefsFrom(disk.log.value);
      }
      if bak.Some? {
        var more := BlobRefsFrom(bak.value);
        refs := refs + more;
      }
      RefsAreNames(was, refs);
      var names := disk.blobs.Keys;
      swept := true;
      while names != {}
        invariant names <= disk.blobs.Keys && Clearing(was, disk)
        invariant forall t | t in moments && t !in old(moments) :: Clearing(was, t)
        invariant (swept ==> forall f | f in disk.blobs && f !in names :: Spared(was, f)) && (calm ==> swept)
        decreases |names|
      {
        var f :| f in names;
        names := names - {f};
        if f != "" && f[0] == '.' {
          continue;
        }
        var have := RefsHave(refs, f);
        if !IsTmp(f) && have {
          continue;
        }
        var goes: bool := *;
        if goes || calm {
          Commit(disk.(blobs := disk.blobs - {f}));
        } else {
          swept := false;
        }
      }
    }

    static lemma {:induction false} RefsAreNames(d: Disk, refs: seq<string>)
      requires Inv(d)
      requires refs == (if d.log.Some? then Found(d.log.value, 0) else [])
                       + (if d.BakText().Some? then Found(d.BakText().value, 0) else [])
      ensures forall sha :: sha in refs <==> NamedIn(d, sha)
      ensures forall r | r in refs :: |r| == SHA_LEN
    {
      forall sha ensures sha in refs <==> NamedIn(d, sha) {
        if d.log.Some? { FoundIffNamed(d.log.value, sha); }
        if d.BakText().Some? { FoundIffNamed(d.BakText().value, sha); }
      }
    }

    // ------------------------------------------------------------ appending

    /** write_line on the log: any part of the text may land, and a short write is an error. */
    method WriteLog(text: string) returns (ok: bool, ghost n: nat)
      requires disk.log.Some?
      modifies this
      ensures n <= |text| && ok == (n == |text|) && (calm ==> ok)
      ensures disk == old(disk).(log := Some(old(disk).log.value + text[..n]))
      ensures forall t | t in moments && t !in old(moments) ::
                exists k: nat :: k <= |text| && t == old(disk).(log := Some(old(disk).log.value + text[..k]))
    {
      ghost var was := disk;
      var lands: nat :| lands <= |text| && (calm ==> lands == |text|);
      assert was.log.value + text[..0] == was.log.value;
      for i := 0 to lands
        invariant disk == was.(log := Some(was.log.value + text[..i]))
        invariant forall t | t in moments && t !in old(moments) ::
                    exists k: nat :: k <= |text| && t == was.(log := Some(was.log.value + text[..k]))
      {
        assert was.log.value + text[..i] + [text[i]] == was.log.value + text[..i + 1];
        Commit(disk.(log := Some(disk.log.value + [text[i]])));
      }
      ok, n := lands == |text|, lands;
    }

    /** clm_session_append: the images first, then the line that names them. */
    method Append(l: Line) returns (ok: bool)
      requires disk.log.Some? && Printed(l)
      modifies this
      ensures disk in moments && forall t | t in moments :: Appending(old(disk), l, t)
      ensures ok ==> disk.log == Some(old(disk).log.value + l.text) && Stored(disk.blobs, l.images)
      ensures calm ==> ok
    {
      ghost var was := disk;
      moments := {disk};
      assert was.log.value + l.text[..0] == was.log.value;
      ok := StoreAttachments(l.images);
      ghost var mid := disk;
      moments := moments + {disk};
      forall t | t in moments ensures Appending(was, l, t) { assert AppendedTo(was, l, 0, t); }
      if !ok {
        return;
      }
      ghost var before := moments;
      ghost var n;
      ok, n := WriteLog(l.text);
      forall t | t in moments && t !in before ensures Appending(was, l, t) {
        var k: nat :| k <= |l.text| && t == mid.(log := Some(mid.log.value + l.text[..k]));
        assert AppendedTo(was, l, k, t);
      }
      assert AppendedTo(was, l, n, disk);
      assert l.text[..|l.text|] == l.text;
      moments := moments + {disk};
    }

    /** clm_session_open. */
    method Open() returns (ok: bool)
      requires Inv(disk)
      modifies this
      ensures ok == old(disk).log.Some?
      ensures disk in moments && forall t | t in moments :: Clearing(old(disk), t)
      ensures calm && ok ==> forall f | f in disk.blobs :: Spared(old(disk), f)
    {
      moments := {disk};
      if disk.log.None? {
        return false;
      }
      ghost var swept := BlobGc();
      moments := moments + {disk};
      return true;
    }

    // ------------------------------------------------------------ rewriting

    /** What reaches the temporary file; no one reads it before its rename. */
    method WriteTmp(text: string) returns (ok: bool)
      requires disk.tmp.Some?
      modifies this
      ensures exists t :: disk == old(disk).(tmp := Some(t)) && (ok ==> t == old(disk).tmp.value + text)
      ensures calm ==> ok
      ensures moments == old(moments) + {disk}
    {
      var n: nat :| n <= |text| && (calm ==> n == |text|);
      Commit(disk.(tmp := Some(disk.tmp.value + text[..n])));
      assert text[..|text|] == text;
      ok := n == |text|;
    }

    /** The message loop of clm_session_rewrite. */
    method WriteRecords(lines: seq<Line>, ghost was: Disk, head: string) returns (ok: bool)
      requires AllPrinted(lines) && Rewriting(was, [], disk) && disk.tmp == Some(head)
      modifies this
      ensures Rewriting(was, lines, disk) && disk.bak == old(disk).bak
      ensures forall t | t in moments && t !in old(moments) :: Rewriting(was, lines, t)
      ensures ok ==> Stored(disk.blobs, AllImages(lines)) && disk.tmp == Some(head + Texts(lines))
      ensures calm ==> ok
    {
      assert lines[..0] == [] && lines[..|lines|] == lines && head + "" == head;
      for i := 0 to |lines|
        invariant Rewriting(was, lines[..i], disk) && disk.bak == old(disk).bak
        invariant Stored(disk.blobs, AllImages(lines[..i])) && disk.tmp == Some(head + Texts(lines[..i]))
        invariant forall t | t in moments && t !in old(moments) :: Rewriting(was, lines, t)
      {
        ok := WriteRecord(lines, i, was, head);
        if !ok {
          RewritingMore(was, lines, i + 1, disk);
          return;
        }
      }
      return true;
    }

    method WriteRecord(lines: seq<Line>, i: nat, ghost was: Disk, head: string) returns (ok: bool)
      requires AllPrinted(lines) && i < |lines| && Rewriting(was, lines[..i], disk)
      requires Stored(disk.blobs, AllImages(lines[..i])) && disk.tmp == Some(head + Texts(lines[..i]))
      modifies this
      ensures Rewriting(was, lines[..i + 1], disk) && disk.bak == old(disk).bak
      ensures forall t | t in moments && t !in old(moments) :: Rewriting(was, lines, t)
      ensures ok ==> Stored(disk.blobs, AllImages(lines[..i + 1])) && disk.tmp == Some(head + Texts(lines[..i + 1]))
      ensures calm ==> ok
    {
      ok := StoreRecord(lines, i, was);
      if ok {
        ok := WriteTmp(lines[i].text);
        assert lines[..i + 1][..i] == lines[..i];
        assert head + Texts(lines[..i]) + lines[i].text == head + Texts(lines[..i + 1]);
        RewritingMore(was, lines, i + 1, disk);
      }
    }

    /** The images of record i. */
    method StoreRecord(lines: seq<Line>, i: nat, ghost was: Disk) returns (ok: bool)
      requires AllPrinted(lines) && i < |lines| && Rewriting(was, lines[..i], disk)
      requires Stored(disk.blobs, AllImages(lines[..i]))
      modifies this
      ensures Rewriting(was, lines[..i + 1], disk) && disk.bak == old(disk).bak && disk.tmp == old(disk).tmp
      ensures forall t | t in moments && t !in old(moments) :: Rewriting(was, lines, t)
      ensures (ok ==> Stored(disk.blobs, AllImages(lines[..i + 1]))) && (calm ==> ok)
    {
      ghost var d := disk;
      assert Printed(lines[i]);
      ok := StoreAttachments(lines[i].images);
      RewritingGrows(was, lines, i, d, disk);
      forall t | t in moments && t !in old(moments) ensures Rewriting(was, lines, t) {
        RewritingGrows(was, lines, i, d, t);
        RewritingMore(was, lines, i + 1, t);
      }
      if ok { AllStoredKept(lines, i, d, disk); }
    }

    static lemma {:induction false} RewritingGrows(was: Disk, lines: seq<Line>, i: nat, d: Disk, e: Disk)
      requires i < |lines| && Rewriting(was, lines[..i], d) && OnlyImages(d, lines[i].images, e)
      ensures Rewriting(was, lines[..i + 1], e)
    {
      assert lines[..i + 1][..i] == lines[..i];
      var a, b := was.(tmp := None, bak := NoBackup), d.(tmp := None, bak := NoBackup);
      OnlyImagesJoin(a, AllImages(lines[..i]), b, lines[i].images, e.(tmp := None, bak := NoBackup));
    }

    static lemma {:induction false} ImagesOfPart(lines: seq<Line>, i: nat, img: Image)
      requires i <= |lines| && img in AllImages(lines[..i])
      ensures img in AllImages(lines)
      decreases |lines|
    {
      if i == |lines| {
        assert lines[..i] == lines;
      } else {
        var init := lines[..|lines| - 1];
        assert init[..i] == lines[..i];
        ImagesOfPart(init, i, img);
      }
    }

    static lemma {:induction false} RewritingMore(was: Disk, lines: seq<Line>, i: nat, e: Disk)
      requires i <= |lines| && Rewriting(was, lines[..i], e)
      ensures Rewriting(was, lines, e)
    {
      forall f | f in e.blobs && !IsTmp(f) && f !in was.blobs
        ensures exists img :: img in AllImages(lines) && f == FileName(img) && e.blobs[f] == img.data
      {
        var img :| img in AllImages(lines[..i]) && f == FileName(img) && e.blobs[f] == img.data;
        ImagesOfPart(lines, i, img);
      }
    }

    static lemma {:induction false} AllImagesOk(lines: seq<Line>)
      requires AllPrinted(lines)
      ensures ImagesOk(AllImages(lines))
    {
      if lines != [] {
        AllImagesOk(lines[..|lines| - 1]);
        assert Printed(lines[|lines| - 1]);
      }
    }

    static lemma {:induction false} AllStoredKept(lines: seq<Line>, i: nat, d: Disk, e: Disk)
      requires AllPrinted(lines) && i < |lines| && Stored(d.blobs, AllImages(lines[..i]))
      requires OnlyImages(d, lines[i].images, e) && Stored(e.blobs, lines[i].images)
      ensures Stored(e.blobs, AllImages(lines[..i + 1]))
    {
      assert lines[..i + 1][..i] == lines[..i];
      AllImagesOk(lines[..i]);
      forall img | img in AllImages(lines[..i]) ensures FileName(img) in e.blobs { NameOfImage(img); }
    }

    /** read_meta_line, with the line break the rewrite puts behind it. */
    method ReadMetaLine(t: string) returns (meta: string)
      requires t != ""
      ensures meta == Head(t)
    {
      var n := 0;
      while n < |t| && t[n] != '\n'
        invariant 0 <= n <= |t| && forall i | 0 <= i < n :: t[i] != '\n'
      {
        n := n + 1;
      }
      LineEndUnique(t, if n < |t| then n + 1 else n);
      meta := t[..n] + "\n";
      if n < |t| { assert t[..n + 1] == meta; }
    }

    /** One cycle of backup, by hard link; the link may be refused. */
    method LinkBackup()
      modifies this
      ensures disk == old(disk).(bak := NoBackup) || disk == old(disk).(bak := Linked)
      ensures calm ==> disk.bak.Linked?
      ensures moments <= old(moments) + {old(disk).(bak := NoBackup), disk} && disk in moments
    {
      Commit(disk.(bak := NoBackup));
      var links: bool := *;
      if links || calm {
        Commit(disk.(bak := Linked));
      }
    }

    /**
      clm_session_rewrite; lines holds the model record, if any, and the history.
      A crash leaves the old log or the whole new one, and never an image short.
     */
    method Rewrite(lines: seq<Line>) returns (ok: bool)
      requires Inv(disk) && AllPrinted(lines)
      modifies this
      ensures disk in moments
      ensures forall t | t in moments ::
                t == old(disk) || Rewriting(old(disk), lines, t) || Rewritten(old(disk), lines, t)
      ensures ok ==> Rewritten(old(disk), lines, disk) && (disk.bak.NoBackup? || disk.bak == Apart(old(disk).log.value))
      ensures !ok ==> disk.log == old(disk).log
      ensures calm && old(disk).log.Some? && old(disk).log.value != "" ==> ok && disk.bak == Apart(old(disk).log.value)
      ensures calm && ok ==> forall f | f in disk.blobs :: Spared(disk, f)
    {
      ghost var was := disk;
      moments := {disk};
      if disk.log.None? || disk.log.value == "" {
        return false;
      }
      ok := Prepare(lines);
      if ok {
        var lands: bool := *;
        if lands || calm {
          Swap(lines, was);
          return true;
        }
      }
      Commit(disk.(tmp := None));
      return false;
    }

    /** Everything up to the rename. */
    method Prepare(lines: seq<Line>) returns (ok: bool)
      requires AllPrinted(lines) && disk.log.Some? && disk.log.value != ""
      modifies this
      ensures Rewriting(old(disk), lines, disk)
      ensures forall t | t in moments && t !in old(moments) :: Rewriting(old(disk), lines, t)
      ensures ok ==> Stored(disk.blobs, AllImages(lines)) && !disk.bak.Apart?
      ensures ok ==> disk.tmp == Some(SessionSpec.Rewrite(old(disk).log.value, lines))
      ensures calm ==> ok && disk.bak.Linked?
    {
      ghost var was := disk;
      var meta := ReadMetaLine(disk.log.value);
      var opens: bool := *;
      if !opens && !calm {
        return false;
      }
      Commit(disk.(tmp := Some("")));
      ok := WriteTmp(meta);
      if !ok {
        return;
      }
      assert "" + meta == meta;
      ok := WriteRecords(lines, was, meta);
      var syncs: bool := *;
      if !ok || (!syncs && !calm) {
        return false;
      }
      LinkBackup();
    }

    /** The rename, and what it makes superfluous. */
    method Swap(lines: seq<Line>, ghost was: Disk)
      requires Inv(was) && AllPrinted(lines) && Rewriting(was, lines, disk)
      requires Stored(disk.blobs, AllImages(lines)) && !disk.bak.Apart?
      requires disk.tmp == Some(SessionSpec.Rewrite(was.log.value, lines))
      modifies this
      ensures Rewritten(was, lines, disk) && (disk.bak.NoBackup? || disk.bak == Apart(was.log.value))
      ensures disk in moments && forall t | t in moments && t !in old(moments) :: Rewritten(was, lines, t)
      ensures calm ==> forall f | f in disk.blobs :: Spared(disk, f)
      ensures old(disk).bak.Linked? ==> disk.bak == Apart(was.log.value)
    {
      ghost var m := disk;
      RewritingSafe(was, lines, m);
      RenameSafe(m, lines);
      Commit(Disk(disk.tmp, None, if disk.bak.Linked? then Apart(disk.log.value) else disk.bak, disk.blobs));
      ghost var renamed := disk;
      assert renamed == Renamed(m, SessionSpec.Rewrite(was.log.value, lines));
      ghost var swept := BlobGc();
      forall t | (t in moments && t !in old(moments)) || t == disk ensures Rewritten(was, lines, t) {
        assert RewrittenVia(was, lines, m, t);
      }
      moments := moments + {disk};
    }
  }
}
