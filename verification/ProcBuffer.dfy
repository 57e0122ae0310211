/** The bounded output buffer of a child process: its start, or its start and its newest end. */
module ProcBuffer {
  const FIRST_CAPACITY: nat := 4096

  /** CLM_PROC_KEEP_HEAD: the first max bytes. */
  function FirstBytes(s: seq<bv8>, max: nat): seq<bv8> {
    if |s| <= max then s else s[..max]
  }

  /** CLM_PROC_KEEP_ENDS: everything, or the first head bytes and the newest max - head. */
  function Window(s: seq<bv8>, head: nat, max: nat): (w: seq<bv8>)
    requires head < max
    ensures |w| == if |s| <= max then |s| else max
  {
    if |s| <= max then s else s[..head] + s[|s| - (max - head)..]
  }

  lemma {:induction false} FirstBytesMore(s: seq<bv8>, data: seq<bv8>, max: nat)
    ensures
      var c := FirstBytes(s, max);
      var take := if |data| <= max - |c| then |data| else max - |c|;
      FirstBytes(s + data, max) == c + data[..take]
  {
    if |s| + |data| <= max {
      assert data[..|data|] == data;
    } else if |s| <= max {
      assert (s + data)[..max] == s + data[..max - |s|];
    } else {
      assert (s + data)[..max] == s[..max];
    }
  }

  /** More data than the tail holds leaves the head and the newest of the data. */
  lemma {:induction false} WindowFlood(s: seq<bv8>, data: seq<bv8>, head: nat, max: nat)
    requires head < max && head <= |Window(s, head, max)| && |data| > max - head
    ensures Window(s + data, head, max) == Window(s, head, max)[..head] + data[|data| - (max - head)..]
  {
    var t := s + data;
    assert t[..head] == s[..head] == Window(s, head, max)[..head];
    assert t[|t| - (max - head)..] == data[|data| - (max - head)..];
  }

  /** c without evict bytes behind its head. */
  function Shifted(c: seq<bv8>, head: nat, evict: nat): seq<bv8>
    requires head + evict <= |c|
  {
    c[..head] + c[head + evict..]
  }

  lemma {:induction false} TailOfConcat(s: seq<bv8>, data: seq<bv8>, k: nat)
    requires |data| <= k <= |s| + |data|
    ensures (s + data)[|s| + |data| - k..] == s[|s| + |data| - k..] + data
  {
  }

  lemma {:induction false} HeadOfConcat(s: seq<bv8>, data: seq<bv8>, k: nat)
    requires k <= |s|
    ensures (s + data)[..k] == s[..k]
  {
  }

  /** Otherwise the oldest bytes behind the head make room, as many as needed. */
  lemma {:induction false} WindowShift(s: seq<bv8>, data: seq<bv8>, head: nat, max: nat)
    requires head < max && head <= |Window(s, head, max)| && |data| <= max - head
    ensures
      var c := Window(s, head, max);
      var evict := if |c| + |data| <= max then 0 else |c| + |data| - max;
      Window(s + data, head, max) == Shifted(c, head, evict) + data
  {
    HeadOfConcat(s, data, head);
    if |s| + |data| <= max {
      assert s[..head] + s[head..] == s;
    } else {
      TailOfConcat(s, data, max - head);
      if |s| <= max { ShiftWhole(s, data, head, max); } else { ShiftWindow(s, data, head, max); }
    }
  }

  lemma {:induction false} ShiftWhole(s: seq<bv8>, data: seq<bv8>, head: nat, max: nat)
    requires head <= |s| <= max < |s| + |data| && |data| <= max - head
    ensures
      s[..head] + (s[|s| + |data| - (max - head)..] + data)
      == Shifted(s, head, |s| + |data| - max) + data
  {
    assert head + (|s| + |data| - max) == |s| + |data| - (max - head);
  }

  lemma {:induction false} ShiftWindow(s: seq<bv8>, data: seq<bv8>, head: nat, max: nat)
    requires head < max < |s| && |data| <= max - head
    ensures
      s[..head] + (s[|s| + |data| - (max - head)..] + data)
      == Shifted(s[..head] + s[|s| - (max - head)..], head, |data|) + data
  {
    var tail := s[|s| - (max - head)..];
    assert (s[..head] + tail)[..head] == s[..head];
    assert (s[..head] + tail)[head + |data|..] == tail[|data|..];
    assert tail[|data|..] == s[|s| + |data| - (max - head)..];
  }

  lemma {:induction false} FloodShift(c: seq<bv8>, head: nat, data: seq<bv8>)
    requires head <= |c|
    ensures Shifted(c, head, |c| - head) + data == c[..head] + data
  {
    assert c[head + (|c| - head)..] == [];
  }

  lemma {:induction false} FloodResult(s: seq<bv8>, data: seq<bv8>, head: nat, max: nat)
    requires head < max && head <= |Window(s, head, max)| && |data| > max - head
    ensures
      var c := Window(s, head, max);
      Window(s + data, head, max) == Shifted(c, head, |c| - head) + data[|data| - (max - head)..]
  {
    WindowFlood(s, data, head, max);
    FloodShift(Window(s, head, max), head, data[|data| - (max - head)..]);
  }

  class Output {
    var buf: array<bv8>
    var len: nat
    var dropped: nat
    const max: nat
    const head: nat

    ghost predicate Valid()
      reads this, buf
    {
      && head < max && len <= max && buf.Length <= max + 1
      && (buf.Length == 0 ==> len == 0)
      && (buf.Length > 0 ==> len < buf.Length && buf[len] == 0)
    }

    ghost function Kept(): seq<bv8>
      requires len <= buf.Length
      reads this, buf
    {
      buf[..len]
    }

    /** As clm_proc_spawn sets the limits: a head that is no head is a quarter. */
    constructor (max: nat, head: nat)
      requires max > 0
      ensures Valid() && fresh(buf) && Kept() == [] && dropped == 0
      ensures this.max == max && this.head == (if head < max then head else max / 4)
    {
      this.max := max;
      this.head := if head < max then head else max / 4;
      len, dropped := 0, 0;
      buf := new bv8[0];
    }

    method Grow(need: nat)
      requires Valid() && len <= need <= max
      modifies this`buf
      ensures Valid() && need < buf.Length && Kept() == old(Kept())
      ensures buf == old(buf) || fresh(buf)
      ensures buf[..len] == old(buf[..len])
    {
      var nc := if buf.Length > 0 then buf.Length else FIRST_CAPACITY;
      if need + 1 <= buf.Length {
        return;
      }
      while nc < need + 1
        invariant nc > 0 && nc >= buf.Length
      {
        nc := nc * 2;
      }
      if nc > max + 1 {
        nc := max + 1;
      }
      var b := new bv8[nc](_ => 0);
      forall i | 0 <= i < buf.Length {
        b[i] := buf[i];
      }
      assert buf.Length > 0 ==> b[len] == buf[len];
      assert b[..len] == buf[..len];
      buf := b;
    }

    /** memcpy behind what is kept, and the terminator. */
    method Put(data: seq<bv8>)
      requires head < max && len + |data| < buf.Length <= max + 1
      modifies this`len, buf
      ensures Valid() && Kept() == old(buf[..len]) + data
    {
      forall i | 0 <= i < |data| {
        buf[len + i] := data[i];
      }
      assert buf[..len] == old(buf[..len]);
      assert buf[len..len + |data|] == data;
      assert buf[..len + |data|] == buf[..len] + buf[len..len + |data|];
      len := len + |data|;
      buf[len] := 0;
      assert buf[..len] == old(buf[..len]) + data;
    }

    method KeepHead(data: seq<bv8>)
      requires Valid()
      modifies this`buf, this`len, this`dropped, buf
      ensures Valid() && (buf == old(buf) || fresh(buf))
      ensures
        var take := if |data| <= max - old(len) then |data| else max - old(len);
        Kept() == old(Kept()) + data[..take] && dropped == old(dropped) + |data| - take
    {
      var take := if len >= max then 0 else max - len;
      if take > |data| {
        take := |data|;
      }
      dropped := dropped + |data| - take;
      if take == 0 {
        assert Kept() + data[..0] == Kept();
        return;
      }
      Grow(len + take);
      Put(data[..take]);
    }

    /** memmove: evict bytes go from behind the head. */
    method Evict(evict: nat)
      requires Valid() && head + evict <= len
      modifies this`len, this`dropped, buf
      ensures len == old(len) - evict && dropped == old(dropped) + evict
      ensures buf[..len] == old(buf[..head]) + old(buf[head + evict..len])
    {
      var k := len - head - evict;
      forall i | 0 <= i < k {
        buf[head + i] := buf[head + evict + i];
      }
      assert buf[..head] == old(buf[..head]);
      assert buf[head..head + k] == old(buf[head + evict..len]);
      assert buf[..head + k] == buf[..head] + buf[head..head + k];
      len := len - evict;
      dropped := dropped + evict;
    }

    /** The oldest bytes behind the head make room for data. */
    method ShiftIn(data: seq<bv8>)
      requires Valid() && head <= len && |data| <= max - head
      modifies this`buf, this`len, this`dropped, buf
      ensures Valid() && (buf == old(buf) || fresh(buf))
      ensures
        var evict := if old(len) + |data| <= max then 0 else old(len) + |data| - max;
        && Kept() == Shifted(old(Kept()), head, evict) + data
        && dropped == old(dropped) + evict
    {
      var want := if len + |data| < max then len + |data| else max;
      Grow(want);
      ghost var c := Kept();
      if len + |data| > max {
        Evict(len + |data| - max);
      } else {
        assert c[..head] + c[head..] == c;
      }
      Put(data);
    }

    /** The part of keep_ends past the head; s is the stream so far. */
    method KeepNewest(data: seq<bv8>, ghost s: seq<bv8>)
      requires Valid() && head <= len && Kept() == Window(s, head, max)
      modifies this`buf, this`len, this`dropped, buf
      ensures Valid() && (buf == old(buf) || fresh(buf))
      ensures Kept() == Window(s + data, head, max)
      ensures dropped + len == old(dropped) + old(len) + |data|
    {
      var room := max - head;
      if |data| > room {
        FloodResult(s, data, head, max);
        dropped := dropped + |data| - room;
        ShiftIn(data[|data| - room..]);
      } else {
        WindowShift(s, data, head, max);
        ShiftIn(data);
      }
    }

    method KeepEnds(data: seq<bv8>, ghost s: seq<bv8>)
      requires Valid() && Kept() == Window(s, head, max)
      modifies this`buf, this`len, this`dropped, buf
      ensures Valid() && (buf == old(buf) || fresh(buf))
      ensures Kept() == Window(s + data, head, max)
      ensures dropped + len == old(dropped) + old(len) + |data|
    {
      if len < head {
        // The start goes to the head region first, whatever the chunk size.
        var take := if head - len < |data| then head - len else |data|;
        assert data[..take][..take] == data[..take];
        KeepHead(data[..take]);
        assert Kept() == s + data[..take];
        assert s + data[..take] + data[take..] == s + data;
        if take == |data| {
          assert data[..take] == data;
          return;
        }
        KeepNewest(data[take..], s + data[..take]);
      } else {
        KeepNewest(data, s);
      }
    }
  }

  datatype Keep = Head | Ends

  /** What on_read has kept of a stream. */
  function KeptOf(keep: Keep, s: seq<bv8>, head: nat, max: nat): (r: seq<bv8>)
    requires head < max
    ensures |r| <= |s|
  {
    if keep.Head? then FirstBytes(s, max) else Window(s, head, max)
  }

  /** With the head kept the stream's first bytes stay; with both ends its first head bytes and its newest do. */
  lemma {:induction false} KeptBytes(keep: Keep, s: seq<bv8>, head: nat, max: nat, i: nat)
    requires head < max && i < |KeptOf(keep, s, head, max)|
    ensures |KeptOf(keep, s, head, max)| == (if |s| <= max then |s| else max) <= |s|
    ensures KeptOf(keep, s, head, max)[i] == if keep.Head? || i < head then s[i] else s[i + (|s| - |KeptOf(keep, s, head, max)|)]
  {
  }

  function Joined(chunks: seq<seq<bv8>>): seq<bv8> {
    if chunks == [] then [] else Joined(chunks[..|chunks| - 1]) + chunks[|chunks| - 1]
  }

  /** Whatever the chunks, the buffer ends as the stream alone decides, and no byte goes uncounted. */
  method ReadAll(p: Output, keep: Keep, chunks: seq<seq<bv8>>)
    requires p.Valid() && p.len == 0 && p.dropped == 0
    modifies p, p.buf
    ensures p.Valid() && p.Kept() == KeptOf(keep, Joined(chunks), p.head, p.max)
    ensures p.len + p.dropped == |Joined(chunks)|
  {
    assert chunks[..|chunks|] == chunks;
    for i := 0 to |chunks|
      invariant p.Valid() && (p.buf == old(p.buf) || fresh(p.buf))
      invariant p.Kept() == KeptOf(keep, Joined(chunks[..i]), p.head, p.max)
      invariant p.len + p.dropped == |Joined(chunks[..i])|
    {
      ghost var s := Joined(chunks[..i]);
      assert chunks[..i + 1][..i] == chunks[..i];
      if keep == Ends {
        p.KeepEnds(chunks[i], s);
      } else {
        FirstBytesMore(s, chunks[i], p.max);
        p.KeepHead(chunks[i]);
      }
    }
  }
}
