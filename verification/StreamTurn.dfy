/**
  The turn's streaming buffers, filled in place as data arrives.
 */
module StreamTurn {
  import opened Wrappers
  import opened Messages
  import opened Stream

  class Streaming<E(!new), S(!new)> {
    const provider: Provider<E, S>
    var line: string
    var text: string
    var calls: seq<Slot>
    var finish: Option<string>
    var usage: Option<Usage>
    var state: S
    var cancelling: bool  // the agent's flag

    constructor (provider: Provider<E, S>, state: S)
      ensures this.provider == provider
      ensures Now() == Turn("", Assembly("", [], None, None), state) && !cancelling
    {
      this.provider, this.state := provider, state;
      line, text, calls, finish, usage := "", "", [], None, None;
      cancelling := false;
    }

    function Now(): Turn<S>
      reads this
    {
      Turn(line, Assembly(text, calls, finish, usage), state)
    }

    /** stream_get_call. */
    method GetCall(index: nat)
      modifies this`calls
      ensures calls == Grow(old(calls), index)
    {
      while |calls| <= index
        invariant |calls| >= |old(calls)| && (|calls| > |old(calls)| ==> |calls| <= index + 1)
        invariant forall j | 0 <= j < |calls| :: calls[j] == if j < |old(calls)| then old(calls)[j] else EMPTY
        decreases index + 1 - |calls|
      {
        calls := calls + [EMPTY];
      }
    }

    /** stream_merge_tool_calls. */
    method MergeToolCalls(deltas: seq<ToolDelta>)
      modifies this`calls
      ensures calls == MergeFrom(old(calls), deltas, 0)
    {
      var i := 0;
      while i < |deltas|
        invariant 0 <= i <= |deltas|
        invariant MergeFrom(calls, deltas, i) == MergeFrom(old(calls), deltas, 0)
      {
        var d := deltas[i];
        var index: int := i;
        if d.index.Some? {
          index := d.index.value;
        }
        if index >= 0 {
          GetCall(index);
          var call := calls[index];
          if d.id.Some? && call.id.None? {
            call := call.(id := d.id);
          }
          if d.name.Some? && call.name.None? {
            call := call.(name := d.name);
          }
          if d.args.Some? {
            call := call.(args := Some(if call.args.Some? then call.args.value + d.args.value else d.args.value));
          }
          calls := calls[index := call];
        }
        i := i + 1;
      }
    }

    /** stream_note_error. */
    method NoteStreamError(error: Option<string>)
      modifies this`finish
      ensures finish == NoteError(old(finish), error)
    {
      if error.Some? && finish.None? {
        finish := Some("error");
      }
    }

    /** The part of stream_handle_line behind the provider: merge one canonical chunk. */
    method TakeChunk(c: Chunk)
      modifies this`text, this`calls, this`finish, this`usage
      ensures Now() == old(Now()).(asm := Take(old(Now()).asm, c))
    {
      if c.usage.Some? {
        usage := c.usage;
      }
      if !c.choice {
        return;
      }
      if c.finish.Some? {
        finish := c.finish;
      }
      NoteStreamError(c.error);
      if c.text.Some? {
        text := text + c.text.value;
      }
      MergeToolCalls(c.tools);
    }

    /** stream_handle_line. */
    method StreamHandleLine()
      modifies this`line, this`text, this`calls, this`finish, this`usage, this`state
      ensures Now().(line := "") == if cancelling then old(Now()).(line := "") else HandleLine(provider, old(Now()))
    {
      if cancelling {
        return;
      }
      var l := line;
      if l != [] && l[|l| - 1] == '\r' {
        l := l[..|l| - 1];
      }
      line := l;
      if l == [] || !("data:" <= l) {
        return;
      }
      var payload := DropSpaces(l[5..]);
      if payload == "[DONE]" {
        return;
      }
      var e := provider.parse(payload);
      if e.None? {
        return;
      }
      NoteStreamError(provider.rawError(e.value));
      var r := provider.translate(e.value, state);
      state := r.1;
      if r.0.Some? {
        TakeChunk(r.0.value);
      }
    }

    method OnChar(ch: char)
      modifies this`line, this`text, this`calls, this`finish, this`usage, this`state
      ensures Now() == if cancelling then DiscardChar(old(Now()), ch) else FeedChar(provider, old(Now()), ch)
    {
      if ch == '\n' {
        StreamHandleLine();
        line := "";
      } else {
        line := line + [ch];
      }
    }

    /**
      clm_http_data_cb_wrapper. A callback run for the line that ends just before upTo
      cancels the turn; upTo is |data| when none does.
     */
    method OnData(data: string, upTo: nat)
      requires upTo <= |data| && (upTo < |data| ==> upTo > 0 && data[upTo - 1] == '\n')
      modifies this
      ensures Now() == if old(cancelling) then Discard(old(Now()), data) else FeedUntil(provider, old(Now()), data, upTo)
      ensures cancelling == (old(cancelling) || upTo < |data|)
    {
      ghost var fed := Feed(provider, Now(), data[..upTo]);
      ghost var end := if cancelling then Discard(Now(), data) else Discard(fed, data[upTo..]);
      var i := 0;
      assert data[0..] == data && data[0..upTo] == data[..upTo];
      while i < |data|
        invariant 0 <= i <= |data| && cancelling == (old(cancelling) || (upTo < |data| && upTo <= i))
        invariant !cancelling ==> i <= upTo && Feed(provider, Now(), data[i..upTo]) == fed
        invariant cancelling ==> Discard(Now(), data[i..]) == end
      {
        if cancelling { DiscardStep(Now(), data, i); } else { FeedStep(provider, Now(), data, i, upTo); }
        OnChar(data[i]);
        i := i + 1;
        if i == upTo && upTo < |data| {
          cancelling := true;
        }
      }
    }

    static lemma {:induction false} FeedStep(p: Provider<E, S>, t: Turn<S>, data: string, i: nat, j: nat)
      requires i < j <= |data|
      ensures Feed(p, t, data[i..j]) == Feed(p, FeedChar(p, t, data[i]), data[i + 1..j])
    {
      assert data[i..j][0] == data[i] && data[i..j][1..] == data[i + 1..j];
    }

    static lemma {:induction false} DiscardStep(t: Turn<S>, data: string, i: nat)
      requires i < |data|
      ensures Discard(t, data[i..]) == Discard(DiscardChar(t, data[i]), data[i + 1..])
    {
      assert data[i..][0] == data[i] && data[i..][1..] == data[i + 1..];
    }

    /** stream_build_tool_calls. */
    method BuildToolCalls() returns (r: seq<ToolCall>)
      ensures r == Build(calls)
    {
      r := [];
      var i := 0;
      assert calls[0..] == calls && [] + Build(calls) == Build(calls);
      while i < |calls|
        invariant 0 <= i <= |calls|
        invariant r + Build(calls[i..]) == Build(calls)
      {
        BuildFront(r, calls, i);
        r := AddBuilt(r, calls[i]);
        i := i + 1;
      }
      assert calls[i..] == [] && r + [] == r;
    }

    static method AddBuilt(r: seq<ToolCall>, s: Slot) returns (more: seq<ToolCall>)
      ensures more == r + Built(s)
    {
      more := r;
      if s.name.Some? {
        more := r + [ToolCall(if s.id.Some? then s.id.value else "", s.name.value, if s.args.Some? then s.args.value else "{}")];
      }
    }
  }
}
