/**
  Continuing a server-side response chain: a request names the last response and
  carries only what is new. The server's copy plus that delta must say what the
  whole history says, and any rewrite of the history must drop the chain first.
 */
module Chain {
  import opened Wrappers
  import opened Messages
  import opened History
  import C = Compaction
  import S = Supersede
  import Repair

  /** What goes over the wire: the response to continue from, and new messages. */
  datatype Request = Request(prev: Option<string>, delta: seq<Message>)

  /** A request under way: how much history it stands for, and all that the model sees. */
  datatype Flight = Flight(msgs: nat, context: seq<Message>)

  /** The server's copies: for each response, the conversation up to and including it. */
  type Server = map<string, seq<Message>>

  ghost function Sees(server: Server, r: Request): seq<Message>
    requires r.prev.Some? ==> r.prev.value in server
  {
    (if r.prev.Some? then server[r.prev.value] else []) + r.delta
  }

  /** First message a chained request carries: the assistant message after the sent prefix is the reply. */
  function FirstNew(h: seq<Message>, sent: nat): (k: nat)
    requires sent <= |h|
    ensures k <= |h|
  {
    if sent < |h| && h[sent].role == Assistant then sent + 1 else sent
  }

  /** What prompts, tools and the system said: everything but assistant messages. */
  ghost function Said(h: seq<Message>): seq<Message> {
    if h == [] then [] else (if h[0].role == Assistant then [] else [h[0]]) + Said(h[1..])
  }

  lemma {:induction false} SaidConcat(a: seq<Message>, b: seq<Message>)
    ensures Said(a + b) == Said(a) + Said(b)
  {
    if a == [] {
      assert a + b == b;
    } else {
      assert (a + b)[1..] == a[1..] + b;
      SaidConcat(a[1..], b);
    }
  }

  lemma {:induction false} SaidReplies(a: seq<Message>)
    requires forall m | m in a :: m.role == Assistant
    ensures Said(a) == []
  {
    if a != [] { SaidReplies(a[1..]); }
  }

  lemma {:induction false} SaidPlusReply(h: seq<Message>, reply: seq<Message>)
    requires forall m | m in reply :: m.role == Assistant
    ensures Said(h + reply) == Said(h)
  {
    SaidConcat(h, reply);
    SaidReplies(reply);
    assert Said(h) + [] == Said(h);
  }

  /** Leaving out the reply after the prefix leaves out nothing anybody else said. */
  lemma {:induction false} SaidSkip(h: seq<Message>, sent: nat, stored: seq<Message>)
    requires sent <= |h| && Said(stored) == Said(h[..sent])
    ensures Said(stored + h[FirstNew(h, sent)..]) == Said(h)
  {
    var k := FirstNew(h, sent);
    SaidConcat(stored, h[k..]);
    assert h[..k] == h[..sent] + h[sent..k];
    SaidPlusReply(h[..sent], h[sent..k]);
    SaidConcat(h[..k], h[k..]);
    assert h == h[..k] + h[k..];
  }

  lemma {:induction false} SupersedeNothing(h: seq<Message>, name: string, stub: seq<bv8>)
    requires S.StaleCount(h[..S.NewestHead(h)], name, stub) == 0
    ensures S.Superseded(h, name, stub) == h
  {
    var n := S.NewestHead(h);
    S.StaleCountSpec(h[..n], name, stub);
    assert forall i | 0 <= i < n :: h[i] in h[..n];
  }

  /** How the server answered a request that was not simply a reply. */
  datatype Refusal = ChainLost | ResultMissing | Other

  /** The response id, if any, stands on the server for the first sent messages of h and at most one reply. */
  ghost predicate Stands(id: Option<string>, sent: nat, server: Server, exact: bool, h: seq<Message>) {
    id.Some? ==>
      && id.value in server && sent <= |h|
      && Said(server[id.value]) == Said(h[..sent])
      && (exact ==> sent < |h| && h[sent].role == Assistant && server[id.value] == h[..sent + 1])
  }

  /** A response noted: under a new id the chain stands for all that was sent, without one it stands as before. */
  lemma {:induction false} NotedStands(was: Option<string>, sent: nat, server: Server, exact: bool, h: seq<Message>,
                                       context: seq<Message>, id: Option<string>, reply: seq<Message>, recorded: Option<Message>)
    requires Stands(was, sent, server, exact, h) && Said(context) == Said(h) && (exact ==> context == h)
    requires id.Some? ==> id.value !in server
    requires forall m | m in reply :: m.role == Assistant
    requires recorded.Some? ==> recorded.value.role == Assistant
    ensures
      var noted := id.Some? && id.value != "";
      var server' := if id.Some? then server[id.value := context + reply] else server;
      var exact' := exact && (noted ==> recorded.Some? && reply == [recorded.value]);
      var h' := h + if recorded.Some? then [recorded.value] else [];
      Stands(if noted then id else was, if noted then |h| else sent, server', exact', h')
  {
    SaidPlusReply(context, reply);
    var h' := h + if recorded.Some? then [recorded.value] else [];
    assert h'[..|h|] == h;
    assert recorded.Some? ==> h'[..|h| + 1] == h + [recorded.value];
    if was.Some? {
      assert h'[..sent] == h[..sent];
      assert sent < |h| ==> h'[..sent + 1] == h[..sent + 1];
    }
  }

  class Agent {
    const log: Log
    var chainId: Option<string>
    var chainSent: nat
    var partsChanged: bool
    ghost var server: Server
    ghost var flight: Option<Flight>
    ghost var exact: bool    // every reply on the chain was recorded just as the server has it

    ghost predicate ChainOk()
      reads this, log
    {
      Stands(chainId, chainSent, server, exact, log.msgs)
    }

    ghost predicate FlightOk()
      reads this, log
    {
      flight.Some? ==>
        && flight.value.msgs == |log.msgs|
        && Said(flight.value.context) == Said(log.msgs)
        && (exact ==> flight.value.context == log.msgs)
    }

    ghost predicate Valid()
      reads this, log
    {
      ChainOk() && FlightOk()
    }

    constructor (log: Log)
      ensures this.log == log && Valid() && chainId.None? && flight.None? && exact
    {
      this.log := log;
      chainId, chainSent, partsChanged := None, 0, false;
      server, flight, exact := map[], None, true;
    }

    /** clm_agent_chain_reset. */
    method ChainReset()
      modifies this`chainId, this`chainSent
      ensures chainId.None? && chainSent == 0
    {
      chainId, chainSent := None, 0;
    }

    /** chain_note_response: remember a response id, and how much history it stands for. */
    method ChainNote(id: Option<string>, msgs: nat)
      modifies this`chainId, this`chainSent
      ensures id.None? || id.value == "" ==> chainId == old(chainId) && chainSent == old(chainSent)
      ensures id.Some? && id.value != "" ==> chainId == id && chainSent == msgs
    {
      if id.None? || id.value == "" {
        return;
      }
      chainId, chainSent := id, msgs;
    }

    /** clm_agent_start_turn: build the request for the next model call. */
    method StartTurn() returns (r: Request)
      requires Valid()
      modifies this`chainId, this`chainSent, this`partsChanged, this`flight
      ensures Valid() && !partsChanged
      ensures r.prev.None? ==> chainId.None? && r.delta == log.msgs
      ensures r.prev.Some? ==>
        && !old(partsChanged) && r.prev == chainId == old(chainId) && chainSent == old(chainSent)
        && r.prev.value in server && r.delta == log.msgs[FirstNew(log.msgs, chainSent)..]
      ensures old(chainId).Some? && !old(partsChanged) && old(chainSent) > 0 ==> r.prev.Some?
      // The model sees everything that was said, each message once and in order.
      ensures flight == Some(Flight(|log.msgs|, Sees(server, r)))
      ensures Said(Sees(server, r)) == Said(log.msgs)
      ensures exact ==> Sees(server, r) == log.msgs
    {
      if partsChanged {
        ChainReset();
        partsChanged := false;
      }
      if chainId.Some? {
        if 0 < chainSent <= |log.msgs| {
          var sent := chainSent;
          if sent < |log.msgs| && log.msgs[sent].role == Assistant {
            sent := sent + 1;
          }
          r := Request(chainId, log.msgs[sent..]);
          SaidSkip(log.msgs, chainSent, server[chainId.value]);
          assert log.msgs == log.msgs[..sent] + log.msgs[sent..];
          flight := Some(Flight(|log.msgs|, Sees(server, r)));
          return;
        }
        ChainReset();
      }
      r := Request(None, log.msgs);
      assert [] + log.msgs == log.msgs;
      flight := Some(Flight(|log.msgs|, Sees(server, r)));
    }

    /**
      The answer to the request under way. The server stores its conversation and
      its reply under id; recorded is what the agent keeps of the reply, if anything.
     */
    method Answered(id: Option<string>, ghost reply: seq<Message>, recorded: Option<Message>)
      requires Valid() && flight.Some?
      requires id.Some? ==> id.value !in server
      requires |reply| <= 1 && forall m | m in reply :: m.role == Assistant
      requires recorded.Some? ==> recorded.value.role == Assistant
      modifies this, log
      ensures Valid() && flight.None? && partsChanged == old(partsChanged)
      ensures log.msgs == old(log.msgs) + if recorded.Some? then [recorded.value] else []
      ensures id.Some? && id.value != "" ==> chainId == id && chainSent == |old(log.msgs)|
      ensures id.None? || id.value == "" ==> chainId == old(chainId) && chainSent == old(chainSent)
      ensures server == if id.Some? then old(server)[id.value := old(flight).value.context + reply] else old(server)
      ensures exact == (old(exact) && (id.Some? && id.value != "" ==> recorded.Some? && reply == [recorded.value]))
    {
      NotedStands(chainId, chainSent, server, exact, log.msgs, flight.value.context, id, reply, recorded);
      ChainNote(id, |log.msgs|);
      if id.Some? {
        server := server[id.value := flight.value.context + reply];
        exact := exact && (id.value != "" ==> recorded.Some? && reply == [recorded.value]);
      }
      flight := None;
      if recorded.Some? {
        log.msgs := log.msgs + [recorded.value];
      }
      assert log.msgs == old(log.msgs) + if recorded.Some? then [recorded.value] else [];
    }

    /** A longer history still starts with what the chain stands for. */
    static lemma {:induction false} Grown(h: seq<Message>, h': seq<Message>, sent: nat)
      requires h <= h'
      ensures sent <= |h| ==> h'[..sent] == h[..sent]
      ensures sent < |h| ==> h'[..sent + 1] == h[..sent + 1]
    {
    }

    /** A failed response was stored under id, and the same request waits to be sent again. */
    method FailedWillRetry(id: Option<string>, ghost reply: seq<Message>)
      requires Valid() && flight.Some?
      requires id.Some? ==> id.value !in server
      requires forall m | m in reply :: m.role == Assistant
      modifies this
      ensures Valid() && flight == old(flight) && partsChanged == old(partsChanged)
      ensures id.Some? && id.value != "" ==> chainId == id && chainSent == |log.msgs| && !exact
      ensures id.None? || id.value == "" ==> chainId == old(chainId) && chainSent == old(chainSent) && exact == old(exact)
    {
      SaidPlusReply(flight.value.context, reply);
      ChainNote(id, |log.msgs|);
      if id.Some? {
        server := server[id.value := flight.value.context + reply];
        if id.value != "" {
          exact := false;
          assert log.msgs[..|log.msgs|] == log.msgs;
        }
      }
    }

    /** A cancelled or failed request; what was shown of the reply is kept. */
    method Aborted(partial: Option<Message>)
      requires Valid() && flight.Some?
      requires partial.Some? ==> partial.value.role == Assistant
      modifies this`flight, log
      ensures Valid() && flight.None?
      ensures log.msgs == old(log.msgs) + if partial.Some? then [partial.value] else []
    {
      ghost var h := log.msgs;
      flight := None;
      if partial.Some? {
        log.msgs := log.msgs + [partial.value];
      }
      Grown(h, log.msgs, chainSent);
    }

    /** A prompt, a tool result or a notice joins the history; never while a request is out. */
    method Append(m: Message)
      requires Valid() && flight.None?
      modifies log
      ensures Valid() && log.msgs == old(log.msgs) + [m]
    {
      ghost var h := log.msgs;
      log.msgs := log.msgs + [m];
      Grown(h, log.msgs, chainSent);
    }

    /** A fold that removed something drops the chain. */
    method Fold(summary: seq<bv8>, keepBytes: nat, keepMinTurns: nat, cz: Compressor) returns (folded: nat)
      requires Valid() && flight.None?
      modifies this`chainId, this`chainSent, log
      ensures Valid() && C.Within(old(log.msgs), summary, keepBytes, cz, log.msgs, folded)
      ensures if folded > 0 then chainId.None? else chainId == old(chainId) && log.msgs == old(log.msgs)
    {
      folded := log.CompactWithin(summary, keepBytes, keepMinTurns, cz);
      if folded > 0 {
        ChainReset();
      }
    }

    /** Superseding a result drops the chain, superseding nothing changes nothing. */
    method SupersedeTool(name: string, stub: seq<bv8>)
      requires Valid() && flight.None?
      modifies this`chainId, this`chainSent, log
      ensures Valid() && log.msgs == S.Superseded(old(log.msgs), name, stub)
      ensures log.msgs != old(log.msgs) ==> chainId.None?
    {
      ghost var h := log.msgs;
      var n := log.SupersedeTool(name, stub);
      if n > 0 {
        ChainReset();
      } else {
        SupersedeNothing(h, name, stub);
      }
    }

    /** Clearing or restoring the history, or switching the provider, drops the chain. */
    method Replace(history: seq<Message>)
      requires Valid() && flight.None?
      modifies this`chainId, this`chainSent, log
      ensures Valid() && chainId.None? && log.msgs == history
    {
      ChainReset();
      log.msgs := history;
    }

    /** A changed prompt part drops the chain at the next request. */
    method PromptPartChanged()
      requires Valid()
      modifies this`partsChanged
      ensures Valid() && partsChanged
    {
      partsChanged := true;
    }

    /**
      The recovery branches for a refused request: drop a chain the server lost;
      with none left, repair the history. None means the turn fails.
     */
    method Recover(refusal: Refusal) returns (again: Option<Request>)
      requires Valid() && flight.Some?
      modifies this, log
      ensures Valid() && server == old(server)
      ensures again.Some? ==> flight.Some? && Said(flight.value.context) == Said(log.msgs)
      ensures log.msgs != old(log.msgs) ==>
        old(chainId).None? && refusal == ResultMissing && log.msgs == Repair.Fixed(old(log.msgs)).msgs
      ensures again.Some? <==>
        refusal != Other && (old(chainId).Some? || (refusal == ResultMissing && Repair.Fixed(old(log.msgs)).Count() > 0))
      ensures again.Some? ==> again.value == Request(None, log.msgs) && chainId.None?
      ensures again.Some? && old(chainId).Some? ==> log.msgs == old(log.msgs)
      ensures again.Some? && old(chainId).None? ==> log.msgs == Repair.Fixed(old(log.msgs)).msgs
    {
      flight := None;
      if chainId.Some? && refusal != Other {
        ChainReset();
        var r := StartTurn();
        return Some(r);
      }
      if refusal == ResultMissing {
        ghost var h := log.msgs;
        var n := log.RepairDangling();
        if n > 0 {
          var r := StartTurn();
          return Some(r);
        }
        Idle(h);
      }
      return None;
    }

    /** A repair that reports nothing changed nothing. */
    static lemma {:induction false} Idle(h: seq<Message>)
      requires Repair.Fixed(h).Count() == 0
      ensures Repair.Fixed(h).msgs == h
    {
      Repair.FixedIdleIffAnswered(h);
    }
  }
}
