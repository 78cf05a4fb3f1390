/** The server side of a connection (`server.py`) step by step: the list of connections, the
    frame loop, and the conduct of one request. */
module Server {
  import opened Prelude
  import opened Protocol
  import Client
  import Exchange

  type ConnectionId = nat

  /** A frame after decoding: what `decode` makes of it, or nothing. */
  datatype Decoded = Undecodable | RequestMessage(request: Request, fds: seq<int>) | OtherMessage

  datatype Started = Started(request: Request, fds: seq<int>)

  /** The handlings that a list of frames gives rise to. */
  function Handlings(frames: seq<Decoded>): seq<Started> {
    if frames == [] then []
    else if frames[0].RequestMessage? then [Started(frames[0].request, frames[0].fds)] + Handlings(frames[1..])
    else Handlings(frames[1..])
  }

  function RequestCount(frames: seq<Decoded>): nat {
    if frames == [] then 0 else (if frames[0].RequestMessage? then 1 else 0) + RequestCount(frames[1..])
  }

  /** Every request is handled, with its own descriptors, after those ahead of it, whatever other
      frames there are; and nothing else is. */
  lemma {:induction false} HandlingsAreTheRequests(frames: seq<Decoded>, i: nat)
    requires i <= |frames|
    ensures |Handlings(frames)| == RequestCount(frames)
    ensures i < |frames| && frames[i].RequestMessage? ==>
              var k := RequestCount(frames[..i]);
              k < |Handlings(frames)| && Handlings(frames)[k] == Started(frames[i].request, frames[i].fds)
  {
    if frames != [] {
      HandlingsAreTheRequests(frames[1..], if i > 0 then i - 1 else 0);
      if i > 0 {
        assert frames[..i][1..] == frames[1..][..i - 1];
      }
    }
  }

  function RemoveFirst(connections: seq<ConnectionId>, c: ConnectionId): seq<ConnectionId> {
    if connections == [] then []
    else if connections[0] == c then connections[1..]
    else [connections[0]] + RemoveFirst(connections[1..], c)
  }

  lemma {:induction false} RemoveUndoesAppend(connections: seq<ConnectionId>, c: ConnectionId)
    requires c !in connections
    ensures RemoveFirst(connections + [c], c) == connections
  {
    if connections != [] {
      assert (connections + [c])[1..] == connections[1..] + [c];
      RemoveUndoesAppend(connections[1..], c);
    }
  }

  /** The first occurrence goes, and nothing else. */
  lemma {:induction false} RemoveTakesFirst(connections: seq<ConnectionId>, c: ConnectionId) returns (i: nat)
    requires c in connections
    ensures i < |connections| && connections[i] == c && c !in connections[..i]
    ensures RemoveFirst(connections, c) == connections[..i] + connections[i + 1..]
  {
    if connections[0] == c {
      i := 0;
    } else {
      i := RemoveTakesFirst(connections[1..], c);
      assert connections[..i + 1] == [connections[0]] + connections[1..][..i];
      i := i + 1;
    }
  }

  lemma {:induction false} RemoveAbsent(connections: seq<ConnectionId>, c: ConnectionId)
    ensures c !in connections ==> RemoveFirst(connections, c) == connections
  {
    if connections != [] {
      RemoveAbsent(connections[1..], c);
    }
  }

  // ------------------------------------------------------------------ one request, against the exchange

  /** A packet without the bookkeeping of the exchange. */
  datatype Sent = SentEvent(class_: Class) | SentReply(id: Id, class_: Class, errorShaped: bool)

  function Bare(p: Exchange.Packet): Sent {
    match p
    case Reply(id, c, errorShaped) => SentReply(id, c, errorShaped)
    case Notice(c, _, _, _) => SentEvent(c)
  }

  function Bares(packets: seq<Exchange.Packet>): seq<Sent> {
    if packets == [] then [] else [Bare(packets[0])] + Bares(packets[1..])
  }

  lemma {:induction false} BaresAppend(packets: seq<Exchange.Packet>, p: Exchange.Packet)
    ensures Bares(packets + [p]) == Bares(packets) + [Bare(p)]
  {
    if packets == [] {
      assert packets + [p] == [p];
    } else {
      assert (packets + [p])[1..] == packets[1..] + [p];
      BaresAppend(packets[1..], p);
    }
  }

  /** The exchange after a handler has emitted `classes` in order and ended with `outcome`. */
  ghost function Conduct(s: Exchange.State, id: Id, classes: seq<Class>, outcome: Exchange.Outcome): Exchange.State
    requires id in s.requests && id in s.running
    decreases |classes|
  {
    if classes == [] then Exchange.Step(s, Exchange.Finish(id, outcome))
    else Conduct(Exchange.Step(s, Exchange.Emit(id, classes[0])), id, classes[1..], outcome)
  }

  class Server {
    var connections: seq<ConnectionId>
    const handlers: set<string>
    const encodesErrors: bool

    constructor (handlers: set<string>, encodesErrors: bool)
      ensures connections == [] && this.handlers == handlers && this.encodesErrors == encodesErrors
    {
      this.connections, this.handlers, this.encodesErrors := [], handlers, encodesErrors;
    }

    method Connect(c: ConnectionId)
      modifies this`connections
      ensures connections == old(connections) + [c]
    {
      connections := connections + [c];
    }

    /** The `finally` of a connection: it may have been cleared away by then. */
    method Disconnect(c: ConnectionId)
      modifies this`connections
      ensures connections == RemoveFirst(old(connections), c)
    {
      RemoveAbsent(connections, c);
      if c in connections {
        connections := RemoveFirst(connections, c);
      }
    }

    /** The frame loop: every request is handled, in the order of the frames; nothing else is,
        and an undecodable frame does not end the loop. */
    method HandleFrames(frames: seq<Decoded>) returns (started: seq<Started>)
      ensures started == Handlings(frames)
    {
      started := [];
      for i := 0 to |frames|
        invariant Handlings(frames) == started + Handlings(frames[i..])
      {
        assert frames[i..][1..] == frames[i + 1..];
        match frames[i]
        case Undecodable => continue;
        case RequestMessage(request, fds) => started := started + [Started(request, fds)];
        case OtherMessage =>
      }
      assert frames[|frames|..] == [];
    }

    /** `handle_request`, with the events its handler tries to emit: what is sent is what the
        exchange sends for those emissions and that outcome, a request without a handler being
        one whose handler raises. Only when errors cannot be encoded does a failure send no
        reply; it closes the connection instead, after the events. */
    method HandleRequest(request: Request, classes: seq<Class>, outcome: Exchange.Outcome, ghost s: Exchange.State)
      returns (sent: seq<Sent>, closed: bool)
      requires request.id in s.requests && request.id in s.running && s.requests[request.id] == request
      ensures var actual := if request.class_.name in handlers then outcome else Exchange.Raised;
              var tried := if request.class_.name in handlers then classes else [];
              && (closed <==> !encodesErrors && !(actual.Returned? && ValidResponse(request, actual.class_)))
              && Bares(Conduct(s, request.id, tried, actual).toClient)
                 == Bares(s.toClient) + sent + if closed then [SentReply(request.id, Exchange.FAILURE, true)] else []
      ensures !closed ==> sent != [] && sent[|sent| - 1].SentReply? && sent[|sent| - 1].id == request.id
      ensures forall i :: 0 <= i < |sent| && (closed || i < |sent| - 1) ==> sent[i].SentEvent? && ValidEvent(request, sent[i].class_)
    {
      sent, closed := [], false;
      ghost var m := s;
      ghost var actual := if request.class_.name in handlers then outcome else Exchange.Raised;
      ghost var tried := if request.class_.name in handlers then classes else [];
      if request.class_.name in handlers {
        for i := 0 to |classes|
          invariant request.id in m.requests && request.id in m.running && m.requests[request.id] == request
          invariant Conduct(s, request.id, classes, actual) == Conduct(m, request.id, classes[i..], actual)
          invariant Bares(m.toClient) == Bares(s.toClient) + sent
          invariant !closed && forall j :: 0 <= j < |sent| ==> sent[j].SentEvent? && ValidEvent(request, sent[j].class_)
        {
          assert classes[i..][1..] == classes[i + 1..];
          ghost var m' := Exchange.Step(m, Exchange.Emit(request.id, classes[i]));
          if ValidEvent(request, classes[i]) {
            sent := sent + [SentEvent(classes[i])];
            BaresAppend(m.toClient, m'.toClient[|m.toClient|]);
          }
          m := m';
        }
        assert classes[|classes|..] == [];
      }
      var reply := SentReply(request.id, Exchange.FAILURE, true);
      if request.class_.name in handlers && outcome.Returned? && ValidResponse(request, outcome.class_) {
        reply := SentReply(request.id, outcome.class_, outcome.errorShaped);
      } else if !encodesErrors {
        closed := true;
      }
      BaresAppend(m.toClient, Exchange.ReplyTo(request, actual));
      if !closed {
        sent := sent + [reply];
      }
    }

    /** Every connection is closed, and the list is emptied. */
    method Aclose() returns (closed: seq<ConnectionId>)
      modifies this`connections
      ensures connections == [] && closed == old(connections)
    {
      closed := [];
      for i := 0 to |connections|
        invariant connections == old(connections) && closed == connections[..i]
      {
        closed := closed + [connections[i]];
      }
      connections := [];
    }
  }
}
