/**
 The transport below the many-socket peers, as far as they see it: any call may
 fail, a send may be pushed back, and any bytes may arrive. The ghost fields
 remember what happened.
 */
module Transport {
  import opened Common
  import P = Payload

  datatype Call = QueryCall | SendCall | ReceiveCall | RemoveCall | PollCall

  /** A message accepted from the application: the socket, and the connection and message number in its header. */
  datatype Packet = Packet(socket: nat, connection: nat, number: nat)

  datatype Answer = Queued | WouldBlock | Broken

  datatype Arrival = Nothing | Error | Bytes(payload: seq<P.Byte>)

  /** Bytes handed to the application. */
  datatype Delivery = Delivery(socket: nat, payload: seq<P.Byte>)

  /** The sockets that remain pushed back after an answer. */
  function Pushed(blocked: set<nat>, socket: nat, answer: Answer): set<nat> {
    match answer
    case Queued => blocked - {socket}
    case WouldBlock => blocked + {socket}
    case Broken => blocked
  }

  /** Acknowledgements only shrink send buffers. */
  ghost predicate Drained(before: seq<nat>, after: seq<nat>) {
    |before| == |after| && forall i :: 0 <= i < |before| ==> after[i] <= before[i]
  }

  /** One more message in a socket's buffer. */
  function Grown(buffers: seq<nat>, socket: nat): seq<nat>
    requires socket < |buffers|
  {
    buffers[socket := buffers[socket] + 1]
  }

  class Sockets {
    var buffers: seq<nat>
    ghost var sent: seq<Packet>
    ghost var delivered: seq<Delivery>
    ghost var blocked: set<nat>
    ghost var ready: set<nat>
    ghost var answered: nat
    ghost var failed: Option<Call>

    constructor (sockets: nat)
      ensures buffers == seq(sockets, _ => 0) && sent == [] && delivered == [] && blocked == {} && failed == None
    {
      buffers, sent, delivered, blocked, ready, failed := seq(sockets, _ => 0), [], [], {}, {}, None;
    }

    method Fails(ghost call: Call) returns (fails: bool)
      modifies this`failed
      ensures failed == if fails then Some(call) else old(failed)
    {
      fails := *;
      if fails {
        failed := Some(call);
      }
    }

    method Drain()
      modifies this`buffers
      ensures Drained(old(buffers), buffers)
    {
      for i := 0 to |buffers|
        invariant Drained(old(buffers), buffers)
      {
        var left: nat :| left <= buffers[i];
        buffers := buffers[i := left];
      }
    }

    method Query(socket: nat) returns (fails: bool, blocks: nat)
      requires socket < |buffers|
      modifies this`buffers, this`answered, this`failed
      ensures Drained(old(buffers), buffers) && blocks == buffers[socket] == answered
      ensures failed == if fails then Some(QueryCall) else old(failed)
    {
      Drain();
      blocks, answered := buffers[socket], buffers[socket];
      fails := Fails(QueryCall);
    }

    method Send(packet: Packet) returns (answer: Answer)
      requires packet.socket < |buffers|
      modifies this`buffers, this`sent, this`blocked, this`failed
      ensures sent == if answer == Queued then old(sent) + [packet] else old(sent)
      ensures Drained(if answer == Queued then Grown(old(buffers), packet.socket) else old(buffers), buffers)
      ensures blocked == Pushed(old(blocked), packet.socket, answer)
      ensures failed == if answer == Broken then Some(SendCall) else old(failed)
    {
      var fails := Fails(SendCall);
      var full: bool := *;
      answer := if fails then Broken else if full then WouldBlock else Queued;
      if answer == Queued {
        sent, buffers := sent + [packet], Grown(buffers, packet.socket);
      }
      blocked := Pushed(blocked, packet.socket, answer);
      Drain();
    }

    method Receive(socket: nat) returns (arrival: Arrival)
      modifies this`delivered, this`blocked, this`failed
      ensures delivered ==
        if arrival.Bytes? then old(delivered) + [Delivery(socket, arrival.payload)] else old(delivered)
      ensures blocked == match arrival
        case Nothing => old(blocked) + {socket}
        case Bytes(_) => old(blocked) - {socket}
        case Error => old(blocked)
      ensures failed == if arrival == Error then Some(ReceiveCall) else old(failed)
    {
      var fails := Fails(ReceiveCall);
      var empty: bool, payload: seq<P.Byte> := *, *;
      if fails {
        arrival := Error;
      } else if empty {
        arrival, blocked := Nothing, blocked + {socket};
      } else {
        arrival, blocked, delivered := Bytes(payload), blocked - {socket}, delivered + [Delivery(socket, payload)];
      }
    }

    /** Epoll marks any registered sockets runnable. */
    method Poll(runnable: seq<bool>) returns (fails: bool, woken: seq<bool>)
      modifies this`ready, this`failed
      ensures |woken| == |runnable| && forall i :: 0 <= i < |runnable| ==> woken[i] == (runnable[i] || i in ready)
      ensures failed == if fails then Some(PollCall) else old(failed)
    {
      woken, ready := runnable, {};
      for i := 0 to |runnable|
        invariant failed == old(failed) && |woken| == |runnable| && (forall j :: j in ready ==> j < i)
        invariant forall j :: 0 <= j < i ==> woken[j] == (runnable[j] || j in ready)
        invariant forall j :: i <= j < |runnable| ==> woken[j] == runnable[j]
      {
        var event: bool := *;
        if event {
          woken, ready := woken[i := true], ready + {i};
        }
      }
      fails := Fails(PollCall);
    }
  }
}
