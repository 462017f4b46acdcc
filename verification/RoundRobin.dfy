/**
 The many-socket sender: one application thread visits its sockets in one cyclic
 order, each visit bounded by a burst and by the socket's pending window, each
 round bounded by a message budget.
 */
module RoundRobin {
  import opened Common
  import P = Pacer
  import T = Transport

  const MAXIMUM_BURST: nat := 64
  const MAXIMUM_ROUND: nat := 128

  datatype Configuration = Configuration(sockets: nat, messages: nat, window: nat)

  ghost predicate Parsed(c: Configuration) {
    1 <= c.sockets <= 4096 && 1 <= c.messages < WORD && 1 <= c.window <= 65536
  }

  /** The number of messages the loop waits for; the 64-bit product wraps. */
  function Expected(c: Configuration): nat {
    c.sockets * c.messages % WORD
  }

  datatype Visit = Visit(socket: nat, enqueued: nat)

  function Next(socket: nat, sockets: nat): nat
    requires sockets > 0
  {
    (socket + 1) % sockets
  }

  lemma NextIs(socket: nat, sockets: nat)
    requires socket < sockets
    ensures Next(socket, sockets) == if socket + 1 == sockets then 0 else socket + 1
  {
  }

  /** Every visit is to the cyclic successor of the one before it, and is bounded by the burst. */
  ghost predicate Cyclic(trace: seq<Visit>, sockets: nat) {
    && sockets > 0
    && (trace != [] ==> trace[0].socket == 0)
    && (forall m :: 0 <= m < |trace| ==> trace[m].socket < sockets && trace[m].enqueued <= MAXIMUM_BURST)
    && (forall j, k :: 0 <= j < k < |trace| && k == j + 1 ==> trace[k].socket == Next(trace[j].socket, sockets))
  }

  ghost function Enqueued(trace: seq<Visit>, from: nat, to: nat): nat
    requires from <= to <= |trace|
  {
    if from == to then 0 else Enqueued(trace, from, to - 1) + trace[to - 1].enqueued
  }

  lemma {:induction false} EnqueuedPrefix(trace: seq<Visit>, more: seq<Visit>, from: nat, to: nat)
    requires from <= to <= |trace|
    ensures Enqueued(trace + more, from, to) == Enqueued(trace, from, to)
  {
    if from < to {
      EnqueuedPrefix(trace, more, from, to - 1);
    }
  }

  lemma EnqueuedNext(before: seq<Visit>, after: seq<Visit>, from: nat)
    requires before <= after && |after| == |before| + 1 && from <= |before|
    ensures Enqueued(after, from, |after|) == Enqueued(before, from, |before|) + after[|before|].enqueued
  {
    assert after == before + after[|before|..];
    EnqueuedPrefix(before, after[|before|..], from, |before|);
  }

  /** The socket visited d steps after position p. */
  lemma {:induction false} Ahead(trace: seq<Visit>, sockets: nat, p: nat, d: nat)
    requires Cyclic(trace, sockets) && p + d < |trace| && d <= sockets
    ensures trace[p + d].socket ==
      if trace[p].socket + d < sockets then trace[p].socket + d else trace[p].socket + d - sockets
  {
    if d > 0 {
      Ahead(trace, sockets, p, d - 1);
      NextIs(trace[p + d - 1].socket, sockets);
      assert trace[p + d].socket == Next(trace[p + d - 1].socket, sockets);
    }
  }

  /** Positions p and q are consecutive visits to the same socket. */
  ghost predicate Consecutive(trace: seq<Visit>, p: nat, q: nat) {
    && p < q < |trace| && trace[p].socket == trace[q].socket
    && forall m :: p < m < q ==> trace[m].socket != trace[p].socket
  }

  /**
   Bounded bypass: between two consecutive visits to a socket, every other socket
   is visited exactly once.
   */
  lemma BoundedBypass(trace: seq<Visit>, sockets: nat, p: nat, q: nat, other: nat)
    requires Cyclic(trace, sockets) && Consecutive(trace, p, q)
    requires other < sockets && other != trace[p].socket
    ensures q == p + sockets
    ensures exists m :: p < m < q && trace[m].socket == other
    ensures forall i, j :: p < i < q && p < j < q && trace[i].socket == trace[j].socket ==> i == j
  {
    if q < p + sockets {
      Ahead(trace, sockets, p, q - p);
    } else if q > p + sockets {
      Ahead(trace, sockets, p, sockets);
    }
    var s := trace[p].socket;
    var d := if other > s then other - s else other + sockets - s;
    Ahead(trace, sockets, p, d);
    assert trace[p + d].socket == other;
    forall i, j | p < i < q && p < j < q && trace[i].socket == trace[j].socket
      ensures i == j
    {
      Ahead(trace, sockets, p, i - p);
      Ahead(trace, sockets, p, j - p);
    }
  }

  /** What the other sockets can enqueue while one socket waits for its next visit. */
  lemma BypassedMessages(trace: seq<Visit>, sockets: nat, p: nat, q: nat)
    requires Cyclic(trace, sockets) && Consecutive(trace, p, q)
    ensures Enqueued(trace, p + 1, q) <= MAXIMUM_BURST * (sockets - 1)
  {
    if sockets == 1 {
      assert trace[p + 1].socket == trace[p].socket;
    } else {
      BoundedBypass(trace, sockets, p, q, if trace[p].socket == 0 then 1 else 0);
    }
    BurstsAddUp(trace, sockets, p + 1, q);
  }

  lemma {:induction false} BurstsAddUp(trace: seq<Visit>, sockets: nat, from: nat, to: nat)
    requires Cyclic(trace, sockets) && from <= to <= |trace|
    ensures Enqueued(trace, from, to) <= MAXIMUM_BURST * (to - from)
  {
    if from < to {
      BurstsAddUp(trace, sockets, from, to - 1);
    }
  }

  /** The loop's variables. */
  datatype Sender = Sender(
    cursor: nat,
    runnable: seq<bool>,
    progress: seq<nat>,
    completed: seq<bool>,
    sent: nat,
    trace: seq<Visit>)

  ghost predicate Valid(c: Configuration, s: Sender) {
    && Parsed(c)
    && |s.runnable| == |s.progress| == |s.completed| == c.sockets
    && Cyclic(s.trace, c.sockets)
    && s.cursor == (if s.trace == [] then 0 else Next(s.trace[|s.trace| - 1].socket, c.sockets))
    && s.sent == Sum(s.progress) == Enqueued(s.trace, 0, |s.trace|)
    && forall i :: 0 <= i < c.sockets ==>
      && s.progress[i] <= c.messages
      && (s.completed[i] <==> s.progress[i] == c.messages)
  }

  datatype Outcome =
    | Finished | TimedOut | PollFailed | QueryFailed | SendFailed | RemovalFailed | RateExceedsTimeout

  datatype Reply = Queued | WouldBlock | Broken | Late

  /** The transport call that an outcome blames. */
  function Blames(outcome: Outcome): Option<T.Call> {
    match outcome
    case QueryFailed => Some(T.QueryCall)
    case SendFailed => Some(T.SendCall)
    case RemovalFailed => Some(T.RemoveCall)
    case PollFailed => Some(T.PollCall)
    case _ => None
  }

  // ------------------------------------------------------------- what the sockets carry

  /** Messages first, first + 1, ... of the connection that a socket carries. */
  ghost function Packets(socket: nat, first: nat, count: nat): (r: seq<T.Packet>)
    ensures |r| == count
    ensures forall k :: 0 <= k < count ==> r[k] == T.Packet(socket, socket, first + k)
  {
    seq(count, k requires 0 <= k => T.Packet(socket, socket, first + k))
  }

  ghost function OnSocket(wire: seq<T.Packet>, socket: nat): seq<T.Packet> {
    if wire == [] then []
    else OnSocket(wire[..|wire| - 1], socket) + if wire[|wire| - 1].socket == socket then [wire[|wire| - 1]] else []
  }

  /** Every socket has carried the messages of its own connection, each once and in order. */
  ghost predicate Carries(wire: seq<T.Packet>, progress: seq<nat>) {
    forall i :: 0 <= i < |progress| ==> OnSocket(wire, i) == Packets(i, 0, progress[i])
  }

  lemma {:induction false} BurstOnSocket(wire: seq<T.Packet>, socket: nat, first: nat, count: nat, i: nat)
    ensures OnSocket(wire + Packets(socket, first, count), i)
      == if i == socket then OnSocket(wire, i) + Packets(socket, first, count) else OnSocket(wire, i)
  {
    var more := wire + Packets(socket, first, count);
    if count > 0 {
      BurstOnSocket(wire, socket, first, count - 1, i);
      assert more[..|more| - 1] == wire + Packets(socket, first, count - 1);
      assert Packets(socket, first, count) == Packets(socket, first, count - 1) + [more[|more| - 1]];
    } else {
      assert more == wire;
    }
  }

  lemma CarriesBurst(wire: seq<T.Packet>, progress: seq<nat>, socket: nat, count: nat)
    requires Carries(wire, progress) && socket < |progress|
    ensures Carries(wire + Packets(socket, progress[socket], count), progress[socket := progress[socket] + count])
  {
    var more := wire + Packets(socket, progress[socket], count);
    forall i | 0 <= i < |progress| && i != socket
      ensures OnSocket(more, i) == Packets(i, 0, progress[i])
    {
      BurstOnSocket(wire, socket, progress[socket], count, i);
    }
    BurstOnSocket(wire, socket, progress[socket], count, socket);
    assert Packets(socket, 0, progress[socket]) + Packets(socket, progress[socket], count)
      == Packets(socket, 0, progress[socket] + count);
  }

  /** A socket is passed over only if it is complete or was pushed back. */
  ghost predicate Idle(runnable: seq<bool>, completed: seq<bool>, blocked: set<nat>) {
    |runnable| == |completed| && forall i :: 0 <= i < |runnable| && !runnable[i] ==> completed[i] || i in blocked
  }

  /** Outcomes that end a round half way; the others come between rounds. */
  predicate Cut(outcome: Outcome) {
    outcome == QueryFailed || outcome == SendFailed || outcome == RemovalFailed || outcome == RateExceedsTimeout
  }

  /** The optional pacing of a transfer: its state, and the deadline no message may be due after. */
  datatype Pacing = Unpaced | Paced(state: P.PacingState, deadline: real)

  /** The pacing history is that of the messages sent, all of them due before the deadline. */
  ghost predicate Ready(pacing: Pacing, sent: nat)
    reads Frame(pacing)
  {
    pacing.Paced? ==>
      pacing.state.Valid() && pacing.state.sent == sent && P.Timely(pacing.state.history, pacing.deadline)
  }

  /** The next message of a paced transfer is due at the deadline or later. */
  ghost predicate TooLate(pacing: Pacing)
    reads Frame(pacing)
  {
    pacing.Paced? && P.TooLate(pacing.state, pacing.deadline)
  }

  ghost function Frame(pacing: Pacing): set<object> {
    if pacing.Paced? then {pacing.state} else {}
  }

  /** One send call, paced if the transfer is. */
  method SendOne(net: T.Sockets, pacing: Pacing, socket: nat, number: nat, ghost sent: nat) returns (reply: Reply)
    requires Ready(pacing, sent) && net.failed == None && socket < |net.buffers|
    modifies Frame(pacing), net`buffers, net`sent, net`blocked, net`failed
    ensures Ready(pacing, sent + if reply == Queued then 1 else 0)
    ensures reply == Late ==> TooLate(pacing)
    ensures reply == Late || reply == Broken ==> net.blocked == old(net.blocked)
    ensures reply == WouldBlock || reply == Broken ==> !TooLate(pacing)
    ensures reply == WouldBlock ==> net.blocked == old(net.blocked) + {socket}
    ensures reply == Queued ==> net.blocked == old(net.blocked) - {socket}
    ensures net.sent == if reply == Queued then old(net.sent) + [T.Packet(socket, socket, number)] else old(net.sent)
    ensures net.failed == if reply == Broken then Some(T.SendCall) else None
    ensures T.Drained(if reply == Queued then T.Grown(old(net.buffers), socket) else old(net.buffers), net.buffers)
  {
    var ok, check, awake := true, 0.0, 0.0;
    if pacing.Paced? {
      ok, check, awake := P.Attempt(pacing.state, pacing.deadline);
      if !ok {
        return Late;
      }
    }
    var answer := net.Send(T.Packet(socket, socket, number));
    if pacing.Paced? && answer == T.Queued {
      var at := P.Elapse(awake);
      pacing.state.Accepted(check, at);
    }
    reply := match answer case Queued => Queued case WouldBlock => WouldBlock case Broken => Broken;
  }

  /** No send buffer exceeds the application's window. */
  ghost predicate Windowed(c: Configuration, buffers: seq<nat>) {
    |buffers| == c.sockets && forall i :: 0 <= i < |buffers| ==> buffers[i] <= c.window
  }

  /** What a burst leaves behind on the transport and in the pacer. */
  ghost predicate BurstEnded(reply: Reply, socket: nat, late: bool, before: set<nat>, blocked: set<nat>,
                             failed: Option<T.Call>)
  {
    && failed == (if reply == Broken then Some(T.SendCall) else None)
    && (reply == Late ==> late)
    && (reply == WouldBlock ==> socket in blocked)
    && forall i :: i in before && i != socket ==> i in blocked
  }

  /**
   The burst of one visit: the next messages of the socket's connection. It stops
   early only when the socket pushes back, the call fails or the pacing is too
   late, and otherwise at the first of the four limits.
   */
  method Burst(c: Configuration, net: T.Sockets, socket: nat, progress: nat, blocks: nat, round: nat, pacing: Pacing,
               ghost sent: nat)
    returns (reply: Reply, burst: nat)
    requires progress <= c.messages && blocks < c.window && round <= MAXIMUM_ROUND && Ready(pacing, sent)
    requires net.failed == None && Windowed(c, net.buffers) && socket < c.sockets && net.buffers[socket] <= blocks
    modifies Frame(pacing), net`buffers, net`sent, net`blocked, net`failed
    ensures Ready(pacing, sent + burst)
    ensures BurstEnded(reply, socket, TooLate(pacing), old(net.blocked), net.blocked, net.failed)
    ensures net.sent == old(net.sent) + Packets(socket, progress, burst)
    ensures reply == Queued && burst > 0 ==> socket !in net.blocked
    ensures burst <= MAXIMUM_BURST && round + burst <= MAXIMUM_ROUND
    ensures progress + burst <= c.messages && (reply != Queued ==> progress + burst < c.messages)
    ensures Windowed(c, net.buffers) && net.buffers[socket] <= blocks + burst <= c.window
    ensures reply == Queued ==>
      || progress + burst == c.messages || burst == MAXIMUM_BURST
      || blocks + burst == c.window || round + burst == MAXIMUM_ROUND
  {
    var budget := if c.window - blocks < MAXIMUM_BURST then c.window - blocks else MAXIMUM_BURST;
    burst, reply := 0, Queued;
    while progress + burst < c.messages && burst < budget && round + burst < MAXIMUM_ROUND
      invariant burst <= budget && round + burst <= MAXIMUM_ROUND && progress + burst <= c.messages
      invariant Windowed(c, net.buffers) && net.buffers[socket] <= blocks + burst
      invariant Ready(pacing, sent + burst) && reply == Queued
      invariant BurstEnded(Queued, socket, false, old(net.blocked), net.blocked, net.failed)
      invariant net.sent == old(net.sent) + Packets(socket, progress, burst)
      invariant burst > 0 ==> socket !in net.blocked
      decreases budget - burst
    {
      reply := SendOne(net, pacing, socket, progress + burst, sent + burst);
      if reply != Queued {
        return;
      }
      PacketsNext(old(net.sent), socket, progress, burst);
      burst := burst + 1;
    }
  }

  lemma PacketsNext(wire: seq<T.Packet>, socket: nat, first: nat, count: nat)
    ensures wire + Packets(socket, first, count) + [T.Packet(socket, socket, first + count)]
      == wire + Packets(socket, first, count + 1)
  {
  }

  lemma CyclicNext(trace: seq<Visit>, sockets: nat, enqueued: nat)
    requires Cyclic(trace, sockets) && enqueued <= MAXIMUM_BURST
    ensures
      var socket := if trace == [] then 0 else Next(trace[|trace| - 1].socket, sockets);
      Cyclic(trace + [Visit(socket, enqueued)], sockets)
  {
  }

  lemma VisitKeepsValid(c: Configuration, s: Sender, enqueued: nat, runnable: bool, completed: bool)
    requires Valid(c, s) && s.cursor < c.sockets && enqueued <= MAXIMUM_BURST
    requires s.progress[s.cursor] + enqueued <= c.messages
    requires completed <==> s.progress[s.cursor] + enqueued == c.messages
    ensures Valid(c, Visited(c, s, enqueued, runnable, completed))
  {
    CyclicNext(s.trace, c.sockets, enqueued);
    EnqueuedPrefix(s.trace, [Visit(s.cursor, enqueued)], 0, |s.trace|);
    SumUpdate(s.progress, s.cursor, s.progress[s.cursor] + enqueued);
  }

  /** The variables after a visit to the socket under the cursor. */
  function Visited(c: Configuration, s: Sender, enqueued: nat, runnable: bool, completed: bool): Sender
    requires s.cursor < |s.runnable| == |s.progress| == |s.completed| == c.sockets
  {
    var i := s.cursor;
    Sender(
      Next(i, c.sockets),
      s.runnable[i := runnable],
      s.progress[i := s.progress[i] + enqueued],
      s.completed[i := completed],
      s.sent + enqueued,
      s.trace + [Visit(i, enqueued)])
  }

  /** What one visit adds, whether it succeeds or fails half way. */
  ghost predicate OneVisit(s: Sender, t: Sender, round: nat) {
    && |t.trace| == |s.trace| + 1 && s.trace <= t.trace
    && round + t.trace[|s.trace|].enqueued <= MAXIMUM_ROUND
    && t.sent == s.sent + t.trace[|s.trace|].enqueued
  }

  /** The transport agrees with the sender's variables. */
  ghost predicate InStep(c: Configuration, s: Sender, net: T.Sockets)
    reads net
  {
    Windowed(c, net.buffers) && Carries(net.sent, s.progress) && Idle(s.runnable, s.completed, net.blocked)
  }

  lemma VisitInStep(c: Configuration, s: Sender, enqueued: nat, runnable: bool, completed: bool,
                    wire: seq<T.Packet>, before: set<nat>, blocked: set<nat>)
    requires Valid(c, s) && s.cursor < c.sockets && Carries(wire, s.progress) && Idle(s.runnable, s.completed, before)
    requires !runnable ==> completed || s.cursor in blocked
    requires forall i :: i in before && i != s.cursor ==> i in blocked
    ensures
      var t := Visited(c, s, enqueued, runnable, completed);
      && Carries(wire + Packets(s.cursor, s.progress[s.cursor], enqueued), t.progress)
      && Idle(t.runnable, t.completed, blocked)
  {
    CarriesBurst(wire, s.progress, s.cursor, enqueued);
  }

  /** What a visit to the socket under the cursor may do to its variables. */
  ghost predicate MayVisit(c: Configuration, s: Sender, round: nat, burst: nat, completed: bool) {
    && s.cursor < |s.progress| && burst <= MAXIMUM_BURST && round + burst <= MAXIMUM_ROUND
    && s.progress[s.cursor] + burst <= c.messages
    && (completed <==> s.progress[s.cursor] + burst == c.messages)
  }

  /** One visit: skip, find the window full, or send a burst. */
  method VisitNext(c: Configuration, net: T.Sockets, s: Sender, round: nat, pacing: Pacing)
    returns (outcome: Outcome, t: Sender)
    requires Valid(c, s) && round < MAXIMUM_ROUND && Ready(pacing, s.sent) && InStep(c, s, net) && net.failed == None
    modifies Frame(pacing), net`buffers, net`answered, net`sent, net`blocked, net`failed
    ensures Valid(c, t) && OneVisit(s, t, round) && Ready(pacing, t.sent) && InStep(c, t, net)
    ensures s.cursor < |s.runnable| && (!s.runnable[s.cursor] ==> t.trace[|s.trace|].enqueued == 0)
    ensures outcome == Finished || Cut(outcome)
    ensures net.failed == Blames(outcome) && (outcome == RateExceedsTimeout ==> TooLate(pacing))
  {
    if s.trace != [] {
      NextIs(s.trace[|s.trace| - 1].socket, c.sockets);
    }
    var burst, runnable, completed;
    outcome, burst, runnable, completed := Serve(c, net, s, round, pacing);
    VisitInStep(c, s, burst, runnable, completed, old(net.sent), old(net.blocked), net.blocked);
    VisitKeepsValid(c, s, burst, runnable, completed);
    t := Visited(c, s, burst, runnable, completed);
  }

  /** Serve the socket under the cursor, if it is runnable and its window has room. */
  method Serve(c: Configuration, net: T.Sockets, s: Sender, round: nat, pacing: Pacing)
    returns (outcome: Outcome, burst: nat, runnable: bool, completed: bool)
    requires Valid(c, s) && s.cursor < c.sockets && round < MAXIMUM_ROUND && Ready(pacing, s.sent)
    requires Idle(s.runnable, s.completed, net.blocked) && net.failed == None && Windowed(c, net.buffers)
    modifies Frame(pacing), net`buffers, net`answered, net`sent, net`blocked, net`failed
    ensures MayVisit(c, s, round, burst, completed) && Windowed(c, net.buffers)
    ensures !s.runnable[s.cursor] ==> burst == 0
    ensures !runnable ==> completed || s.cursor in net.blocked
    ensures forall i :: i in old(net.blocked) && i != s.cursor ==> i in net.blocked
    ensures net.sent == old(net.sent) + Packets(s.cursor, s.progress[s.cursor], burst)
    ensures Ready(pacing, s.sent + burst)
    ensures outcome == Finished || Cut(outcome)
    ensures net.failed == Blames(outcome) && (outcome == RateExceedsTimeout ==> TooLate(pacing))
    ensures outcome == Finished && s.runnable[s.cursor] && runnable ==>
      completed || burst == MAXIMUM_BURST || round + burst == MAXIMUM_ROUND || net.answered + burst == c.window
  {
    var i := s.cursor;
    outcome, burst, runnable, completed := Finished, 0, s.runnable[i], s.completed[i];
    assert net.sent + Packets(i, s.progress[i], 0) == net.sent;
    if runnable {
      var fails, blocks := net.Query(i);
      if fails {
        outcome := QueryFailed;
      } else if blocks < c.window {
        outcome, burst, runnable, completed := SendBurst(c, net, s, blocks, round, pacing);
      }
    }
  }

  /** The burst of a visit and what it leaves of the socket's flags. */
  method SendBurst(c: Configuration, net: T.Sockets, s: Sender, blocks: nat, round: nat, pacing: Pacing)
    returns (outcome: Outcome, burst: nat, runnable: bool, completed: bool)
    requires Valid(c, s) && s.cursor < c.sockets && blocks < c.window && round < MAXIMUM_ROUND && Ready(pacing, s.sent)
    requires net.failed == None && Windowed(c, net.buffers) && net.buffers[s.cursor] <= blocks
    modifies Frame(pacing), net`buffers, net`sent, net`blocked, net`failed
    ensures MayVisit(c, s, round, burst, completed) && Windowed(c, net.buffers)
    ensures !runnable ==> completed || s.cursor in net.blocked
    ensures outcome == Finished && s.cursor in net.blocked && !completed ==> !runnable
    ensures completed && !s.completed[s.cursor] ==> !runnable
    ensures outcome == Finished && runnable ==>
      completed || burst == MAXIMUM_BURST || round + burst == MAXIMUM_ROUND || blocks + burst == c.window
    ensures forall i :: i in old(net.blocked) && i != s.cursor ==> i in net.blocked
    ensures net.sent == old(net.sent) + Packets(s.cursor, s.progress[s.cursor], burst)
    ensures Ready(pacing, s.sent + burst)
    ensures outcome == Finished || Cut(outcome)
    ensures net.failed == Blames(outcome) && (outcome == RateExceedsTimeout ==> TooLate(pacing))
  {
    var i := s.cursor;
    var reply;
    reply, burst := Burst(c, net, i, s.progress[i], blocks, round, pacing, s.sent);
    runnable, completed := reply == Queued, s.completed[i];
    if reply == Broken || reply == Late {
      return if reply == Late then RateExceedsTimeout else SendFailed, burst, true, completed;
    }
    outcome := Finished;
    if s.progress[i] + burst == c.messages && !completed {
      runnable, completed := false, true;
      var removalFails := net.Fails(T.RemoveCall);
      outcome := if removalFails then RemovalFailed else Finished;
    }
  }

  /** A round, possibly cut short: each socket visited at most once, and below the message limit until its last visit. */
  ghost predicate OneRound(c: Configuration, trace: seq<Visit>, from: nat, to: nat) {
    && from < to <= |trace| && to <= from + c.sockets && Enqueued(trace, from, to) <= MAXIMUM_ROUND
    && forall m :: from <= m < to ==> Enqueued(trace, from, m) < MAXIMUM_ROUND
  }

  /** A round that nothing cut short: every socket was visited, or the message limit was reached exactly. */
  ghost predicate FullRound(c: Configuration, trace: seq<Visit>, from: nat, to: nat) {
    OneRound(c, trace, from, to) && (to == from + c.sockets || Enqueued(trace, from, to) == MAXIMUM_ROUND)
  }

  lemma RoundStep(c: Configuration, before: seq<Visit>, after: seq<Visit>, from: nat)
    requires before <= after && |after| == |before| + 1 && from <= |before| < from + c.sockets
    requires from < |before| ==> OneRound(c, before, from, |before|)
    requires Enqueued(before, from, |before|) < MAXIMUM_ROUND
    ensures Enqueued(after, from, |after|) == Enqueued(before, from, |before|) + after[|before|].enqueued
    ensures Enqueued(after, from, |after|) <= MAXIMUM_ROUND ==> OneRound(c, after, from, |after|)
  {
    EnqueuedNext(before, after, from);
    assert after == before + after[|before|..];
    forall m | from <= m <= |before|
      ensures Enqueued(after, from, m) == Enqueued(before, from, m)
    {
      EnqueuedPrefix(before, after[|before|..], from, m);
    }
  }

  /**
   One round: at most one visit per socket and at most MAXIMUM_ROUND messages. It
   ends before every socket was visited only when the message budget is used up
   or something failed.
   */
  method Round(c: Configuration, net: T.Sockets, s: Sender, pacing: Pacing) returns (outcome: Outcome, t: Sender)
    requires Valid(c, s) && Ready(pacing, s.sent) && InStep(c, s, net) && net.failed == None
    modifies Frame(pacing), net`buffers, net`answered, net`sent, net`blocked, net`failed
    ensures Valid(c, t) && s.trace <= t.trace && Ready(pacing, t.sent) && InStep(c, t, net)
    ensures t.sent - s.sent == Enqueued(t.trace, |s.trace|, |t.trace|)
    ensures outcome == Finished || Cut(outcome)
    ensures net.failed == Blames(outcome) && (outcome == RateExceedsTimeout ==> TooLate(pacing))
    ensures OneRound(c, t.trace, |s.trace|, |t.trace|)
    ensures outcome == Finished ==> FullRound(c, t.trace, |s.trace|, |t.trace|)
  {
    outcome, t := Finished, s;
    var round, visited := 0, 0;
    while visited < c.sockets && round < MAXIMUM_ROUND
      invariant Valid(c, t) && s.trace <= t.trace && visited <= c.sockets && Ready(pacing, t.sent) && InStep(c, t, net)
      invariant visited == |t.trace| - |s.trace| && outcome == Finished && net.failed == None
      invariant round == t.sent - s.sent == Enqueued(t.trace, |s.trace|, |t.trace|) <= MAXIMUM_ROUND
      invariant visited > 0 ==> OneRound(c, t.trace, |s.trace|, |t.trace|)
      decreases c.sockets - visited
    {
      var before := t;
      outcome, t := VisitNext(c, net, t, round, pacing);
      RoundStep(c, before.trace, t.trace, |s.trace|);
      if outcome != Finished {
        return;
      }
      round := round + t.trace[|before.trace|].enqueued;
      visited := visited + 1;
    }
  }

  lemma NoneDone(c: Configuration)
    requires Parsed(c)
    ensures Valid(c, Started(c))
  {
    SumZeros(c.sockets);
  }

  function Started(c: Configuration): Sender {
    Sender(0, seq(c.sockets, _ => true), seq(c.sockets, _ => 0), seq(c.sockets, _ => false),
           0, [])
  }

  /** When the 64-bit product does not wrap, the loop ends exactly when every socket is done. */
  lemma DoneMeansDone(c: Configuration, s: Sender)
    requires Valid(c, s) && c.sockets * c.messages < WORD
    ensures s.sent >= Expected(c) <==> forall i :: 0 <= i < c.sockets ==> s.progress[i] == c.messages
  {
    SumBound(s.progress, c.messages);
    if forall i :: 0 <= i < c.sockets ==> s.progress[i] == c.messages {
      SumFull(s.progress, c.messages);
    }
  }

  /** `rounds` cuts the whole trace into rounds, all of them full, except that a failure may cut the last one short. */
  ghost predicate InRounds(c: Configuration, trace: seq<Visit>, rounds: seq<nat>, failed: bool) {
    && rounds != [] && rounds[0] == 0 && rounds[|rounds| - 1] == |trace|
    && (forall q, r :: 0 <= q < r < |rounds| && r == q + 1 ==> OneRound(c, trace, rounds[q], rounds[r]))
    && (forall q, r :: 0 <= q < r < |rounds| && r == q + 1 && (failed ==> r < |rounds| - 1) ==>
      FullRound(c, trace, rounds[q], rounds[r]))
  }

  lemma RoundKept(c: Configuration, before: seq<Visit>, after: seq<Visit>, from: nat, to: nat)
    requires OneRound(c, before, from, to) && before <= after
    ensures OneRound(c, after, from, to)
    ensures FullRound(c, before, from, to) ==> FullRound(c, after, from, to)
  {
    assert after == before + after[|before|..];
    forall m | from <= m <= to
      ensures Enqueued(after, from, m) == Enqueued(before, from, m)
    {
      EnqueuedPrefix(before, after[|before|..], from, m);
    }
  }

  /** The cut is the only one: it is determined by the trace. */
  lemma {:induction false} RoundsAgree(c: Configuration, trace: seq<Visit>, a: seq<nat>, b: seq<nat>, failed: bool, n: nat)
    requires InRounds(c, trace, a, failed) && InRounds(c, trace, b, failed) && n < |a| && n < |b|
    ensures a[n] == b[n]
  {
    if n > 0 {
      RoundsAgree(c, trace, a, b, failed, n - 1);
      var from, x, y := a[n - 1], a[n], b[n];
      assert OneRound(c, trace, from, x) && OneRound(c, trace, from, y);
      CutBefore(c, trace, a, failed, n, y);
      CutBefore(c, trace, b, failed, n, x);
    }
  }

  /** No round reaches beyond the point where another cut puts its end. */
  lemma CutBefore(c: Configuration, trace: seq<Visit>, rounds: seq<nat>, failed: bool, n: nat, other: nat)
    requires InRounds(c, trace, rounds, failed) && 0 < n < |rounds| && OneRound(c, trace, rounds[n - 1], other)
    ensures other <= rounds[n]
  {
    if n < |rounds| - 1 {
      assert FullRound(c, trace, rounds[n - 1], rounds[n]);
    }
  }

  lemma {:induction false} RoundsGrow(c: Configuration, trace: seq<Visit>, rounds: seq<nat>, failed: bool, n: nat)
    requires InRounds(c, trace, rounds, failed) && n < |rounds|
    ensures rounds[n] <= |trace| && (n < |rounds| - 1 ==> rounds[n] < |trace|)
    decreases |rounds| - n
  {
    if n < |rounds| - 1 {
      RoundsGrow(c, trace, rounds, failed, n + 1);
      assert OneRound(c, trace, rounds[n], rounds[n + 1]);
    }
  }

  lemma RoundsUnique(c: Configuration, trace: seq<Visit>, a: seq<nat>, b: seq<nat>, failed: bool)
    requires InRounds(c, trace, a, failed) && InRounds(c, trace, b, failed)
    ensures a == b
  {
    var n := if |a| < |b| then |a| else |b|;
    forall i | 0 <= i < n
      ensures a[i] == b[i]
    {
      RoundsAgree(c, trace, a, b, failed, i);
    }
    RoundsGrow(c, trace, a, failed, n - 1);
    RoundsGrow(c, trace, b, failed, n - 1);
  }

  /** Wait for the transport, but only if no socket is runnable. */
  method Wake(c: Configuration, net: T.Sockets, s: Sender) returns (outcome: Outcome, t: Sender)
    requires Valid(c, s) && InStep(c, s, net) && net.failed == None
    modifies net`ready, net`failed
    ensures Valid(c, t) && InStep(c, t, net) && t == s.(runnable := t.runnable)
    ensures (forall i :: 0 <= i < c.sockets ==> !s.runnable[i]) && outcome == Finished ==>
      forall i :: 0 <= i < c.sockets ==> (t.runnable[i] <==> i in net.ready)
    ensures outcome == Finished || outcome == PollFailed
    ensures net.failed == Blames(outcome)
    ensures (exists i :: 0 <= i < c.sockets && s.runnable[i]) ==> outcome == Finished && t == s
  {
    outcome, t := Finished, s;
    if forall i :: 0 <= i < |s.runnable| ==> !s.runnable[i] {
      var fails, woken := net.Poll(s.runnable);
      if fails {
        outcome := PollFailed;
      } else {
        t := s.(runnable := woken);
      }
    }
  }

  /** One turn of the loop: wait if there is nothing to do, then one round. */
  method Turn(c: Configuration, net: T.Sockets, s: Sender, pacing: Pacing, ghost rounds: seq<nat>)
    returns (outcome: Outcome, t: Sender, ghost more: seq<nat>)
    requires Valid(c, s) && Ready(pacing, s.sent) && InStep(c, s, net) && net.failed == None
    requires InRounds(c, s.trace, rounds, false)
    modifies Frame(pacing), net`buffers, net`answered, net`sent, net`blocked, net`ready, net`failed
    ensures Valid(c, t) && Ready(pacing, t.sent) && InStep(c, t, net) && InRounds(c, t.trace, more, Cut(outcome))
    ensures outcome == Finished || outcome == PollFailed || Cut(outcome)
    ensures net.failed == Blames(outcome) && (outcome == RateExceedsTimeout ==> TooLate(pacing))
    ensures |more| == |rounds| + if outcome == PollFailed then 0 else 1
  {
    more := rounds;
    outcome, t := Wake(c, net, s);
    if outcome != Finished {
      return;
    }
    outcome, t := Round(c, net, t, pacing);
    RoundsNext(c, s.trace, t.trace, rounds, outcome != Finished);
    more := rounds + [|t.trace|];
  }

  /**
   The whole transfer, for any replies of the transport, any clock and any number
   of rounds before the deadline, paced or not. However it ends, the final state
   contains every message enqueued, in cyclic visits and bounded rounds, and a
   paced transfer has one paced history of exactly these messages.
   */
  method RunSender(c: Configuration, net: T.Sockets, patience: nat, pacing: Pacing)
    returns (outcome: Outcome, s: Sender, ghost rounds: seq<nat>)
    requires Parsed(c) && Ready(pacing, 0)
    requires net.sent == [] && net.failed == None && net.buffers == seq(c.sockets, _ => 0)
    modifies Frame(pacing), net`buffers, net`answered, net`sent, net`blocked, net`ready, net`failed
    ensures Valid(c, s) && Ready(pacing, s.sent) && InStep(c, s, net) && InRounds(c, s.trace, rounds, Cut(outcome))
    ensures net.failed == Blames(outcome)
    ensures outcome == RateExceedsTimeout ==> TooLate(pacing)
    ensures outcome == TimedOut ==> |rounds| == patience + 1 && s.sent < Expected(c)
    ensures |rounds| <= patience + 1
    ensures outcome == Finished ==>
      && s.sent >= Expected(c)
      && (c.sockets * c.messages < WORD ==> forall i :: 0 <= i < c.sockets ==> s.progress[i] == c.messages)
  {
    NoneDone(c);
    s, rounds, outcome := Started(c), [0], Finished;
    var left := patience;
    while s.sent < Expected(c)
      invariant Valid(c, s) && Ready(pacing, s.sent) && InStep(c, s, net) && InRounds(c, s.trace, rounds, false)
      invariant outcome == Finished && net.failed == None && |rounds| + left == patience + 1
      decreases left
    {
      if left == 0 {
        outcome := TimedOut;
        return;
      }
      left := left - 1;
      outcome, s, rounds := Turn(c, net, s, pacing, rounds);
      if outcome != Finished {
        return;
      }
    }
    if c.sockets * c.messages < WORD {
      DoneMeansDone(c, s);
    }
  }

  lemma {:induction false} EnqueuedSplit(trace: seq<Visit>, from: nat, middle: nat, to: nat)
    requires from <= middle <= to <= |trace|
    ensures Enqueued(trace, from, to) == Enqueued(trace, from, middle) + Enqueued(trace, middle, to)
  {
    if middle < to {
      EnqueuedSplit(trace, from, middle, to - 1);
    }
  }

  /**
   What other sockets enqueue between two visits to a socket: at most 64 messages per
   socket, and these take no less than their own time minus the burst credit.
   */
  ghost predicate PacedBetween(c: Configuration, trace: seq<Visit>, settings: P.Settings, h: seq<P.Enqueue>,
                               p: nat, q: nat)
    requires p < q <= |trace|
  {
    var first, last := Enqueued(trace, 0, p + 1), Enqueued(trace, 0, q);
    && first <= last <= |h| && last - first <= MAXIMUM_BURST * (c.sockets - 1)
    && (first < last ==>
      P.Offset(last - first, settings.period)
      <= h[last - 1].at - h[first].check + P.Offset(settings.burst, settings.period))
  }

  lemma PacedBypass(c: Configuration, s: Sender, settings: P.Settings, h: seq<P.Enqueue>, p: nat, q: nat)
    requires Valid(c, s) && Consecutive(s.trace, p, q)
    requires settings.period > 0.0 && settings.burst > 0 && P.Paced(settings, h) && |h| == s.sent
    ensures PacedBetween(c, s.trace, settings, h, p, q)
  {
    EnqueuedSplit(s.trace, 0, p + 1, q);
    EnqueuedSplit(s.trace, 0, q, |s.trace|);
    BypassedMessages(s.trace, c.sockets, p, q);
    var first, last := Enqueued(s.trace, 0, p + 1), Enqueued(s.trace, 0, q);
    if first < last {
      P.BurstBound(settings, h, first, last - 1);
    }
  }

  /** A paced transfer: the bypass bound and the burst bound hold together, on one run and its own history. */
  method RunPaced(c: Configuration, patience: nat, settings: P.Settings, deadline: real)
    returns (outcome: Outcome, s: Sender, net: T.Sockets, state: P.PacingState, ghost rounds: seq<nat>)
    requires Parsed(c) && settings.period > 0.0 && settings.burst > 0
    ensures Valid(c, s) && InRounds(c, s.trace, rounds, Cut(outcome)) && state.Valid() && state.sent == s.sent
    ensures P.Timely(state.history, deadline) && (outcome == RateExceedsTimeout ==> P.TooLate(state, deadline))
    ensures net.failed == Blames(outcome) && Carries(net.sent, s.progress) && Windowed(c, net.buffers)
    ensures forall p: nat, q: nat :: Consecutive(s.trace, p, q) ==>
      PacedBetween(c, s.trace, settings, state.history, p, q)
    ensures P.Offset(state.maximumBucketPackets, settings.period) < 1.0 + P.Offset(settings.burst + 1, settings.period)
  {
    state := new P.PacingState(settings);
    net := new T.Sockets(c.sockets);
    outcome, s, rounds := RunSender(c, net, patience, Paced(state, deadline));
    forall p: nat, q: nat | Consecutive(s.trace, p, q)
      ensures PacedBetween(c, s.trace, settings, state.history, p, q)
    {
      PacedBypass(c, s, settings, state.history, p, q);
    }
    P.MaximumBound(settings, state.history, state.maximumBucketPackets);
  }

  lemma RoundsNext(c: Configuration, before: seq<Visit>, after: seq<Visit>, rounds: seq<nat>, failed: bool)
    requires InRounds(c, before, rounds, false) && before <= after && OneRound(c, after, |before|, |after|)
    requires !failed ==> FullRound(c, after, |before|, |after|)
    ensures InRounds(c, after, rounds + [|after|], failed)
  {
    var longer := rounds + [|after|];
    forall q, r | 0 <= q < r < |rounds| && r == q + 1
      ensures FullRound(c, after, longer[q], longer[r])
    {
      RoundKept(c, before, after, rounds[q], rounds[r]);
    }
    assert longer[|rounds| - 1] == |before|;
  }
}
