/**
 The many-socket receiver: every accepted socket carries the messages of one
 logical connection, in order, and the sockets and logical connections end up in
 one-to-one correspondence.
 */
module ReceiverIdentity {
  import opened Common
  import P = Payload
  import R = RoundRobin
  import T = Transport

  const UNASSIGNED: nat := 0xFFFF_FFFF

  datatype Tracker = Tracker(ids: seq<nat>, claimed: seq<bool>, progress: seq<nat>, received: nat)

  datatype Rejection = SequenceInvalid | IdentityDuplicated | IdentityChanged

  datatype Result = Accepted(tracker: Tracker) | Rejected(why: Rejection)

  function Started(sockets: nat): Tracker {
    Tracker(seq(sockets, _ => UNASSIGNED), seq(sockets, _ => false), seq(sockets, _ => 0), 0)
  }

  ghost predicate Sized(t: Tracker) {
    |t.ids| == |t.claimed| == |t.progress|
  }

  /** Identity claim, ordering check and progress for one message on socket i. */
  function Accept(t: Tracker, i: nat, logical: nat, number: nat): Result
    requires Sized(t) && i < |t.ids|
  {
    if logical >= |t.ids| || number != t.progress[i] then Rejected(SequenceInvalid)
    else if t.ids[i] == UNASSIGNED then
      if t.claimed[logical] then Rejected(IdentityDuplicated)
      else Accepted(Tracker(t.ids[i := logical], t.claimed[logical := true],
                            t.progress[i := t.progress[i] + 1], t.received + 1))
    else if t.ids[i] != logical then Rejected(IdentityChanged)
    else Accepted(t.(progress := t.progress[i := t.progress[i] + 1], received := t.received + 1))
  }

  /** Assigned ids are pairwise distinct, and exactly the assigned ones are claimed. */
  ghost predicate Identified(ids: seq<nat>, claimed: seq<bool>) {
    && |ids| == |claimed| < UNASSIGNED
    && (forall i :: 0 <= i < |ids| && ids[i] != UNASSIGNED ==> ids[i] < |ids| && claimed[ids[i]])
    && (forall i, j :: 0 <= i < j < |ids| && ids[i] == ids[j] ==> ids[i] == UNASSIGNED)
    && (forall l :: 0 <= l < |ids| && claimed[l] ==> l in ids)
  }

  /** Total progress is the received count, and a socket has an id as soon as it has a message. */
  ghost predicate Counted(c: R.Configuration, t: Tracker)
    requires Sized(t)
  {
    && t.received == Sum(t.progress)
    && forall i :: 0 <= i < |t.ids| ==>
      t.progress[i] <= c.messages && (t.ids[i] == UNASSIGNED <==> t.progress[i] == 0)
  }

  ghost predicate Valid(c: R.Configuration, t: Tracker) {
    R.Parsed(c) && Sized(t) && |t.ids| == c.sockets && Counted(c, t) && Identified(t.ids, t.claimed)
  }

  lemma StartedValid(c: R.Configuration)
    requires R.Parsed(c)
    ensures Valid(c, Started(c.sockets))
  {
    SumZeros(c.sockets);
  }

  lemma ClaimKeepsIdentified(ids: seq<nat>, claimed: seq<bool>, i: nat, logical: nat)
    requires Identified(ids, claimed) && i < |ids| && logical < |ids|
    requires ids[i] == UNASSIGNED && !claimed[logical]
    ensures Identified(ids[i := logical], claimed[logical := true])
  {
    var next := ids[i := logical];
    assert next[i] == logical;
    forall l | 0 <= l < |ids| && claimed[logical := true][l]
      ensures l in next
    {
      if l != logical {
        var k :| 0 <= k < |ids| && ids[k] == l;
        assert next[k] == l;
      }
    }
  }

  lemma AcceptKeepsValid(c: R.Configuration, t: Tracker, i: nat, logical: nat, number: nat)
    requires Valid(c, t) && i < c.sockets && t.progress[i] < c.messages
    requires Accept(t, i, logical, number).Accepted?
    ensures Valid(c, Accept(t, i, logical, number).tracker)
  {
    SumUpdate(t.progress, i, t.progress[i] + 1);
    if t.ids[i] == UNASSIGNED {
      ClaimKeepsIdentified(t.ids, t.claimed, i, logical);
    }
  }

  // ------------------------------------------------------------ whole runs

  datatype Message = Message(socket: nat, logical: nat, number: nat)

  /** The tracker after accepting these messages one by one; None if some message is not accepted. */
  ghost function Replay(c: R.Configuration, run: seq<Message>): (t: Option<Tracker>)
    ensures t.Some? ==> Sized(t.value) && |t.value.ids| == c.sockets
  {
    if run == [] then Some(Started(c.sockets))
    else
      var last := run[|run| - 1];
      match Replay(c, run[..|run| - 1])
      case None => None
      case Some(t) =>
        if last.socket >= c.sockets || t.progress[last.socket] >= c.messages then None
        else match Accept(t, last.socket, last.logical, last.number)
          case Rejected(_) => None
          case Accepted(u) => Some(u)
  }

  /** Every reachable state is valid. */
  lemma {:induction false} ReplayValid(c: R.Configuration, run: seq<Message>)
    requires R.Parsed(c) && Replay(c, run).Some?
    ensures Valid(c, Replay(c, run).value)
  {
    if run == [] {
      StartedValid(c);
    } else {
      var last := run[|run| - 1];
      ReplayValid(c, run[..|run| - 1]);
      AcceptKeepsValid(c, Replay(c, run[..|run| - 1]).value, last.socket, last.logical, last.number);
    }
  }

  /** The messages a run delivered on one socket. */
  ghost function OnSocket(run: seq<Message>, socket: nat): seq<Message> {
    if run == [] then [] else
      var last := run[|run| - 1];
      OnSocket(run[..|run| - 1], socket) + (if last.socket == socket then [last] else [])
  }

  /** Each socket has received exactly messages 0, 1, 2, ... of its one logical connection. */
  lemma {:induction false} InOrder(c: R.Configuration, run: seq<Message>, i: nat)
    requires R.Parsed(c) && Replay(c, run).Some? && i < c.sockets
    ensures
      var t, received := Replay(c, run).value, OnSocket(run, i);
      && |received| == t.progress[i]
      && forall k :: 0 <= k < |received| ==> received[k] == Message(i, t.ids[i], k)
  {
    if run != [] {
      InOrder(c, run[..|run| - 1], i);
      ReplayValid(c, run[..|run| - 1]);
    }
  }

  // ---------------------------------------------------------- the bijection

  ghost function Image(ids: seq<nat>): set<nat> {
    set x | x in ids
  }

  lemma {:induction false} ImageSize(ids: seq<nat>)
    requires forall i, j :: 0 <= i < j < |ids| ==> ids[i] != ids[j]
    ensures |Image(ids)| == |ids|
  {
    if ids != [] {
      var n := |ids| - 1;
      ImageSize(ids[..n]);
      assert ids == ids[..n] + [ids[n]];
      assert Image(ids) == Image(ids[..n]) + {ids[n]};
      assert ids[n] !in Image(ids[..n]);
    }
  }

  ghost function Below(n: nat): (r: set<nat>)
    ensures |r| == n
    ensures forall x: nat :: x in r <==> x < n
  {
    if n == 0 then {} else Below(n - 1) + {n - 1}
  }

  lemma SubsetOfSameSize(a: set<nat>, b: set<nat>)
    requires a <= b && |a| == |b|
    ensures a == b
  {
    assert b == a + (b - a);
  }

  /** Pigeonhole: n distinct numbers below n are all of them. */
  lemma DistinctCovers(ids: seq<nat>, l: nat)
    requires forall i :: 0 <= i < |ids| ==> ids[i] < |ids|
    requires forall i, j :: 0 <= i < j < |ids| ==> ids[i] != ids[j]
    requires l < |ids|
    ensures l in ids
  {
    ImageSize(ids);
    var image := Image(ids);
    SubsetOfSameSize(image, Below(|ids|));
    assert l in image;
  }

  ghost predicate AllClaimed(t: Tracker) {
    forall l :: 0 <= l < |t.claimed| ==> t.claimed[l]
  }

  /** Sockets and logical connections correspond one to one, and every socket is complete. */
  ghost predicate Permutation(c: R.Configuration, t: Tracker) {
    && Sized(t) && |t.ids| == c.sockets
    && (forall i :: 0 <= i < c.sockets ==> t.ids[i] < c.sockets && t.progress[i] == c.messages)
    && (forall i, j :: 0 <= i < j < c.sockets ==> t.ids[i] != t.ids[j])
    && (forall l :: 0 <= l < c.sockets ==> l in t.ids)
  }

  lemma EndIsPermutation(c: R.Configuration, t: Tracker)
    requires Valid(c, t) && c.sockets * c.messages < WORD && t.received >= R.Expected(c)
    ensures Permutation(c, t) && AllClaimed(t)
  {
    SumBound(t.progress, c.messages);
    CompleteIsPermutation(c, t);
  }

  lemma CompleteIsPermutation(c: R.Configuration, t: Tracker)
    requires Valid(c, t)
    requires forall i :: 0 <= i < c.sockets ==> t.progress[i] == c.messages
    ensures Permutation(c, t) && AllClaimed(t)
  {
    assert forall i :: 0 <= i < c.sockets ==> t.ids[i] < c.sockets;
    forall l | 0 <= l < c.sockets
      ensures l in t.ids && t.claimed[l]
    {
      DistinctCovers(t.ids, l);
    }
  }

  lemma RoomLeft(progress: seq<nat>, messages: nat) returns (i: nat)
    requires progress != [] && progress[|progress| - 1] == 0
    requires Sum(progress) < (|progress| - 1) * messages
    ensures i < |progress| - 1 && progress[i] < messages
  {
    var n := |progress| - 1;
    if forall k :: 0 <= k < n ==> progress[k] >= messages {
      SumAtLeast(progress[..n], messages);
    }
    i :| 0 <= i < n && progress[i] < messages;
  }

  /** The last socket has heard nothing, and every other socket only of its own number. */
  ghost predicate Silent(t: Tracker) {
    && Sized(t) && t.ids != []
    && t.progress[|t.ids| - 1] == 0 && !t.claimed[|t.ids| - 1]
    && forall i :: 0 <= i < |t.ids| ==>
      (t.ids[i] == UNASSIGNED || t.ids[i] == i) && t.claimed[i] == (t.ids[i] == i)
  }

  lemma SilentStep(c: R.Configuration, t: Tracker, i: nat)
    requires Valid(c, t) && Silent(t) && i < c.sockets - 1
    ensures Accept(t, i, i, t.progress[i]).Accepted?
    ensures Silent(Accept(t, i, i, t.progress[i]).tracker)
  {
  }

  /** A run that leaves the last socket silent can receive any number of messages the others have room for. */
  lemma {:induction false} SilentSocket(c: R.Configuration, target: nat) returns (run: seq<Message>)
    requires R.Parsed(c) && target <= (c.sockets - 1) * c.messages
    ensures Replay(c, run).Some? && Replay(c, run).value.received == target && Silent(Replay(c, run).value)
  {
    run := [];
    if target > 0 {
      run := SilentSocket(c, target - 1);
      ReplayValid(c, run);
      var t := Replay(c, run).value;
      var i := RoomLeft(t.progress, c.messages);
      SilentStep(c, t, i);
      var next := Message(i, i, t.progress[i]);
      assert (run + [next])[..|run|] == run;
      run := run + [next];
    }
  }

  /**
   The closing check can fail only because the 64-bit number of expected messages
   wrapped: "not every logical connection was observed" is unreachable exactly
   when the product fits.
   */
  lemma ClosingCheckUnreachableIff(c: R.Configuration)
    requires R.Parsed(c)
    ensures c.sockets * c.messages < WORD <==>
      forall run :: Replay(c, run).Some? && Replay(c, run).value.received >= R.Expected(c)
        ==> AllClaimed(Replay(c, run).value)
  {
    if c.sockets * c.messages < WORD {
      forall run | Replay(c, run).Some? && Replay(c, run).value.received >= R.Expected(c)
        ensures AllClaimed(Replay(c, run).value)
      {
        ReplayValid(c, run);
        EndIsPermutation(c, Replay(c, run).value);
      }
    } else {
      assert (c.sockets - 1) * c.messages == c.sockets * c.messages - c.messages;
      var run := SilentSocket(c, R.Expected(c));
      assert !Replay(c, run).value.claimed[c.sockets - 1];
    }
  }

  /** Why a message is refused: out of order, a connection that another socket carries, or another one than before. */
  lemma WhyRejected(c: R.Configuration, t: Tracker, i: nat, logical: nat, number: nat)
    requires Valid(c, t) && i < c.sockets
    ensures Accept(t, i, logical, number) == Rejected(SequenceInvalid) <==> logical >= c.sockets || number != t.progress[i]
    ensures Accept(t, i, logical, number) == Rejected(IdentityDuplicated) <==>
      logical < c.sockets && number == t.progress[i] && t.ids[i] == UNASSIGNED && logical in t.ids
    ensures Accept(t, i, logical, number) == Rejected(IdentityChanged) <==>
      logical < c.sockets && number == t.progress[i] && t.ids[i] != UNASSIGNED && t.ids[i] != logical
  {
  }

  // ------------------------------------------------------------- the loop

  datatype Failure =
    | TimedOut | PollFailed | ReceiveFailed | PayloadInvalid | Refused(why: Rejection)
    | RemovalFailed | NotEveryConnection

  datatype Reply = Took | WouldBlock | Broken(failure: Failure)

  ghost predicate Reached(c: R.Configuration, run: seq<Message>, t: Tracker) {
    Valid(c, t) && Replay(c, run) == Some(t)
  }

  lemma ReachedNext(c: R.Configuration, run: seq<Message>, t: Tracker, i: nat, logical: nat, number: nat)
    requires Reached(c, run, t) && i < c.sockets && t.progress[i] < c.messages
    requires Accept(t, i, logical, number).Accepted?
    ensures
      var u := Accept(t, i, logical, number).tracker;
      && Reached(c, run + [Message(i, logical, number)], u)
      && u.received == t.received + 1 && u.progress == t.progress[i := t.progress[i] + 1]
  {
    AcceptKeepsValid(c, t, i, logical, number);
    assert (run + [Message(i, logical, number)])[..|run|] == run;
  }

  /** No message of any connection looks like this. */
  ghost predicate Foreign(size: nat, payload: seq<P.Byte>)
    requires size >= P.HEADER_SIZE
  {
    forall connection: nat, number: nat :: connection < P.Power(4) && number < P.Power(8) ==>
      payload != P.Prepared(size, connection, number)
  }

  /** Validation and decoding: exactly what a sender prepares is read, as the connection and message prepared. */
  method Decode(size: nat, payload: seq<P.Byte>) returns (ok: bool, logical: nat, number: nat)
    requires size >= P.HEADER_SIZE
    ensures ok ==> logical < P.Power(4) && number < P.Power(8) && payload == P.Prepared(size, logical, number)
    ensures !ok ==> Foreign(size, payload)
  {
    logical, number := 0, 0;
    if |payload| != size {
      return false, 0, 0;
    }
    ok := P.ValidateBody(payload);
    if ok {
      logical := P.LoadU32(payload[4..8]);
      number := P.LoadU64(payload[8..16]);
      P.LoadU32IsBigEndian(payload[4..8]);
      P.StoreAfterLoad(payload[4..8]);
      P.DecodePrepared(payload, logical, number);
    } else {
      forall connection: nat, message: nat | connection < P.Power(4) && message < P.Power(8)
        ensures payload != P.Prepared(size, connection, message)
      {
        P.DecodePrepared(payload, connection, message);
      }
    }
  }

  /** The messages are what was delivered, in order. */
  ghost predicate Heard(size: nat, delivered: seq<T.Delivery>, run: seq<Message>)
    requires size >= P.HEADER_SIZE
  {
    && |run| <= |delivered|
    && forall k :: 0 <= k < |run| ==>
      delivered[k] == T.Delivery(run[k].socket, P.Prepared(size, run[k].logical, run[k].number))
  }

  /** Why a delivery ends the transfer. */
  ghost predicate Spoils(size: nat, d: T.Delivery, t: Tracker, failure: Failure)
    requires size >= P.HEADER_SIZE
  {
    match failure
    case PayloadInvalid => Foreign(size, d.payload)
    case Refused(why) =>
      exists logical: nat, number: nat ::
        && Sized(t) && d.socket < |t.ids| && logical < P.Power(4) && number < P.Power(8)
        && d.payload == P.Prepared(size, logical, number) && Accept(t, d.socket, logical, number) == Rejected(why)
    case _ => false
  }

  predicate FromDelivery(reply: Reply) {
    reply.Broken? && (reply.failure.PayloadInvalid? || reply.failure.Refused?)
  }

  /** Failures that end a round half way. */
  predicate Cuts(reply: Reply) {
    FromDelivery(reply) || reply == Broken(ReceiveFailed) || reply == Broken(RemovalFailed)
  }

  /** Everything delivered was accepted, except a last delivery that ended the transfer. */
  ghost predicate Tells(size: nat, delivered: seq<T.Delivery>, run: seq<Message>, t: Tracker, reply: Reply)
    requires size >= P.HEADER_SIZE
  {
    && Heard(size, delivered, run)
    && if FromDelivery(reply) then |delivered| == |run| + 1 && Spoils(size, delivered[|run|], t, reply.failure)
       else |delivered| == |run|
  }

  /** The transport call that a reply blames. */
  function Blames(reply: Reply): Option<T.Call> {
    match reply
    case Broken(ReceiveFailed) => Some(T.ReceiveCall)
    case Broken(PollFailed) => Some(T.PollCall)
    case Broken(RemovalFailed) => Some(T.RemoveCall)
    case _ => None
  }

  /** The tracker is what the messages accepted so far make it, and they are what arrived. */
  ghost predicate Told(c: R.Configuration, net: T.Sockets, size: nat, run: seq<Message>, t: Tracker, reply: Reply)
    requires size >= P.HEADER_SIZE
    reads net
  {
    Reached(c, run, t) && Tells(size, net.delivered, run, t, reply) && net.failed == Blames(reply)
  }

  /** Serving socket i leaves the others pushed back that were. */
  ghost predicate Kept(before: set<nat>, blocked: set<nat>, i: nat) {
    forall j :: j in before && j != i ==> j in blocked
  }

  /** Socket i, and only it, went n messages further. */
  ghost predicate Advanced(t: Tracker, u: Tracker, i: nat, n: nat) {
    && i < |t.progress| == |u.progress| && u.received == t.received + n && u.progress[i] == t.progress[i] + n
    && forall j :: 0 <= j < |t.progress| && j != i ==> u.progress[j] == t.progress[j]
  }

  lemma AdvancedNext(t: Tracker, u: Tracker, v: Tracker, i: nat, n: nat)
    requires Advanced(t, u, i, n) && Advanced(u, v, i, 1)
    ensures Advanced(t, v, i, n + 1)
  {
  }

  lemma TellsTook(size: nat, delivered: seq<T.Delivery>, run: seq<Message>, t: Tracker, u: Tracker, m: Message)
    requires size >= P.HEADER_SIZE && Tells(size, delivered, run, t, Took)
    ensures Tells(size, delivered + [T.Delivery(m.socket, P.Prepared(size, m.logical, m.number))], run + [m], u, Took)
  {
  }

  lemma TellsSpoiled(size: nat, delivered: seq<T.Delivery>, run: seq<Message>, t: Tracker, d: T.Delivery, reply: Reply)
    requires size >= P.HEADER_SIZE && Tells(size, delivered, run, t, Took)
    requires FromDelivery(reply) && Spoils(size, d, t, reply.failure)
    ensures Tells(size, delivered + [d], run, t, reply)
  {
  }

  /** Decode the bytes that arrived on socket i and accept or refuse them. */
  method Judge(c: R.Configuration, size: nat, t: Tracker, i: nat, payload: seq<P.Byte>, ghost run: seq<Message>,
               ghost delivered: seq<T.Delivery>)
    returns (reply: Reply, u: Tracker, ghost longer: seq<Message>)
    requires size >= P.HEADER_SIZE && Reached(c, run, t) && Tells(size, delivered, run, t, Took)
    requires i < c.sockets && t.progress[i] < c.messages
    ensures Reached(c, longer, u) && Tells(size, delivered + [T.Delivery(i, payload)], longer, u, reply)
    ensures reply == Took || FromDelivery(reply)
    ensures reply == Took ==> Advanced(t, u, i, 1)
    ensures reply != Took ==> u == t
  {
    u, longer := t, run;
    var ok, logical, number := Decode(size, payload);
    if !ok {
      reply := Broken(PayloadInvalid);
      TellsSpoiled(size, delivered, run, t, T.Delivery(i, payload), reply);
      return;
    }
    var result := Accept(t, i, logical, number);
    if result.Accepted? {
      ReachedNext(c, run, t, i, logical, number);
      reply, u, longer := Took, result.tracker, run + [Message(i, logical, number)];
      TellsTook(size, delivered, run, t, u, Message(i, logical, number));
    } else {
      reply := Broken(Refused(result.why));
      TellsSpoiled(size, delivered, run, t, T.Delivery(i, payload), reply);
    }
  }

  /** Receive one message on socket i. */
  method ReceiveOne(c: R.Configuration, net: T.Sockets, size: nat, t: Tracker, i: nat, ghost run: seq<Message>)
    returns (reply: Reply, u: Tracker, ghost longer: seq<Message>)
    requires size >= P.HEADER_SIZE && Told(c, net, size, run, t, Took) && i < c.sockets && t.progress[i] < c.messages
    modifies net`delivered, net`blocked, net`failed
    ensures Told(c, net, size, longer, u, reply) && (reply.Broken? ==> Cuts(reply))
    ensures Kept(old(net.blocked), net.blocked, i) && (reply == WouldBlock ==> i in net.blocked)
    ensures reply == Took ==> Advanced(t, u, i, 1) && i !in net.blocked
    ensures reply != Took ==> u == t
  {
    u, longer := t, run;
    var arrival := net.Receive(i);
    match arrival
    case Nothing => reply := WouldBlock;
    case Error => reply := Broken(ReceiveFailed);
    case Bytes(payload) => reply, u, longer := Judge(c, size, t, i, payload, run, old(net.delivered));
  }

  /** The burst of one visit; it only ever adds accepted messages. */
  method Burst(c: R.Configuration, net: T.Sockets, size: nat, t: Tracker, i: nat, round: nat, ghost run: seq<Message>)
    returns (reply: Reply, u: Tracker, burst: nat, ghost longer: seq<Message>)
    requires size >= P.HEADER_SIZE && Told(c, net, size, run, t, Took) && i < c.sockets && round <= R.MAXIMUM_ROUND
    modifies net`delivered, net`blocked, net`failed
    ensures Told(c, net, size, longer, u, reply) && (reply.Broken? ==> Cuts(reply))
    ensures Kept(old(net.blocked), net.blocked, i) && (reply == WouldBlock ==> i in net.blocked)
    ensures burst <= R.MAXIMUM_BURST && round + burst <= R.MAXIMUM_ROUND && Advanced(t, u, i, burst)
    ensures reply == Took ==>
      u.progress[i] == c.messages || burst == R.MAXIMUM_BURST || round + burst == R.MAXIMUM_ROUND
    ensures reply != Took ==> u.progress[i] < c.messages
  {
    reply, u, burst, longer := Took, t, 0, run;
    while u.progress[i] < c.messages && burst < R.MAXIMUM_BURST && round + burst < R.MAXIMUM_ROUND
      invariant Told(c, net, size, longer, u, Took) && Kept(old(net.blocked), net.blocked, i) && reply == Took
      invariant burst <= R.MAXIMUM_BURST && round + burst <= R.MAXIMUM_ROUND && Advanced(t, u, i, burst)
    {
      ghost var before := u;
      reply, u, longer := ReceiveOne(c, net, size, u, i, longer);
      if reply != Took {
        return;
      }
      AdvancedNext(t, before, u, i, burst);
      burst := burst + 1;
    }
  }

  /** The loop's other variables; `trace` lists the visits and what each received. */
  datatype Flags = Flags(cursor: nat, runnable: seq<bool>, completed: seq<bool>, trace: seq<R.Visit>)

  /** The sockets are visited in the same cyclic order as the sender's. */
  ghost predicate FlagsFit(c: R.Configuration, t: Tracker, f: Flags) {
    && |f.runnable| == |f.completed| == |t.progress| == c.sockets
    && R.Cyclic(f.trace, c.sockets)
    && f.cursor == (if f.trace == [] then 0 else R.Next(f.trace[|f.trace| - 1].socket, c.sockets))
    && t.received == R.Enqueued(f.trace, 0, |f.trace|)
    && forall i :: 0 <= i < c.sockets ==> (f.completed[i] <==> t.progress[i] == c.messages)
  }

  /** The variables after a visit to the socket under the cursor. */
  function Visited(c: R.Configuration, f: Flags, received: nat, runnable: bool, completed: bool): Flags
    requires f.cursor < |f.runnable| == |f.completed| == c.sockets
  {
    Flags(R.Next(f.cursor, c.sockets), f.runnable[f.cursor := runnable], f.completed[f.cursor := completed],
          f.trace + [R.Visit(f.cursor, received)])
  }

  lemma VisitFits(c: R.Configuration, t: Tracker, u: Tracker, f: Flags, received: nat, runnable: bool, completed: bool)
    requires FlagsFit(c, t, f) && f.cursor < c.sockets && received <= R.MAXIMUM_BURST
    requires Advanced(t, u, f.cursor, received)
    requires completed <==> u.progress[f.cursor] == c.messages
    ensures FlagsFit(c, u, Visited(c, f, received, runnable, completed))
  {
    R.CyclicNext(f.trace, c.sockets, received);
    R.EnqueuedPrefix(f.trace, [R.Visit(f.cursor, received)], 0, |f.trace|);
  }

  /** Serve the socket under the cursor if it is runnable. */
  method Serve(c: R.Configuration, net: T.Sockets, size: nat, t: Tracker, f: Flags, round: nat, ghost run: seq<Message>)
    returns (reply: Reply, u: Tracker, burst: nat, runnable: bool, completed: bool, ghost longer: seq<Message>)
    requires size >= P.HEADER_SIZE && Told(c, net, size, run, t, Took) && round <= R.MAXIMUM_ROUND
    requires FlagsFit(c, t, f) && f.cursor < c.sockets && R.Idle(f.runnable, f.completed, net.blocked)
    modifies net`delivered, net`blocked, net`failed
    ensures Told(c, net, size, longer, u, reply)
    ensures reply.Broken? ==> Cuts(reply)
    ensures Kept(old(net.blocked), net.blocked, f.cursor)
    ensures burst <= R.MAXIMUM_BURST && round + burst <= R.MAXIMUM_ROUND && Advanced(t, u, f.cursor, burst)
    ensures completed <==> u.progress[f.cursor] == c.messages
    ensures !runnable ==> completed || f.cursor in net.blocked
    ensures completed && !f.completed[f.cursor] ==> !runnable
    ensures !f.runnable[f.cursor] ==> burst == 0 && !runnable && reply == Took
    ensures reply == WouldBlock ==> !runnable
    ensures f.runnable[f.cursor] && reply == Took ==>
      u.progress[f.cursor] == c.messages || burst == R.MAXIMUM_BURST || round + burst == R.MAXIMUM_ROUND
  {
    var i := f.cursor;
    reply, u, burst, runnable, completed, longer := Took, t, 0, f.runnable[i], f.completed[i], run;
    if runnable {
      reply, u, burst, longer := Burst(c, net, size, t, i, round, run);
      if reply.Broken? {
        return;
      }
      runnable := reply == Took;
      if u.progress[i] == c.messages && !completed {
        runnable, completed := false, true;
        var removalFails := net.Fails(T.RemoveCall);
        if removalFails {
          reply := Broken(RemovalFailed);
        }
      }
    }
  }

  /** What the loop keeps between two visits. */
  ghost predicate Going(c: R.Configuration, net: T.Sockets, t: Tracker, f: Flags)
    reads net
  {
    FlagsFit(c, t, f) && R.Idle(f.runnable, f.completed, net.blocked)
  }

  /** One visit of a round. */
  method VisitNext(c: R.Configuration, net: T.Sockets, size: nat, t: Tracker, f: Flags, round: nat,
                   ghost run: seq<Message>)
    returns (reply: Reply, u: Tracker, g: Flags, ghost longer: seq<Message>)
    requires size >= P.HEADER_SIZE && Told(c, net, size, run, t, Took) && Going(c, net, t, f) && round <= R.MAXIMUM_ROUND
    modifies net`delivered, net`blocked, net`failed
    ensures Told(c, net, size, longer, u, reply) && Going(c, net, u, g)
    ensures reply.Broken? ==> Cuts(reply)
    ensures |g.trace| == |f.trace| + 1 && f.trace <= g.trace
    ensures u.received == t.received + g.trace[|f.trace|].enqueued
    ensures round + g.trace[|f.trace|].enqueued <= R.MAXIMUM_ROUND
  {
    if f.trace != [] {
      R.NextIs(f.trace[|f.trace| - 1].socket, c.sockets);
    }
    var burst, runnable, completed;
    reply, u, burst, runnable, completed, longer := Serve(c, net, size, t, f, round, run);
    VisitFits(c, t, u, f, burst, runnable, completed);
    g := Visited(c, f, burst, runnable, completed);
  }

  /** One round over the sockets, bounded like the sender's. */
  method Round(c: R.Configuration, net: T.Sockets, size: nat, t: Tracker, f: Flags, ghost run: seq<Message>)
    returns (reply: Reply, u: Tracker, g: Flags, ghost longer: seq<Message>)
    requires size >= P.HEADER_SIZE && Told(c, net, size, run, t, Took) && Going(c, net, t, f)
    modifies net`delivered, net`blocked, net`failed
    ensures Told(c, net, size, longer, u, reply) && Going(c, net, u, g)
    ensures reply.Broken? ==> Cuts(reply)
    ensures f.trace <= g.trace && R.OneRound(c, g.trace, |f.trace|, |g.trace|)
    ensures !reply.Broken? ==> R.FullRound(c, g.trace, |f.trace|, |g.trace|)
  {
    reply, u, g, longer := Took, t, f, run;
    var round: nat, visited: nat := 0, 0;
    while visited < c.sockets && round < R.MAXIMUM_ROUND
      invariant Told(c, net, size, longer, u, reply) && Going(c, net, u, g)
      invariant f.trace <= g.trace && visited == |g.trace| - |f.trace| <= c.sockets && !reply.Broken?
      invariant round == u.received - t.received == R.Enqueued(g.trace, |f.trace|, |g.trace|) <= R.MAXIMUM_ROUND
      invariant visited > 0 ==> R.OneRound(c, g.trace, |f.trace|, |g.trace|)
      decreases c.sockets - visited
    {
      ghost var before := g.trace;
      var received := u.received;
      reply, u, g, longer := VisitNext(c, net, size, u, g, round, longer);
      R.RoundStep(c, before, g.trace, |f.trace|);
      if reply.Broken? {
        return;
      }
      round := round + (u.received - received);
      visited := visited + 1;
    }
  }

  /** Wait for the transport, but only if no socket is runnable. */
  method Wake(c: R.Configuration, net: T.Sockets, ghost t: Tracker, f: Flags)
    returns (fails: bool, g: Flags)
    requires Going(c, net, t, f) && net.failed == None
    modifies net`ready, net`failed
    ensures Going(c, net, t, g) && g.trace == f.trace
    ensures (forall i :: 0 <= i < c.sockets ==> !f.runnable[i]) && !fails ==>
      forall i :: 0 <= i < c.sockets ==> (g.runnable[i] <==> i in net.ready)
    ensures net.failed == if fails then Some(T.PollCall) else None
    ensures (exists i :: 0 <= i < c.sockets && f.runnable[i]) ==> !fails && g == f
  {
    fails, g := false, f;
    if forall i :: 0 <= i < |f.runnable| ==> !f.runnable[i] {
      var woken;
      fails, woken := net.Poll(f.runnable);
      g := f.(runnable := woken);
    }
  }

  /** One turn of the loop: wait if there is nothing to do, then one round. */
  method Turn(c: R.Configuration, net: T.Sockets, size: nat, t: Tracker, f: Flags, ghost run: seq<Message>,
              ghost rounds: seq<nat>)
    returns (reply: Reply, u: Tracker, g: Flags, ghost longer: seq<Message>, ghost more: seq<nat>)
    requires size >= P.HEADER_SIZE && Told(c, net, size, run, t, Took) && Going(c, net, t, f)
    requires R.InRounds(c, f.trace, rounds, false)
    modifies net`delivered, net`blocked, net`ready, net`failed
    ensures Told(c, net, size, longer, u, reply) && Going(c, net, u, g)
    ensures reply.Broken? ==> Cuts(reply) || reply == Broken(PollFailed)
    ensures R.InRounds(c, g.trace, more, Cuts(reply))
    ensures |more| == |rounds| + if reply == Broken(PollFailed) then 0 else 1
  {
    u, longer, more := t, run, rounds;
    var fails;
    fails, g := Wake(c, net, t, f);
    if fails {
      reply := Broken(PollFailed);
      return;
    }
    reply, u, g, longer := Round(c, net, size, t, g, run);
    R.RoundsNext(c, f.trace, g.trace, rounds, reply.Broken?);
    more := rounds + [|g.trace|];
  }

  /** The closing check: has every connection been claimed? */
  method Close(c: R.Configuration, t: Tracker, ghost run: seq<Message>) returns (reply: Reply)
    requires Reached(c, run, t) && t.received >= R.Expected(c)
    ensures reply == if AllClaimed(t) then Took else Broken(NotEveryConnection)
    ensures reply == Took && c.sockets * c.messages < WORD ==> Permutation(c, t)
    ensures reply != Took ==> c.sockets * c.messages >= WORD
  {
    if c.sockets * c.messages < WORD {
      EndIsPermutation(c, t);
    }
    reply := if forall l :: 0 <= l < |t.claimed| ==> t.claimed[l] then Took else Broken(NotEveryConnection);
  }

  /**
   The whole transfer, for any bytes and any number of rounds before the deadline.
   The messages accepted are exactly those that arrived, in order, and a failure is
   one of the transport or of the last arrival. The sockets are visited in full
   cyclic rounds. On success they carry a permutation of the logical connections;
   the closing check fails only when the expected count wrapped.
   */
  method RunReceiver(c: R.Configuration, net: T.Sockets, size: nat, patience: nat)
    returns (reply: Reply, t: Tracker, f: Flags, ghost run: seq<Message>, ghost rounds: seq<nat>)
    requires R.Parsed(c) && P.HEADER_SIZE <= size <= 1456
    requires net.delivered == [] && net.failed == None
    modifies net`delivered, net`blocked, net`ready, net`failed
    ensures Told(c, net, size, run, t, reply)
    ensures R.InRounds(c, f.trace, rounds, Cuts(reply))
    ensures reply != WouldBlock && (reply == Took ==> t.received >= R.Expected(c) && AllClaimed(t))
    ensures reply == Took && c.sockets * c.messages < WORD ==> Permutation(c, t)
    ensures reply == Broken(NotEveryConnection) ==>
      c.sockets * c.messages >= WORD && t.received >= R.Expected(c) && !AllClaimed(t)
    ensures reply == Broken(TimedOut) ==> |rounds| == patience + 1 && t.received < R.Expected(c)
    ensures |rounds| <= patience + 1
  {
    StartedValid(c);
    t, run, reply := Started(c.sockets), [], Took;
    f := Flags(0, seq(c.sockets, _ => true), seq(c.sockets, _ => false), []);
    rounds := [0];
    var expected := R.Expected(c);
    var left := patience;
    while t.received < expected
      invariant Told(c, net, size, run, t, Took) && Going(c, net, t, f)
      invariant R.InRounds(c, f.trace, rounds, false) && |rounds| + left == patience + 1
      decreases left
    {
      if left == 0 {
        reply := Broken(TimedOut);
        return;
      }
      left := left - 1;
      reply, t, f, run, rounds := Turn(c, net, size, t, f, run, rounds);
      if reply.Broken? {
        return;
      }
    }
    reply := Close(c, t, run);
  }

  /** The wrap is real: with two connections of 2^63 messages the loop has nothing to wait for. */
  lemma WrappedExample()
    ensures
      var c := R.Configuration(2, 0x8000_0000_0000_0000, 64);
      && R.Parsed(c) && R.Expected(c) == 0
      && Replay(c, []).Some? && !AllClaimed(Replay(c, []).value)
  {
    assert !Started(2).claimed[0];
  }

  // ------------------------------------------------------------ what is never rejected

  /**
   Every socket delivers messages 0, 1, 2, ... of the connection it carries, and sockets that
   delivered anything carry different connections; how the sockets interleave is free.
   */
  ghost predicate Faithful(c: R.Configuration, carries: seq<nat>, run: seq<Message>) {
    && |carries| == c.sockets && (forall m :: m in run ==> m.socket < c.sockets)
    && (forall i :: 0 <= i < c.sockets ==> Delivers(c, carries[i], run, i))
    && (forall i, j :: 0 <= i < j < c.sockets && OnSocket(run, i) != [] && OnSocket(run, j) != [] ==>
      carries[i] != carries[j])
  }

  ghost predicate Delivers(c: R.Configuration, connection: nat, run: seq<Message>, i: nat) {
    var received := OnSocket(run, i);
    && |received| <= c.messages && (received != [] ==> connection < c.sockets)
    && forall k :: 0 <= k < |received| ==> received[k] == Message(i, connection, k)
  }

  lemma FaithfulPrefix(c: R.Configuration, carries: seq<nat>, run: seq<Message>)
    requires run != [] && Faithful(c, carries, run)
    ensures Faithful(c, carries, run[..|run| - 1])
  {
    var before, last := run[..|run| - 1], run[|run| - 1];
    forall i | 0 <= i < c.sockets
      ensures Delivers(c, carries[i], before, i) && OnSocket(before, i) <= OnSocket(run, i)
    {
      assert Delivers(c, carries[i], run, i);
    }
  }

  /** The ids assigned by a faithful run are those its sockets carry. */
  ghost predicate Follows(carries: seq<nat>, t: Tracker) {
    |carries| == |t.ids| && forall i :: 0 <= i < |t.ids| && t.ids[i] != UNASSIGNED ==> t.ids[i] == carries[i]
  }

  lemma NextAccepted(c: R.Configuration, carries: seq<nat>, t: Tracker, i: nat)
    requires Valid(c, t) && Follows(carries, t) && i < c.sockets && carries[i] < c.sockets
    requires forall j :: 0 <= j < c.sockets && j != i && t.progress[j] > 0 ==> carries[j] != carries[i]
    ensures Accept(t, i, carries[i], t.progress[i]).Accepted?
    ensures Follows(carries, Accept(t, i, carries[i], t.progress[i]).tracker)
  {
  }

  lemma {:induction false} FaithfulAccepted(c: R.Configuration, carries: seq<nat>, run: seq<Message>)
    requires R.Parsed(c) && Faithful(c, carries, run)
    ensures Replay(c, run).Some? && Follows(carries, Replay(c, run).value)
  {
    if run != [] {
      var before, last := run[..|run| - 1], run[|run| - 1];
      var i := last.socket;
      FaithfulPrefix(c, carries, run);
      FaithfulAccepted(c, carries, before);
      ReplayValid(c, before);
      var t := Replay(c, before).value;
      assert Delivers(c, carries[i], run, i);
      assert OnSocket(run, i) == OnSocket(before, i) + [last];
      InOrder(c, before, i);
      assert OnSocket(run, i)[t.progress[i]] == last == Message(i, carries[i], t.progress[i]);
      forall j | 0 <= j < c.sockets && j != i && t.progress[j] > 0
        ensures carries[j] != carries[i]
      {
        InOrder(c, before, j);
        assert OnSocket(run, j) == OnSocket(before, j);
      }
      NextAccepted(c, carries, t, i);
    }
  }

  /** A run is accepted to its end exactly when it is faithful to some assignment of connections. */
  lemma AcceptedIff(c: R.Configuration, run: seq<Message>)
    requires R.Parsed(c)
    ensures Replay(c, run).Some? <==> exists carries :: Faithful(c, carries, run)
  {
    if Replay(c, run).Some? {
      var t := Replay(c, run).value;
      ReplayValid(c, run);
      SocketsKnown(c, run);
      forall i | 0 <= i < c.sockets
        ensures Delivers(c, t.ids[i], run, i) && (OnSocket(run, i) != [] ==> t.ids[i] != UNASSIGNED)
      {
        InOrder(c, run, i);
      }
      assert Faithful(c, t.ids, run);
    }
    if carries :| Faithful(c, carries, run) {
      FaithfulAccepted(c, carries, run);
    }
  }

  lemma {:induction false} SocketsKnown(c: R.Configuration, run: seq<Message>)
    requires Replay(c, run).Some?
    ensures forall m :: m in run ==> m.socket < c.sockets
  {
    if run != [] {
      SocketsKnown(c, run[..|run| - 1]);
      assert run == run[..|run| - 1] + [run[|run| - 1]];
    }
  }

  /** Socket i has received, in order, a prefix of what the sender put on the socket of its connection. */
  ghost predicate Relays(wire: seq<T.Packet>, connection: nat, run: seq<Message>, i: nat) {
    var packets, received := R.OnSocket(wire, connection), OnSocket(run, i);
    && |received| <= |packets|
    && forall k :: 0 <= k < |received| ==> received[k] == Message(i, packets[k].connection, packets[k].number)
  }

  /** What the sender's loop puts on its sockets is never refused, whichever socket carries which connection. */
  lemma SenderAccepted(c: R.Configuration, wire: seq<T.Packet>, progress: seq<nat>, carries: seq<nat>, run: seq<Message>)
    requires R.Parsed(c) && |progress| == |carries| == c.sockets && R.Carries(wire, progress)
    requires forall i :: 0 <= i < c.sockets ==> progress[i] <= c.messages && carries[i] < c.sockets
    requires forall i, j :: 0 <= i < j < c.sockets ==> carries[i] != carries[j]
    requires forall m :: m in run ==> m.socket < c.sockets
    requires forall i :: 0 <= i < c.sockets ==> Relays(wire, carries[i], run, i)
    ensures Replay(c, run).Some? && Follows(carries, Replay(c, run).value)
  {
    forall i | 0 <= i < c.sockets
      ensures Delivers(c, carries[i], run, i)
    {
      assert Relays(wire, carries[i], run, i);
    }
    FaithfulAccepted(c, carries, run);
  }

  /** No two messages are prepared alike. */
  lemma PreparedOnce(size: nat, connection: nat, message: nat, logical: nat, number: nat)
    requires size >= P.HEADER_SIZE && connection < P.Power(4) && message < P.Power(8)
    requires logical < P.Power(4) && number < P.Power(8)
    ensures P.Prepared(size, connection, message) == P.Prepared(size, logical, number) <==>
      connection == logical && message == number
  {
    P.DecodePrepared(P.Prepared(size, connection, message), connection, message);
    P.DecodePrepared(P.Prepared(size, connection, message), logical, number);
  }

  /** How often a schedule gives a socket its turn. */
  function Turns(schedule: seq<nat>, i: nat): nat {
    if schedule == [] then 0
    else Turns(schedule[..|schedule| - 1], i) + if schedule[|schedule| - 1] == i then 1 else 0
  }

  /** Every turn delivered one message, until the socket had delivered all of them. */
  ghost predicate Delivered(c: R.Configuration, t: Tracker, schedule: seq<nat>) {
    && |t.progress| == c.sockets
    && forall i :: 0 <= i < c.sockets ==>
      t.progress[i] == if Turns(schedule, i) < c.messages then Turns(schedule, i) else c.messages
  }

  /**
   Sender to receiver: whatever connections the sockets carry and however their messages
   interleave, the payloads the sender prepares are validated, decoded and accepted.
   */
  method Exchange(c: R.Configuration, size: nat, carries: seq<nat>, schedule: seq<nat>)
    returns (t: Tracker, rejected: bool)
    requires R.Parsed(c) && size >= P.HEADER_SIZE && |carries| == c.sockets
    requires forall i :: 0 <= i < c.sockets ==> carries[i] < c.sockets
    requires forall i, j :: 0 <= i < j < c.sockets ==> carries[i] != carries[j]
    ensures !rejected && Valid(c, t) && Follows(carries, t) && Delivered(c, t, schedule)
    ensures (forall i :: 0 <= i < c.sockets ==> Turns(schedule, i) >= c.messages) ==> Permutation(c, t)
  {
    StartedValid(c);
    t, rejected := Started(c.sockets), false;
    for n := 0 to |schedule|
      invariant Valid(c, t) && Follows(carries, t) && !rejected
      invariant Delivered(c, t, schedule[..n])
    {
      var i := schedule[n];
      assert schedule[..n + 1][..n] == schedule[..n];
      if i < c.sockets && t.progress[i] < c.messages {
        var accepted;
        accepted, t := ExchangeOne(c, size, carries, t, i);
        if !accepted {
          return t, true;
        }
      }
    }
    assert schedule[..|schedule|] == schedule;
    if forall i :: 0 <= i < c.sockets ==> Turns(schedule, i) >= c.messages {
      CompleteIsPermutation(c, t);
    }
  }

  /** Prepare the next message of a socket's connection and read it back. */
  method Transfer(size: nat, connection: nat, message: nat) returns (ok: bool, logical: nat, number: nat)
    requires size >= P.HEADER_SIZE && connection < P.Power(4) && message < P.Power(8)
    ensures ok && logical == connection && number == message
  {
    ok, logical, number := Decode(size, P.Prepared(size, connection, message));
    PreparedOnce(size, connection, message, logical, number);
  }

  lemma Fits(c: R.Configuration, connection: nat, message: nat)
    requires R.Parsed(c) && connection < c.sockets && message < c.messages
    ensures connection < P.Power(4) && message < P.Power(8)
  {
  }

  method ExchangeOne(c: R.Configuration, size: nat, carries: seq<nat>, t: Tracker, i: nat)
    returns (accepted: bool, u: Tracker)
    requires Valid(c, t) && Follows(carries, t) && i < c.sockets && t.progress[i] < c.messages && size >= P.HEADER_SIZE
    requires forall i :: 0 <= i < c.sockets ==> carries[i] < c.sockets
    requires forall i, j :: 0 <= i < j < c.sockets ==> carries[i] != carries[j]
    ensures accepted && Valid(c, u) && Follows(carries, u) && u.progress == t.progress[i := t.progress[i] + 1]
  {
    Fits(c, carries[i], t.progress[i]);
    var ok, logical, number := Transfer(size, carries[i], t.progress[i]);
    NextAccepted(c, carries, t, i);
    AcceptKeepsValid(c, t, i, carries[i], t.progress[i]);
    var result := Accept(t, i, logical, number);
    accepted, u := ok && result.Accepted?, if result.Accepted? then result.tracker else t;
  }
}
