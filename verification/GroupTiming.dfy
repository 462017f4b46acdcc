/**
 The backup-group timing sender: messages leave on an exact source timeline, the
 primary member carries a prefix of them and the backup member the rest.
 */
module GroupTiming {
  import opened Common

  const INVALID: int := -1
  const MICROSECONDS: nat := 1000000

  datatype MemberState = Idle | Running | Broken

  datatype Member = Member(id: int, state: MemberState)

  datatype Configuration = Configuration(
    messages: nat, size: nat, bandwidth: nat, failoverAfter: nat, undrained: bool, outage: bool)

  /** What parse_arguments accepts. */
  ghost predicate Parsed(c: Configuration) {
    && 2 <= c.messages <= 1000000 && 1 <= c.size <= 1452 && 1 <= c.bandwidth < WORD
    && 1 <= c.failoverAfter < c.messages && !(c.undrained && c.outage)
  }

  // ------------------------------------------------------------ the source timeline

  /** source_offset_at, with its two 64-bit products. */
  function SourceOffset(c: Configuration, index: nat): nat
    requires c.bandwidth > 0
  {
    Wrapped(index * c.size) / c.bandwidth
  }

  function Wrapped(bytes: nat): nat {
    (bytes % WORD) * MICROSECONDS % WORD
  }

  lemma ProductBound(x: nat, y: nat, a: nat, b: nat)
    requires x <= a && y <= b
    ensures x * y <= a * b
  {
  }

  /** Under the parsed limits neither product wraps. */
  lemma OffsetExact(c: Configuration, index: nat)
    requires Parsed(c) && index < c.messages
    ensures index * c.size * MICROSECONDS < WORD
    ensures SourceOffset(c, index) == index * c.size * MICROSECONDS / c.bandwidth
  {
    BytesBound(c, index);
    WordsFit(index * c.size);
  }

  lemma BytesBound(c: Configuration, index: nat)
    requires Parsed(c) && index < c.messages
    ensures index * c.size <= 1000000 * 1452
  {
    ProductBound(index, c.size, 1000000, 1452);
  }

  lemma WordsFit(bytes: nat)
    requires bytes <= 1000000 * 1452
    ensures bytes * MICROSECONDS < WORD
    ensures Wrapped(bytes) == bytes * MICROSECONDS
  {
  }

  /** The offset is the exact rate rounded down: never late, and early by less than one microsecond. */
  lemma OffsetDriftFree(c: Configuration, index: nat)
    requires Parsed(c) && index < c.messages
    ensures c.bandwidth * SourceOffset(c, index) <= index * c.size * MICROSECONDS
    ensures index * c.size * MICROSECONDS < c.bandwidth * (SourceOffset(c, index) + 1)
  {
    OffsetExact(c, index);
    var n, d := index * c.size * MICROSECONDS, c.bandwidth;
    var q: nat := n / d;
    assert n == d * q + n % d;
    assert d * (q + 1) == d * q + d;
  }

  /** Source times never go back. */
  lemma OffsetsAscend(c: Configuration, i: nat, j: nat)
    requires Parsed(c) && i <= j < c.messages
    ensures SourceOffset(c, i) <= SourceOffset(c, j)
  {
    OffsetDriftFree(c, i);
    OffsetDriftFree(c, j);
    Multiples(c.size, i, j);
    assert c.size * i == i * c.size && c.size * j == j * c.size;
    if SourceOffset(c, j) < SourceOffset(c, i) {
      Multiples(c.bandwidth, SourceOffset(c, j) + 1, SourceOffset(c, i));
    }
  }

  // ------------------------------------------------------------------ member states

  ghost predicate Runs(members: seq<Member>, k: int) {
    0 <= k < |members| && members[k].state == Running
  }

  /** Exactly one entry is running, and it is a valid member `id`. */
  ghost predicate OnlyRunning(members: seq<Member>, id: int) {
    id != INVALID && exists k :: Runs(members, k) && members[k].id == id && forall j :: Runs(members, j) ==> j == k
  }

  method RunningMember(members: seq<Member>) returns (running: int)
    ensures running != INVALID ==> OnlyRunning(members, running)
    ensures running == INVALID ==> forall id :: !OnlyRunning(members, id)
  {
    running := INVALID;
    ghost var at := -1;
    for i := 0 to |members|
      invariant running == INVALID ==> forall k :: Runs(members, k) ==> k >= i
      invariant running != INVALID ==>
        Runs(members, at) && at < i && members[at].id == running && forall k :: Runs(members, k) && k < i ==> k == at
    {
      if members[i].state == Running {
        assert Runs(members, i);
        if running != INVALID || members[i].id == INVALID {
          running := INVALID;
          return;
        }
        running, at := members[i].id, i;
      }
    }
  }

  ghost function RunningCount(members: seq<Member>, id: int): nat {
    if members == [] then 0 else
      var last := members[|members| - 1];
      RunningCount(members[..|members| - 1], id) + (if last.id == id && last.state == Running then 1 else 0)
  }

  method MemberIsRunning(members: seq<Member>, id: int) returns (running: bool)
    ensures running <==> RunningCount(members, id) == 1
  {
    var count := 0;
    for i := 0 to |members|
      invariant count == RunningCount(members[..i], id)
    {
      assert members[..i + 1][..i] == members[..i];
      if members[i].id == id && members[i].state == Running {
        count := count + 1;
      }
    }
    assert members[..|members|] == members;
    running := count == 1;
  }

  // ------------------------------------------------------------------- the send loop

  datatype Observation = Observation(index: nat, sourceTime: int, running: int, members: nat)

  datatype Outcome = Success | SendFailed | DrainFailed | CloseFailed | InputEnded | Incomplete

  /** What srt_sendmsg2 reports; `members` is empty when no group data came back. */
  datatype Reply = Reply(sent: int, sourceTime: int, sequence: int, number: int, members: seq<Member>)

  /** The running member on the wire: the primary before t, the backup from t on. */
  ghost predicate Switches(observations: seq<Observation>, primary: int, backup: int, t: nat) {
    forall i :: 0 <= i < |observations| ==> observations[i].running == if i < t then primary else backup
  }

  ghost predicate OnTime(c: Configuration, origin: int, observations: seq<Observation>)
    requires Parsed(c)
  {
    forall i :: 0 <= i < |observations| ==>
      && observations[i].index == i
      && observations[i].sourceTime == origin + SourceOffset(c, i)
      && 1 <= observations[i].members <= 2
  }

  /** The member that must carry a message, before or after the transition. */
  function Expected(c: Configuration, primary: int, backup: int, index: nat, transition: nat): int {
    if c.outage then (if transition == c.messages then primary else backup)
    else if index < c.failoverAfter then primary else backup
  }

  /** The transition after a reply: the first message at or after the failover point that the backup carries. */
  ghost function Transition(c: Configuration, backup: int, index: nat, transition: nat, reply: Reply): nat {
    if c.outage && transition == c.messages && index >= c.failoverAfter && RunningCount(reply.members, backup) == 1
    then index else transition
  }

  /** A complete report of a message sent on time by the expected member; without an outage no other one is running. */
  ghost predicate Accepted(c: Configuration, origin: int, primary: int, backup: int, index: nat, after: nat, reply: Reply)
    requires c.bandwidth > 0
  {
    var expected := Expected(c, primary, backup, index, after);
    && reply.sent == c.size && reply.sourceTime == origin + SourceOffset(c, index)
    && reply.sequence >= 0 && reply.number > 0 && 1 <= |reply.members| <= 2
    && RunningCount(reply.members, expected) == 1 && (!c.outage ==> OnlyRunning(reply.members, expected))
  }

  /** Judge one reply: which member counts as active, and is it the expected one? */
  method Judge(c: Configuration, origin: int, primary: int, backup: int, index: nat, transition: nat, reply: Reply)
    returns (ok: bool, active: int, after: nat)
    requires Parsed(c) && primary != INVALID && backup != INVALID
    ensures after == Transition(c, backup, index, transition, reply)
    ensures ok <==> Accepted(c, origin, primary, backup, index, after, reply)
    ensures ok ==> active == Expected(c, primary, backup, index, after)
  {
    after := transition;
    var primaryRunning := MemberIsRunning(reply.members, primary);
    var backupRunning := MemberIsRunning(reply.members, backup);
    active := RunningMember(reply.members);
    if c.outage && transition == c.messages && index >= c.failoverAfter && backupRunning {
      after := index;
    }
    if c.outage {
      active := if after == c.messages then (if primaryRunning then primary else INVALID)
                else (if backupRunning then backup else INVALID);
    }
    var expected := Expected(c, primary, backup, index, after);
    var expectedRunning := MemberIsRunning(reply.members, expected);
    ok := reply.sent == c.size && reply.sourceTime == origin + SourceOffset(c, index) && reply.sequence >= 0
      && reply.number > 0 && 1 <= |reply.members| <= 2 && expectedRunning && active == expected;
  }

  /** What the sender does not decide: its input, the group's replies and the waits for its buffers. */
  datatype World = World(
    reply: nat -> Reply, complete: nat -> bool, primaryDrains: bool, closes: bool, backupDrains: bool)

  /** The transition after the first n messages. */
  ghost function TransitionAt(c: Configuration, w: World, backup: int, n: nat): nat {
    if n == 0 then c.messages else Transition(c, backup, n - 1, TransitionAt(c, w, backup, n - 1), w.reply(n - 1))
  }

  lemma {:induction false} TransitionIs(c: Configuration, w: World, backup: int, n: nat)
    requires Parsed(c) && n <= c.messages
    ensures
      var t := TransitionAt(c, w, backup, n);
      && (!c.outage ==> t == c.messages)
      && (t == c.messages || c.failoverAfter <= t < n)
      && (t < c.messages ==> RunningCount(w.reply(t).members, backup) == 1)
      && forall k :: c.failoverAfter <= k < n && k < t && c.outage ==> RunningCount(w.reply(k).members, backup) != 1
  {
    if n > 0 {
      TransitionIs(c, w, backup, n - 1);
    }
  }

  /** Why a run ends without success after n messages. */
  ghost predicate Because(c: Configuration, w: World, origin: int, primary: int, backup: int, n: nat, outcome: Outcome)
    requires c.bandwidth > 0
  {
    match outcome
    case Success => n == c.messages && w.backupDrains
    case SendFailed =>
      && n < c.messages && w.complete(n)
      && !Accepted(c, origin, primary, backup, n, TransitionAt(c, w, backup, n + 1), w.reply(n))
    case DrainFailed =>
      || (n == c.failoverAfter && !c.outage && !c.undrained && !w.primaryDrains)
      || (n == c.messages && !w.backupDrains)
    case CloseFailed => n == c.failoverAfter && !c.outage && (c.undrained || w.primaryDrains) && !w.closes
    case InputEnded => n < c.messages && !w.complete(n)
    case Incomplete => n == c.messages && c.outage && TransitionAt(c, w, backup, n) in {c.messages, c.failoverAfter}
  }

  /** Message i was read, accepted and observed on the member expected at the time. */
  ghost predicate Sends(c: Configuration, w: World, origin: int, primary: int, backup: int, i: nat, o: Observation)
    requires c.bandwidth > 0
  {
    var after := TransitionAt(c, w, backup, i + 1);
    && w.complete(i) && Accepted(c, origin, primary, backup, i, after, w.reply(i))
    && o == Observation(i, w.reply(i).sourceTime, Expected(c, primary, backup, i, after), |w.reply(i).members|)
  }


  ghost predicate Sent(c: Configuration, w: World, origin: int, primary: int, backup: int, observations: seq<Observation>)
    requires c.bandwidth > 0
  {
    forall i :: 0 <= i < |observations| ==> Sends(c, w, origin, primary, backup, i, observations[i])
  }

  /** Close the primary at the failover point, drained first unless told otherwise. */
  method ClosePrimary(c: Configuration, w: World) returns (outcome: Outcome)
    ensures outcome ==
      if !c.undrained && !w.primaryDrains then DrainFailed else if !w.closes then CloseFailed else Success
  {
    if !c.undrained && !w.primaryDrains {
      return DrainFailed;
    }
    if !w.closes {
      return CloseFailed;
    }
    outcome := Success;
  }

  /** One message: read it, send it and judge the reply. */
  method Transmit(c: Configuration, w: World, origin: int, primary: int, backup: int, index: nat, transition: nat)
    returns (outcome: Outcome, observation: Observation, after: nat)
    requires Parsed(c) && primary != INVALID && backup != INVALID && index < c.messages
    requires transition == TransitionAt(c, w, backup, index)
    ensures outcome in {Success, InputEnded, SendFailed}
    ensures outcome != Success ==> after == transition && Because(c, w, origin, primary, backup, index, outcome)
    ensures outcome == Success ==>
      after == TransitionAt(c, w, backup, index + 1) && Sends(c, w, origin, primary, backup, index, observation)
  {
    observation, after := Observation(index, 0, INVALID, 0), transition;
    if !w.complete(index) {
      return InputEnded, observation, after;
    }
    var ok, active, next := Judge(c, origin, primary, backup, index, transition, w.reply(index));
    if !ok {
      return SendFailed, observation, after;
    }
    outcome, after := Success, next;
    observation := Observation(index, w.reply(index).sourceTime, active, |w.reply(index).members|);
  }

  /**
   A timing run in any world. The messages sent and the way it ends are determined by
   the world. On success the observed members are primary^t backup^(N - t): t is the
   configured index when the sender closes the primary itself, and lies strictly after
   it when the primary's path fails from outside.
   */
  method Run(c: Configuration, w: World, origin: int, primary: int, backup: int)
    returns (outcome: Outcome, observations: seq<Observation>, t: nat)
    requires Parsed(c) && primary != INVALID && backup != INVALID
    ensures |observations| <= c.messages && Sent(c, w, origin, primary, backup, observations)
    ensures OnTime(c, origin, observations)
    ensures Because(c, w, origin, primary, backup, |observations|, outcome)
    ensures |observations| > c.failoverAfter && !c.outage ==> (c.undrained || w.primaryDrains) && w.closes
    ensures outcome == Success ==>
      && |observations| == c.messages
      && Switches(observations, primary, backup, t)
      && (!c.outage ==> t == c.failoverAfter)
      && (c.outage ==> c.failoverAfter < t < c.messages && t == TransitionAt(c, w, backup, c.messages))
  {
    observations := [];
    var primaryClosed := false;
    t := c.messages;
    for index := 0 to c.messages
      invariant |observations| == index && Sent(c, w, origin, primary, backup, observations)
      invariant OnTime(c, origin, observations) && t == TransitionAt(c, w, backup, index)
      invariant primaryClosed <==> index > c.failoverAfter && !c.outage
      invariant primaryClosed ==> (c.undrained || w.primaryDrains) && w.closes
    {
      if index == c.failoverAfter && !c.outage {
        outcome := ClosePrimary(c, w);
        if outcome != Success {
          return;
        }
        primaryClosed := true;
      }
      var observation;
      outcome, observation, t := Transmit(c, w, origin, primary, backup, index, t);
      if outcome != Success {
        return;
      }
      observations := observations + [observation];
      SentOnTime(c, w, origin, primary, backup, observations);
    }
    TransitionIs(c, w, backup, c.messages);
    if (!c.outage && !primaryClosed) || (c.outage && (primaryClosed || t == c.messages || t <= c.failoverAfter)) {
      return Incomplete, observations, t;
    }
    if !w.backupDrains {
      return DrainFailed, observations, t;
    }
    t := if c.outage then t else c.failoverAfter;
    outcome := Success;
    SentSwitches(c, w, origin, primary, backup, observations, t);
  }

  /** Once the transition is known, so is the member of every message before and after it. */
  lemma SentSwitches(c: Configuration, w: World, origin: int, primary: int, backup: int, observations: seq<Observation>,
                     t: nat)
    requires Parsed(c) && |observations| == c.messages && Sent(c, w, origin, primary, backup, observations)
    requires t == if c.outage then TransitionAt(c, w, backup, c.messages) else c.failoverAfter
    requires t < c.messages
    ensures Switches(observations, primary, backup, t)
  {
    forall i | 0 <= i < c.messages
      ensures observations[i].running == if i < t then primary else backup
    {
      TransitionIs(c, w, backup, i + 1);
      TransitionKept(c, w, backup, i + 1, c.messages);
    }
  }

  lemma {:induction false} TransitionKept(c: Configuration, w: World, backup: int, n: nat, m: nat)
    requires Parsed(c) && n <= m <= c.messages
    ensures TransitionAt(c, w, backup, n) < c.messages ==> TransitionAt(c, w, backup, m) == TransitionAt(c, w, backup, n)
    ensures TransitionAt(c, w, backup, n) == c.messages ==> TransitionAt(c, w, backup, m) >= n
    decreases m - n
  {
    if n < m {
      TransitionKept(c, w, backup, n, m - 1);
      TransitionIs(c, w, backup, m - 1);
    }
  }

  /** What a run reports is on time. */
  lemma SentOnTime(c: Configuration, w: World, origin: int, primary: int, backup: int, observations: seq<Observation>)
    requires Parsed(c) && Sent(c, w, origin, primary, backup, observations)
    ensures OnTime(c, origin, observations)
  {
    forall i | 0 <= i < |observations|
      ensures observations[i].sourceTime == origin + SourceOffset(c, i)
    {
      assert Sends(c, w, origin, primary, backup, i, observations[i]);
    }
  }

  /** What a successful run prints: nondecreasing source times, each within a microsecond of the exact rate. */
  lemma ReportedTimes(c: Configuration, origin: int, observations: seq<Observation>, i: nat, j: nat)
    requires Parsed(c) && |observations| <= c.messages && OnTime(c, origin, observations) && i <= j < |observations|
    ensures observations[i].sourceTime <= observations[j].sourceTime
    ensures c.bandwidth * (observations[j].sourceTime - origin) <= j * c.size * MICROSECONDS
    ensures j * c.size * MICROSECONDS < c.bandwidth * (observations[j].sourceTime - origin + 1)
  {
    OffsetsAscend(c, i, j);
    OffsetDriftFree(c, j);
  }
}
