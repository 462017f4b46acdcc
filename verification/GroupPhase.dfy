/**
 The group throughput peer: a sender that keeps bounded FIFO member buffers fed
 with payload and then with continuation messages, infers from buffer lengths
 alone that every payload has been acknowledged, and reports counters that the
 controller checks afterwards.
 */
module GroupPhase {
  import opened Common

  const PENDING_LIMIT: nat := 64
  const BURST_LIMIT: nat := 32
  const CONTINUATION_LIMIT: nat := 4096
  const WARMUP_MESSAGES: nat := 256
  const MAXIMUM_MESSAGES: nat := 10000000
  const TIMEOUT: nat := 30000000 // microseconds
  const FLAG: nat := 0x8000_0000_0000_0000

  /** The first eight bytes of a message: its index, with bit 63 set for a continuation. */
  type Word = nat

  /** Payload words first, first + 1, ..., in send order. */
  function Range(first: nat, count: nat): (r: seq<Word>)
    ensures |r| == count
    ensures forall k :: 0 <= k < count ==> r[k] == first + k
  {
    seq(count, k requires 0 <= k => first + k)
  }

  function Repeat(word: Word, count: nat): (r: seq<Word>)
    ensures |r| == count
    ensures forall k :: 0 <= k < count ==> r[k] == word
  {
    seq(count, _ => word)
  }

  /** One more copy for every member that queued the message. */
  function Tally(copies: seq<nat>, results: seq<bool>): (r: seq<nat>)
    requires |copies| == |results|
    ensures |r| == |copies|
    ensures forall i :: 0 <= i < |r| ==> r[i] == copies[i] + (if results[i] then 1 else 0)
  {
    seq(|copies|, i requires 0 <= i < |copies| => copies[i] + (if results[i] then 1 else 0))
  }

  lemma {:induction false} TallyAddsUp(copies: seq<nat>, results: seq<bool>)
    requires |copies| == |results|
    ensures Sum(Tally(copies, results)) >= Sum(copies)
    ensures (exists i :: 0 <= i < |results| && results[i]) ==> Sum(Tally(copies, results)) > Sum(copies)
  {
    if copies != [] {
      var n := |copies| - 1;
      TallyAddsUp(copies[..n], results[..n]);
      assert Tally(copies, results)[..n] == Tally(copies[..n], results[..n]);
      if i :| 0 <= i < |results| && results[i] {
        assert i < n ==> results[..n][i];
      }
    }
  }

  /**
   What one phase appended to one member's buffer: `payload` payload copies in
   strictly increasing index order, then `continuation` continuation copies.
   */
  ghost predicate MemberLog(before: seq<Word>, after: seq<Word>, payload: nat, continuation: nat,
                            first: nat, count: nat)
  {
    && before <= after
    && |after| == |before| + payload + continuation
    && (forall k :: |before| <= k < |before| + payload ==> first <= after[k] < first + count)
    && (forall j, k :: |before| <= j < k < |before| + payload ==> after[j] < after[k])
    && (forall k :: |before| + payload <= k < |after| ==> after[k] == FLAG + first)
  }

  datatype Failure =
    | PhaseTimeout | WindowTimeout | ContinuationTimeout
    | GroupSend | MissingBroadcastCopy | ContinuationBudget
    | InvalidAccounting

  datatype Check = Clear | Fails(failure: Failure)

  datatype PhaseResult = PhaseResult(
    digest: seq<Word>,
    continuationMessages: nat,
    payloadCopies: seq<nat>,
    continuationCopies: seq<nat>)

  datatype PhaseOutcome = Finished(result: PhaseResult) | Aborted(failure: Failure)

  /** Counters that only grow. */
  ghost predicate Ahead(before: seq<nat>, after: seq<nat>) {
    |before| == |after| && forall i :: 0 <= i < |before| ==> before[i] <= after[i]
  }

  /** Every buffer has space for `budget` more messages inside the pending window. */
  ghost predicate Room(queued: seq<seq<Word>>, acked: seq<nat>, budget: nat) {
    |queued| == |acked| && forall i :: 0 <= i < |queued| ==> |queued[i]| + budget <= acked[i] + PENDING_LIMIT
  }

  /** Some buffer held at least `blocks` messages when the retirements were `acked`. */
  ghost predicate SomeHolds(queued: seq<seq<Word>>, acked: seq<nat>, blocks: int) {
    |queued| == |acked| && exists i :: 0 <= i < |queued| && |queued[i]| - acked[i] >= blocks
  }

  /** Some buffer was longer than the messages counted for it. */
  ghost predicate SomeLonger(queued: seq<seq<Word>>, acked: seq<nat>, copies: seq<nat>) {
    |queued| == |acked| == |copies| && exists i :: 0 <= i < |queued| && |queued[i]| > acked[i] + copies[i]
  }

  /** Retirement follows transmission, which follows queueing. */
  ghost predicate Ordered(queued: seq<seq<Word>>, sent: seq<nat>, acked: seq<nat>) {
    |queued| == |sent| == |acked| > 0
    && forall i :: 0 <= i < |queued| ==> acked[i] <= sent[i] <= |queued[i]|
  }

  /** Which buffers one message was appended to. */
  ghost predicate Appended(before: seq<seq<Word>>, after: seq<seq<Word>>, results: seq<bool>, word: Word) {
    && |before| == |after| == |results|
    && forall i :: 0 <= i < |before| ==> after[i] == if results[i] then before[i] + [word] else before[i]
  }

  lemma RoomKept(queued: seq<seq<Word>>, before: seq<nat>, after: seq<nat>, budget: nat)
    requires Room(queued, before, budget) && Ahead(before, after)
    ensures Room(queued, after, budget)
  {
  }

  lemma StillHolds(queued: seq<seq<Word>>, before: seq<nat>, after: seq<nat>, blocks: int)
    requires Ahead(before, after) && SomeHolds(queued, after, blocks)
    ensures forall fewer :: fewer <= blocks ==> SomeHolds(queued, before, fewer)
  {
    var i :| 0 <= i < |queued| && |queued[i]| - after[i] >= blocks;
    assert |queued[i]| - before[i] >= blocks;
  }

  lemma RoomUsed(before: seq<seq<Word>>, after: seq<seq<Word>>, results: seq<bool>, word: Word,
                 a0: seq<nat>, a1: seq<nat>, budget: nat)
    requires Room(before, a0, budget + 1) && Ahead(a0, a1) && Appended(before, after, results, word)
    ensures Room(after, a1, budget)
  {
  }

  lemma Longer(before: seq<seq<Word>>, after: seq<seq<Word>>, results: seq<bool>, word: Word,
               sent: seq<nat>, acked: seq<nat>)
    requires Ordered(before, sent, acked) && Appended(before, after, results, word)
    ensures Ordered(after, sent, acked)
  {
  }

  /** A failure blamed on the group is one: a refused send, or a broadcast that missed a member. */
  ghost predicate Answered(failure: Check, broadcast: bool, refused0: bool, missed0: bool, refused: bool, missed: bool) {
    && (refused <==> refused0 || failure == Fails(GroupSend))
    && (failure == Fails(MissingBroadcastCopy) ==> broadcast)
    && (broadcast ==> (missed <==> missed0 || failure == Fails(MissingBroadcastCopy)))
  }

  /** The last `CONTINUATION_LIMIT` messages were all the same continuation. */
  ghost predicate Exhausted(stream: seq<Word>, first: nat) {
    && |stream| >= CONTINUATION_LIMIT
    && forall k :: |stream| - CONTINUATION_LIMIT <= k < |stream| ==> stream[k] == FLAG + first
  }

  /** How many messages the group has taken: the last one even if it missed a member. */
  function TakenAfter(failure: Check, done: nat): nat {
    if failure == Clear || failure == Fails(MissingBroadcastCopy) then done + 1 else done
  }

  /** What must be the case for the sender to give up for its own reasons. */
  ghost predicate Because(failure: Check, late: bool, full: bool, exhausted: bool) {
    match failure
    case Fails(PhaseTimeout) => late
    case Fails(ContinuationTimeout) => late
    case Fails(WindowTimeout) => late && full
    case Fails(ContinuationBudget) => exhausted
    case Fails(InvalidAccounting) => false
    case _ => true
  }

  /** Queue a word on any of the members, and on at least one if the group accepts it. */
  method Spread(queued: seq<seq<Word>>, word: Word, accepted: bool) returns (results: seq<bool>, extended: seq<seq<Word>>)
    requires queued != []
    ensures Appended(queued, extended, results, word)
    ensures accepted ==> exists i :: 0 <= i < |results| && results[i]
  {
    results, extended := [], [];
    var lucky :| 0 <= lucky < |queued|;
    for i := 0 to |queued|
      invariant |results| == |extended| == i
      invariant accepted && lucky < i ==> results[lucky]
      invariant forall j :: 0 <= j < i ==> extended[j] == if results[j] then queued[j] + [word] else queued[j]
    {
      var result: bool := *;
      result := result || (accepted && i == lucky);
      extended := extended + [if result then queued[i] + [word] else queued[i]];
      results := results + [result];
    }
  }

  /**
   The transport below the peer. For each member: every word ever queued, how
   many of them have been transmitted for the first time (in FIFO order) and how
   many have been retired by cumulative acknowledgement. `stream` is the order
   of the group's successful sends; `refused` and `missed` remember a send that
   the group refused or that did not reach every member, `stops` counts the
   controller's requests to stop.
   */
  class Group {
    var queued: seq<seq<Word>>
    var sent: seq<nat>
    var acked: seq<nat>
    var now: nat
    ghost var stream: seq<Word>
    ghost var refused: bool
    ghost var missed: bool
    ghost var stops: nat

    /** No buffer exceeds the pending window, whatever the peer is doing. */
    ghost predicate Valid()
      reads this
    {
      Ordered(queued, sent, acked) && Room(queued, acked, 0)
    }

    /** Any member transmits and retires any further prefix, and time passes. */
    method Progress()
      requires Valid()
      modifies this`sent, this`acked, this`now
      ensures Valid() && now >= old(now)
      ensures Ahead(old(sent), sent) && Ahead(old(acked), acked)
    {
      for i := 0 to |queued|
        invariant Valid() && now == old(now)
        invariant Ahead(old(sent), sent) && Ahead(old(acked), acked)
      {
        var transmitted :| sent[i] <= transmitted <= |queued[i]|;
        var retired :| acked[i] <= retired <= transmitted;
        sent, acked := sent[i := transmitted], acked[i := retired];
      }
      var elapsed: nat :| elapsed >= 0;
      now := now + elapsed;
    }

    method Sleep()
      modifies this`now
      ensures now > old(now)
    {
      var elapsed: nat :| elapsed > 0;
      now := now + elapsed;
    }

    /** srt_getsndbuffer for one member. */
    method QueryBlocks(i: nat) returns (blocks: nat)
      requires Valid() && i < |queued|
      modifies this`sent, this`acked, this`now
      ensures Valid() && now >= old(now)
      ensures Ahead(old(sent), sent) && Ahead(old(acked), acked)
      ensures blocks == |queued[i]| - acked[i]
    {
      Progress();
      blocks := |queued[i]| - acked[i];
    }

    /** The largest member buffer; members are asked one after another. */
    method Pending() returns (maximum: nat)
      requires Valid()
      modifies this`sent, this`acked, this`now
      ensures Valid() && now >= old(now)
      ensures Ahead(old(sent), sent) && Ahead(old(acked), acked)
      ensures maximum < PENDING_LIMIT ==> Room(queued, acked, PENDING_LIMIT - maximum)
      ensures SomeHolds(queued, old(acked), maximum)
    {
      maximum := 0;
      assert |queued[0]| - old(acked)[0] >= 0;
      for i := 0 to |queued|
        invariant Valid() && now >= old(now)
        invariant Ahead(old(sent), sent) && Ahead(old(acked), acked)
        invariant forall j :: 0 <= j < i ==> |queued[j]| <= acked[j] + maximum
        invariant SomeHolds(queued, old(acked), maximum)
      {
        var blocks := QueryBlocks(i);
        assert |queued[i]| - old(acked)[i] >= blocks;
        maximum := if blocks > maximum then blocks else maximum;
      }
    }

    /**
     Poll until the window has room; no budget means the deadline passed with a full
     buffer. Whatever was free in the fullest buffer at the start is granted at least.
     */
    method AwaitBudget(deadline: nat) returns (budget: nat)
      requires Valid()
      modifies this`sent, this`acked, this`now
      ensures Valid() && now >= old(now)
      ensures Ahead(old(sent), sent) && Ahead(old(acked), acked)
      ensures budget <= BURST_LIMIT && Room(queued, acked, budget)
      ensures budget == 0 ==> now >= deadline
      ensures budget < BURST_LIMIT ==> SomeHolds(queued, old(acked), PENDING_LIMIT - budget)
    {
      budget := 0;
      while budget == 0
        invariant Valid() && now >= old(now)
        invariant Ahead(old(sent), sent) && Ahead(old(acked), acked)
        invariant budget <= BURST_LIMIT && Room(queued, acked, budget)
        invariant 0 < budget < BURST_LIMIT ==> SomeHolds(queued, old(acked), PENDING_LIMIT - budget)
        decreases budget == 0, deadline - now
      {
        ghost var before := acked;
        var waiting := Pending();
        StillHolds(queued, old(acked), before, waiting);
        if waiting < PENDING_LIMIT {
          budget := if PENDING_LIMIT - waiting < BURST_LIMIT then PENDING_LIMIT - waiting else BURST_LIMIT;
        } else {
          if now >= deadline {
            return 0;
          }
          Sleep();
        }
      }
    }

    /**
     Is some buffer longer than the continuations queued on it? A negative answer
     is about all members together, although they are asked one after another.
     */
    method PayloadPending(copies: seq<nat>) returns (waiting: bool)
      requires Valid() && |copies| == |queued|
      modifies this`sent, this`acked, this`now
      ensures Valid() && now >= old(now)
      ensures Ahead(old(sent), sent) && Ahead(old(acked), acked)
      ensures !waiting ==> forall i :: 0 <= i < |queued| ==> |queued[i]| <= acked[i] + copies[i]
      ensures waiting ==> SomeLonger(queued, old(acked), copies)
    {
      waiting := false;
      for i := 0 to |copies|
        invariant Valid() && now >= old(now)
        invariant Ahead(old(sent), sent) && Ahead(old(acked), acked)
        invariant !waiting ==> forall j :: 0 <= j < i ==> |queued[j]| <= acked[j] + copies[j]
        invariant waiting ==> SomeLonger(queued, old(acked), copies)
      {
        var blocks := QueryBlocks(i);
        assert blocks > copies[i] ==> |queued[i]| > old(acked)[i] + copies[i];
        waiting := waiting || blocks > copies[i];
      }
    }

    /** pktSentUniqueTotal of every member; members are asked one after another. */
    method UniqueSent() returns (totals: seq<nat>)
      requires Valid()
      modifies this`sent, this`acked, this`now
      ensures Valid() && now >= old(now)
      ensures Ahead(old(sent), sent) && Ahead(old(acked), acked)
      ensures Ahead(old(sent), totals) && Ahead(totals, sent)
    {
      totals := [];
      for i := 0 to |queued|
        invariant Valid() && now >= old(now) && |totals| == i
        invariant Ahead(old(sent), sent) && Ahead(old(acked), acked)
        invariant forall j :: 0 <= j < i ==> old(sent)[j] <= totals[j] <= sent[j]
      {
        Progress();
        totals := totals + [sent[i]];
      }
    }

    /**
     srt_sendmsg2 on the group: an accepted message is queued on at least one
     member, and `results` says truthfully on which.
     */
    method SendMessage(word: Word) returns (accepted: bool, results: seq<bool>)
      requires Valid() && Room(queued, acked, 1)
      modifies this
      ensures Valid() && now >= old(now)
      ensures Ahead(old(sent), sent) && Ahead(old(acked), acked)
      ensures Appended(old(queued), queued, results, word)
      ensures accepted ==> exists i :: 0 <= i < |results| && results[i]
      ensures stream == if accepted then old(stream) + [word] else old(stream)
      ensures refused == (old(refused) || !accepted) && stops == old(stops)
      ensures missed == (old(missed) || (accepted && exists i :: 0 <= i < |results| && !results[i]))
    {
      Progress();
      RoomKept(queued, old(acked), acked, 1);
      accepted := *;
      var extended;
      results, extended := Spread(queued, word, accepted);
      RoomUsed(queued, extended, results, word, acked, acked, 0);
      Longer(queued, extended, results, word, sent, acked);
      queued := extended;
      if accepted {
        stream := stream + [word];
        missed := missed || exists i :: 0 <= i < |results| && !results[i];
      } else {
        refused := true;
      }
    }

    /** The controller may ask to stop at any poll. */
    method StopRequested() returns (requested: bool)
      modifies this`stops
      ensures stops == old(stops) + if requested then 1 else 0
    {
      requested := *;
      if requested {
        stops := stops + 1;
      }
    }

    /** The peer's `send`: one group send and one copy counted per member that queued it. */
    method Send(word: Word, broadcast: bool, copies: seq<nat>)
      returns (failure: Check, counted: seq<nat>, ghost results: seq<bool>)
      requires Valid() && |copies| == |queued| && Room(queued, acked, 1)
      modifies this
      ensures Valid() && now >= old(now)
      ensures Ahead(old(sent), sent) && Ahead(old(acked), acked)
      ensures Appended(old(queued), queued, results, word)
      ensures failure in {Clear, Fails(GroupSend), Fails(MissingBroadcastCopy)} && stops == old(stops)
      ensures Answered(failure, broadcast, old(refused), old(missed), refused, missed)
      ensures stream == if failure == Fails(GroupSend) then old(stream) else old(stream) + [word]
      ensures failure == Clear ==>
        && |counted| == |results|
        && counted == Tally(copies, results)
        && (exists i :: 0 <= i < |results| && results[i])
        && (broadcast ==> forall i :: 0 <= i < |results| ==> results[i])
    {
      var accepted, outcomes := SendMessage(word);
      results := outcomes;
      counted := copies;
      if !accepted {
        return Fails(GroupSend), counted, results;
      }
      failure, counted := CountCopies(broadcast, copies, outcomes);
    }
  }

  /** Count the copies of one message; a broadcast must have reached every member. */
  method CountCopies(broadcast: bool, copies: seq<nat>, results: seq<bool>)
    returns (failure: Check, counted: seq<nat>)
    requires |copies| == |results|
    ensures failure == Clear || failure == Fails(MissingBroadcastCopy)
    ensures failure == Clear <==> (broadcast ==> forall i :: 0 <= i < |results| ==> results[i])
    ensures failure == Clear ==> counted == Tally(copies, results)
  {
    counted := copies;
    for i := 0 to |results|
      invariant |counted| == |copies|
      invariant broadcast ==> forall j :: 0 <= j < i ==> results[j]
      invariant forall j :: 0 <= j < i ==> counted[j] == copies[j] + (if results[j] then 1 else 0)
      invariant forall j :: i <= j < |copies| ==> counted[j] == copies[j]
    {
      if broadcast && !results[i] {
        return Fails(MissingBroadcastCopy), counted;
      }
      if results[i] {
        counted := counted[i := counted[i] + 1];
      }
    }
    failure := Clear;
  }

  lemma LogPayload(before: seq<Word>, after: seq<Word>, payload: nat, first: nat, count: nat, queued: bool)
    requires MemberLog(before, after, payload, 0, first, count)
    ensures queued ==> MemberLog(before, after + [first + count], payload + 1, 0, first, count + 1)
    ensures !queued ==> MemberLog(before, after, payload, 0, first, count + 1)
  {
  }

  /** What the payload loop has done after sending indices first .. first + done. */
  ghost predicate PayloadSent(q0: seq<seq<Word>>, queued: seq<seq<Word>>, copies: seq<nat>,
                              first: nat, done: nat, broadcast: bool)
  {
    && |queued| == |q0| == |copies|
    && Sum(copies) >= done
    && forall i :: 0 <= i < |q0| ==> MemberPayload(q0[i], queued[i], copies[i], first, done, broadcast)
  }

  ghost predicate MemberPayload(before: seq<Word>, after: seq<Word>, copies: nat, first: nat, done: nat,
                                broadcast: bool)
  {
    MemberLog(before, after, copies, 0, first, done) && copies <= done && (broadcast ==> copies == done)
  }

  /** What the phase has done after `sent` continuations as well. */
  ghost predicate ContinuationSent(q0: seq<seq<Word>>, queued: seq<seq<Word>>, payload: seq<nat>,
                                   copies: seq<nat>, first: nat, count: nat, sent: nat)
  {
    && |queued| == |q0| == |payload| == |copies|
    && forall i :: 0 <= i < |q0| ==>
      && MemberLog(q0[i], queued[i], payload[i], copies[i], first, count)
      && copies[i] <= sent
  }

  lemma PayloadStep(q0: seq<seq<Word>>, before: seq<seq<Word>>, after: seq<seq<Word>>, copies: seq<nat>,
                    results: seq<bool>, first: nat, done: nat, broadcast: bool)
    requires PayloadSent(q0, before, copies, first, done, broadcast)
    requires Appended(before, after, results, first + done)
    requires broadcast ==> forall i :: 0 <= i < |results| ==> results[i]
    requires exists i :: 0 <= i < |results| && results[i]
    ensures PayloadSent(q0, after, Tally(copies, results), first, done + 1, broadcast)
  {
    TallyAddsUp(copies, results);
    forall i | 0 <= i < |q0|
      ensures MemberPayload(q0[i], after[i], Tally(copies, results)[i], first, done + 1, broadcast)
    {
      assert MemberPayload(q0[i], before[i], copies[i], first, done, broadcast);
      LogPayload(q0[i], before[i], copies[i], first, done, results[i]);
    }
  }

  lemma ContinuationStep(q0: seq<seq<Word>>, before: seq<seq<Word>>, after: seq<seq<Word>>, payload: seq<nat>,
                         copies: seq<nat>, results: seq<bool>, first: nat, count: nat, sent: nat)
    requires ContinuationSent(q0, before, payload, copies, first, count, sent)
    requires Appended(before, after, results, FLAG + first)
    ensures ContinuationSent(q0, after, payload, Tally(copies, results), first, count, sent + 1)
  {
  }

  lemma RangeNext(s: seq<Word>, first: nat, done: nat)
    ensures s + Range(first, done) + [first + done] == s + Range(first, done + 1)
    ensures Range(first, done) + [first + done] == Range(first, done + 1)
  {
  }

  lemma RepeatNext(s: seq<Word>, word: Word, done: nat)
    ensures s + Repeat(word, done) + [word] == s + Repeat(word, done + 1)
  {
  }

  lemma NothingSent(q0: seq<seq<Word>>, first: nat, broadcast: bool)
    ensures PayloadSent(q0, q0, seq(|q0|, _ => 0), first, 0, broadcast)
  {
  }

  /** One payload message, sent inside the window. */
  method SendOne(g: Group, broadcast: bool, first: nat, done: nat, copies: seq<nat>,
                 ghost q0: seq<seq<Word>>, ghost budget: nat)
    returns (failure: Check, counted: seq<nat>)
    requires g.Valid() && Room(g.queued, g.acked, budget + 1)
    requires PayloadSent(q0, g.queued, copies, first, done, broadcast)
    modifies g
    ensures g.Valid() && Room(g.queued, g.acked, 0)
    ensures Ahead(old(g.sent), g.sent) && Ahead(old(g.acked), g.acked) && g.now >= old(g.now)
    ensures failure in {Clear, Fails(GroupSend), Fails(MissingBroadcastCopy)} && g.stops == old(g.stops)
    ensures Answered(failure, broadcast, old(g.refused), old(g.missed), g.refused, g.missed)
    ensures g.stream == if failure == Fails(GroupSend) then old(g.stream) else old(g.stream) + [first + done]
    ensures failure == Clear ==>
      && Room(g.queued, g.acked, budget)
      && PayloadSent(q0, g.queued, counted, first, done + 1, broadcast)
  {
    assert Room(g.queued, g.acked, 1);
    ghost var results;
    failure, counted, results := g.Send(first + done, broadcast, copies);
    if failure == Clear {
      PayloadStep(q0, old(g.queued), g.queued, copies, results, first, done, broadcast);
      RoomUsed(old(g.queued), g.queued, results, first + done, old(g.acked), g.acked, budget);
    }
  }

  /** One turn of the payload loop: wait for a window if the budget is spent, then send. */
  method SendNext(g: Group, broadcast: bool, first: nat, done: nat, copies: seq<nat>, available: nat, deadline: nat,
                  ghost q0: seq<seq<Word>>, ghost a0: seq<nat>, ghost s0: seq<Word>)
    returns (failure: Check, counted: seq<nat>, budget: nat)
    requires g.Valid() && Room(g.queued, g.acked, available) && Ahead(a0, g.acked)
    requires g.stream == s0 + Range(first, done)
    requires PayloadSent(q0, g.queued, copies, first, done, broadcast)
    modifies g
    ensures g.Valid()
    ensures Ahead(old(g.sent), g.sent) && Ahead(a0, g.acked) && g.now >= old(g.now)
    ensures Answered(failure, broadcast, old(g.refused), old(g.missed), g.refused, g.missed) && g.stops == old(g.stops)
    ensures failure == Fails(PhaseTimeout) <==> old(g.now) >= deadline
    ensures Because(failure, g.now >= deadline, SomeHolds(g.queued, a0, PENDING_LIMIT), false)
    ensures failure != Fails(ContinuationTimeout)
    ensures g.stream == s0 + Range(first, TakenAfter(failure, done))
    ensures failure == Clear ==>
      && Room(g.queued, g.acked, budget)
      && PayloadSent(q0, g.queued, counted, first, done + 1, broadcast)
  {
    budget, counted := available, copies;
    RangeNext(s0, first, done);
    if g.now >= deadline {
      return Fails(PhaseTimeout), counted, budget;
    }
    if budget == 0 {
      budget := g.AwaitBudget(deadline);
      if budget == 0 {
        StillHolds(g.queued, a0, old(g.acked), PENDING_LIMIT);
        return Fails(WindowTimeout), counted, budget;
      }
    }
    budget := budget - 1;
    failure, counted := SendOne(g, broadcast, first, done, copies, q0, budget);
  }

  /** The bounded payload window of a sender's phase. */
  method SendPayload(g: Group, broadcast: bool, first: nat, count: nat, deadline: nat)
    returns (failure: Check, digest: seq<Word>, copies: seq<nat>, ghost taken: nat)
    requires g.Valid()
    modifies g
    ensures g.Valid()
    ensures Ahead(old(g.sent), g.sent) && Ahead(old(g.acked), g.acked) && g.now >= old(g.now)
    ensures Answered(failure, broadcast, old(g.refused), old(g.missed), g.refused, g.missed) && g.stops == old(g.stops)
    ensures Because(failure, g.now >= deadline, SomeHolds(g.queued, old(g.acked), PENDING_LIMIT), false)
    ensures failure != Fails(ContinuationTimeout)
    ensures taken <= count && g.stream == old(g.stream) + Range(first, taken)
    ensures failure == Clear ==>
      && taken == count && PayloadSent(old(g.queued), g.queued, copies, first, count, broadcast)
      && digest == Range(first, count)
  {
    copies, digest := seq(|g.queued|, _ => 0), [];
    NothingSent(g.queued, first, broadcast);
    var budget: nat := 0;
    var index := first;
    taken := 0;
    while index < first + count
      invariant g.Valid() && first <= index <= first + count
      invariant Ahead(old(g.sent), g.sent) && Ahead(old(g.acked), g.acked) && g.now >= old(g.now)
      invariant PayloadSent(old(g.queued), g.queued, copies, first, index - first, broadcast)
      invariant taken == index - first && g.stream == old(g.stream) + Range(first, taken)
      invariant digest == Range(first, taken)
      invariant Room(g.queued, g.acked, budget)
      invariant Answered(Clear, broadcast, old(g.refused), old(g.missed), g.refused, g.missed) && g.stops == old(g.stops)
    {
      failure, copies, budget :=
        SendNext(g, broadcast, first, index - first, copies, budget, deadline, old(g.queued), old(g.acked), old(g.stream));
      taken := TakenAfter(failure, index - first);
      if failure != Clear {
        return;
      }
      RangeNext([], first, index - first);
      digest := digest + [index];
      index := index + 1;
    }
    failure := Clear;
  }

  /** One continuation message, sent inside the window. */
  method SendContinuation(g: Group, broadcast: bool, first: nat, copies: seq<nat>,
                          ghost q0: seq<seq<Word>>, ghost payload: seq<nat>, ghost count: nat, ghost messages: nat)
    returns (failure: Check, counted: seq<nat>)
    requires g.Valid() && Room(g.queued, g.acked, 1)
    requires ContinuationSent(q0, g.queued, payload, copies, first, count, messages)
    modifies g
    ensures g.Valid()
    ensures Ahead(old(g.sent), g.sent) && Ahead(old(g.acked), g.acked) && g.now >= old(g.now)
    ensures failure in {Clear, Fails(GroupSend), Fails(MissingBroadcastCopy)} && g.stops == old(g.stops)
    ensures Answered(failure, broadcast, old(g.refused), old(g.missed), g.refused, g.missed)
    ensures failure == Clear ==>
      && ContinuationSent(q0, g.queued, payload, counted, first, count, messages + 1)
      && g.stream == old(g.stream) + [FLAG + first]
  {
    ghost var results;
    failure, counted, results := g.Send(FLAG + first, broadcast, copies);
    if failure == Clear {
      ContinuationStep(q0, old(g.queued), g.queued, payload, copies, results, first, count, messages);
    }
  }

  /**
   One turn of the continuation loop. It is the last one exactly if a stop has been
   requested and no buffer is longer than the continuations queued on it; otherwise
   one more continuation is sent if every buffer has room.
   */
  method ContinueNext(g: Group, broadcast: bool, first: nat, stop: bool, messages: nat, copies: seq<nat>, deadline: nat,
                      ghost count: nat, ghost q0: seq<seq<Word>>, ghost payload: seq<nat>)
    returns (failure: Check, finished: bool, stopped: bool, total: nat, counted: seq<nat>)
    requires g.Valid() && messages <= CONTINUATION_LIMIT
    requires ContinuationSent(q0, g.queued, payload, copies, first, count, messages)
    modifies g
    ensures g.Valid()
    ensures Ahead(old(g.sent), g.sent) && Ahead(old(g.acked), g.acked) && g.now >= old(g.now)
    ensures Answered(failure, broadcast, old(g.refused), old(g.missed), g.refused, g.missed)
    ensures failure == Fails(ContinuationTimeout) <==> old(g.now) >= deadline
    ensures Because(failure, g.now >= deadline, false, messages == CONTINUATION_LIMIT)
    ensures failure != Fails(PhaseTimeout)
    ensures failure == Fails(ContinuationBudget) ==> g.stream == old(g.stream)
    ensures old(g.now) < deadline ==> (stopped <==> stop || g.stops > old(g.stops))
    ensures finished ==> failure == Clear && stopped
    ensures finished ==> forall i :: 0 <= i < |q0| ==> |g.queued[i]| <= g.acked[i] + copies[i]
    ensures !finished && stopped ==> old(g.now) >= deadline || SomeLonger(old(g.queued), old(g.acked), copies)
    ensures failure == Clear ==>
      && total <= CONTINUATION_LIMIT && g.stops >= old(g.stops) && (!finished ==> g.now > old(g.now))
      && ContinuationSent(q0, g.queued, payload, counted, first, count, total)
      && (finished ==> counted == copies)
      && (total == messages || total == messages + 1)
      && (total == messages ==> g.stream == old(g.stream))
      && (total == messages + 1 ==> g.stream == old(g.stream) + [FLAG + first])
      && (!finished && total == messages ==> SomeHolds(old(g.queued), old(g.acked), PENDING_LIMIT))
  {
    failure, finished, stopped, total, counted := Clear, false, stop, messages, copies;
    if g.now >= deadline {
      return Fails(ContinuationTimeout), finished, stopped, total, counted;
    }
    var requested := g.StopRequested();
    stopped := stop || requested;
    var payloadPending := g.PayloadPending(copies);
    if stopped && !payloadPending {
      finished := true;
      return;
    }
    ghost var acked := g.acked;
    var waiting := g.Pending();
    if waiting < PENDING_LIMIT {
      if messages >= CONTINUATION_LIMIT {
        return Fails(ContinuationBudget), finished, stopped, total, counted;
      }
      failure, counted := SendContinuation(g, broadcast, first, copies, q0, payload, count, messages);
      if failure != Clear {
        return;
      }
      total := messages + 1;
    } else {
      StillHolds(g.queued, old(g.acked), acked, waiting);
    }
    g.Sleep();
  }

  /**
   The continuation loop: keep the members fed until the controller asks to stop
   and no member buffer is longer than the continuations queued on it.
   */
  method SendContinuations(g: Group, broadcast: bool, first: nat, deadline: nat,
                           ghost count: nat, ghost q0: seq<seq<Word>>, ghost payload: seq<nat>)
    returns (failure: Check, messages: nat, copies: seq<nat>)
    requires g.Valid() && PayloadSent(q0, g.queued, payload, first, count, broadcast)
    modifies g
    ensures g.Valid()
    ensures Ahead(old(g.sent), g.sent) && Ahead(old(g.acked), g.acked) && g.now >= old(g.now)
    ensures Answered(failure, broadcast, old(g.refused), old(g.missed), g.refused, g.missed)
    ensures Because(failure, g.now >= deadline, false,
      g.stream == old(g.stream) + Repeat(FLAG + first, CONTINUATION_LIMIT))
    ensures failure == Clear ==>
      && messages <= CONTINUATION_LIMIT && g.stops > old(g.stops)
      && g.stream == old(g.stream) + Repeat(FLAG + first, messages)
      && ContinuationSent(q0, g.queued, payload, copies, first, count, messages)
      && (forall i :: 0 <= i < |q0| ==> |g.queued[i]| <= g.acked[i] + copies[i])
  {
    copies, messages, failure := seq(|g.queued|, _ => 0), 0, Clear;
    var stop, finished := false, false;
    while !finished
      invariant g.Valid() && messages <= CONTINUATION_LIMIT && failure == Clear
      invariant Ahead(old(g.sent), g.sent) && Ahead(old(g.acked), g.acked) && g.now >= old(g.now)
      invariant Answered(Clear, broadcast, old(g.refused), old(g.missed), g.refused, g.missed)
      invariant g.stops >= old(g.stops) && (stop ==> g.stops > old(g.stops))
      invariant g.stream == old(g.stream) + Repeat(FLAG + first, messages)
      invariant ContinuationSent(q0, g.queued, payload, copies, first, count, messages)
      invariant finished ==> stop && forall i :: 0 <= i < |q0| ==> |g.queued[i]| <= g.acked[i] + copies[i]
      decreases !finished, deadline - g.now
    {
      RepeatNext(old(g.stream), FLAG + first, messages);
      failure, finished, stop, messages, copies :=
        ContinueNext(g, broadcast, first, stop, messages, copies, deadline, count, q0, payload);
      if failure != Clear {
        return;
      }
    }
  }

  /** A finished phase: payload copies, then continuations, and only continuations still buffered. */
  ghost predicate PhaseDone(q0: seq<seq<Word>>, queued: seq<seq<Word>>, acked: seq<nat>, r: PhaseResult,
                            first: nat, count: nat, broadcast: bool)
  {
    && r.digest == Range(first, count)
    && r.continuationMessages <= CONTINUATION_LIMIT
    && Sum(r.payloadCopies) >= count
    && ContinuationSent(q0, queued, r.payloadCopies, r.continuationCopies, first, count, r.continuationMessages)
    && |acked| == |q0|
    && forall i :: 0 <= i < |q0| ==>
      && r.payloadCopies[i] <= count
      && (broadcast ==> r.payloadCopies[i] == count)
      && acked[i] >= |q0[i]| + r.payloadCopies[i]
      && (forall k :: acked[i] <= k < |queued[i]| ==> queued[i][k] == FLAG + first)
  }

  function Ending(o: PhaseOutcome): Check {
    if o.Finished? then Clear else Fails(o.failure)
  }

  /**
   One sender phase. On success every payload of the phase, and everything queued
   before it, has left every member buffer: what is still buffered is only this
   phase's continuation message.
   */
  method Phase(g: Group, broadcast: bool, first: nat, count: nat) returns (o: PhaseOutcome)
    requires g.Valid()
    modifies g
    ensures g.Valid()
    ensures Ahead(old(g.sent), g.sent) && Ahead(old(g.acked), g.acked) && g.now >= old(g.now)
    ensures Answered(Ending(o), broadcast, old(g.refused), old(g.missed), g.refused, g.missed)
    ensures Because(Ending(o), g.now >= old(g.now) + TIMEOUT, SomeHolds(g.queued, old(g.acked), PENDING_LIMIT),
      Exhausted(g.stream, first))
    ensures o.Finished? ==>
      && g.stops > old(g.stops)
      && PhaseDone(old(g.queued), g.queued, g.acked, o.result, first, count, broadcast)
      && g.stream == old(g.stream) + Range(first, count) + Repeat(FLAG + first, o.result.continuationMessages)
  {
    var deadline := g.now + TIMEOUT;
    var failure, digest, payload, _ := SendPayload(g, broadcast, first, count, deadline);
    if failure != Clear {
      return Aborted(failure.failure);
    }
    assert forall i :: 0 <= i < |payload| ==> payload[i] <= count && (broadcast ==> payload[i] == count);
    var messages, copies;
    failure, messages, copies := SendContinuations(g, broadcast, first, deadline, count, old(g.queued), payload);
    if failure != Clear {
      return Aborted(failure.failure);
    }
    return Finished(PhaseResult(digest, messages, payload, copies));
  }

  // ---------------------------------------------------------------- controller

  datatype MemberStats = MemberStats(payload: nat, continuation: nat, previous: nat, uniqueSent: int)

  /** The controller's accounting rule, stated for all members at once. */
  ghost predicate Accounted(stats: seq<MemberStats>, messages: nat, continuationMessages: nat, broadcast: bool) {
    && (forall i :: 0 <= i < |stats| ==>
      && stats[i].payload <= messages
      && stats[i].continuation <= continuationMessages
      && stats[i].previous <= CONTINUATION_LIMIT
      && stats[i].payload <= stats[i].uniqueSent <= stats[i].payload + stats[i].continuation + stats[i].previous
      && (broadcast ==> stats[i].payload == messages))
    && Sum(seq(|stats|, i requires 0 <= i < |stats| => stats[i].payload)) >= messages
  }

  /** validate_result's copy accounting, member by member. */
  method ValidateAccounting(stats: seq<MemberStats>, messages: nat, continuationMessages: nat, broadcast: bool)
    returns (ok: bool)
    ensures ok <==> Accounted(stats, messages, continuationMessages, broadcast)
  {
    var copies: seq<nat> := [];
    var total := 0;
    var complete := true;
    for i := 0 to |stats|
      invariant copies == seq(i, k requires 0 <= k < i => stats[k].payload)
      invariant total == Sum(copies)
      invariant complete <==> forall k :: 0 <= k < i ==> stats[k].payload == messages
      invariant forall k :: 0 <= k < i ==>
        && stats[k].payload <= messages
        && stats[k].continuation <= continuationMessages
        && stats[k].previous <= CONTINUATION_LIMIT
        && stats[k].payload <= stats[k].uniqueSent <= stats[k].payload + stats[k].continuation + stats[k].previous
    {
      var s := stats[i];
      if s.payload > messages || s.continuation > continuationMessages || s.previous > CONTINUATION_LIMIT
         || !(s.payload <= s.uniqueSent <= s.payload + s.continuation + s.previous) {
        return false;
      }
      assert (copies + [s.payload])[..i] == copies;
      copies := copies + [s.payload];
      total := total + s.payload;
      complete := complete && s.payload == messages;
    }
    assert copies == seq(|stats|, i requires 0 <= i < |stats| => stats[i].payload);
    ok := total >= messages && (!broadcast || complete);
  }

  /** The sender's per-member report: copies of both phases and the unique-sent difference. */
  function Report(warmup: PhaseResult, measured: PhaseResult, before: seq<nat>, after: seq<nat>): (r: seq<MemberStats>)
    requires |before| == |after| == |warmup.continuationCopies|
          == |measured.payloadCopies| == |measured.continuationCopies|
    ensures |r| == |before|
    ensures forall i :: 0 <= i < |r| ==> r[i] == MemberStats(
      measured.payloadCopies[i], measured.continuationCopies[i], warmup.continuationCopies[i], after[i] as int - before[i])
  {
    seq(|before|, i requires 0 <= i < |before| => MemberStats(
      measured.payloadCopies[i], measured.continuationCopies[i], warmup.continuationCopies[i], after[i] as int - before[i]))
  }

  /** Transmission counters taken after the retirements `acked`. */
  ghost predicate Covers(counters: seq<nat>, acked: seq<nat>, queued: seq<seq<Word>>) {
    |counters| == |acked| == |queued| && forall i :: 0 <= i < |acked| ==> acked[i] <= counters[i] <= |queued[i]|
  }

  lemma CountersCover(counters: seq<nat>, a0: seq<nat>, s0: seq<nat>, s1: seq<nat>, a1: seq<nat>, queued: seq<seq<Word>>)
    requires Ordered(queued, s0, a0) && Ahead(s0, counters) && Ahead(counters, s1) && Ordered(queued, s1, a1)
    ensures Covers(counters, a0, queued)
  {
  }

  /**
   The counter inequalities follow from two completed phases: when the baseline
   is taken every warm-up payload has been transmitted, and when the final
   counters are taken every measured payload has been.
   */
  lemma DeltasAccounted(q0: seq<seq<Word>>, q1: seq<seq<Word>>, q2: seq<seq<Word>>, a1: seq<nat>, a2: seq<nat>,
                        warmup: PhaseResult, measured: PhaseResult, before: seq<nat>, after: seq<nat>,
                        messages: nat, broadcast: bool)
    requires PhaseDone(q0, q1, a1, warmup, 0, WARMUP_MESSAGES, broadcast)
    requires PhaseDone(q1, q2, a2, measured, WARMUP_MESSAGES, messages, broadcast)
    requires Covers(before, a1, q1) && Covers(after, a2, q2)
    ensures Accounted(Report(warmup, measured, before, after), messages, measured.continuationMessages, broadcast)
  {
    var stats := Report(warmup, measured, before, after);
    assert seq(|stats|, i requires 0 <= i < |stats| => stats[i].payload) == measured.payloadCopies;
    forall i | 0 <= i < |q0|
      ensures |q1[i]| == |q0[i]| + warmup.payloadCopies[i] + warmup.continuationCopies[i]
      ensures |q2[i]| == |q1[i]| + measured.payloadCopies[i] + measured.continuationCopies[i]
    {
      assert MemberLog(q0[i], q1[i], warmup.payloadCopies[i], warmup.continuationCopies[i], 0, WARMUP_MESSAGES);
      assert MemberLog(q1[i], q2[i], measured.payloadCopies[i], measured.continuationCopies[i], WARMUP_MESSAGES, messages);
    }
  }

  datatype RunResult = RunResult(
    warmup: PhaseResult,
    measured: PhaseResult,
    before: seq<nat>,
    after: seq<nat>)

  datatype RunOutcome = Accepted(run: RunResult) | Rejected(failure: Failure)

  /** The group's send order over both phases. */
  function SenderStream(warmContinuations: nat, messages: nat, continuations: nat): seq<Word> {
    Range(0, WARMUP_MESSAGES) + Repeat(FLAG, warmContinuations)
      + Range(WARMUP_MESSAGES, messages) + Repeat(FLAG + WARMUP_MESSAGES, continuations)
  }

  lemma StreamOfBoth(s0: seq<Word>, s1: seq<Word>, s2: seq<Word>, warm: nat, messages: nat, continuations: nat)
    requires s1 == s0 + Range(0, WARMUP_MESSAGES) + Repeat(FLAG, warm)
    requires s2 == s1 + Range(WARMUP_MESSAGES, messages) + Repeat(FLAG + WARMUP_MESSAGES, continuations)
    ensures s2 == s0 + SenderStream(warm, messages, continuations)
  {
  }

  /** A phase and the transmission counters taken right after it. */
  method CountedPhase(g: Group, broadcast: bool, first: nat, count: nat)
    returns (o: PhaseOutcome, counters: seq<nat>, ghost acked: seq<nat>)
    requires g.Valid()
    modifies g
    ensures g.Valid()
    ensures Ahead(old(g.sent), g.sent) && Ahead(old(g.acked), g.acked) && g.now >= old(g.now)
    ensures Answered(Ending(o), broadcast, old(g.refused), old(g.missed), g.refused, g.missed)
    ensures Because(Ending(o), g.now >= old(g.now) + TIMEOUT, SomeHolds(g.queued, old(g.acked), PENDING_LIMIT),
      Exhausted(g.stream, first))
    ensures o.Finished? ==>
      && g.stops > old(g.stops)
      && PhaseDone(old(g.queued), g.queued, acked, o.result, first, count, broadcast)
      && Covers(counters, acked, g.queued)
      && g.stream == old(g.stream) + Range(first, count) + Repeat(FLAG + first, o.result.continuationMessages)
  {
    o := Phase(g, broadcast, first, count);
    acked, counters := g.acked, [];
    if o.Finished? {
      ghost var sent := g.sent;
      counters := g.UniqueSent();
      CountersCover(counters, acked, sent, g.sent, g.acked, g.queued);
    }
  }

  /**
   A whole sender run followed by the controller's accounting check. A run that
   completes both phases is accepted: InvalidAccounting is never the outcome.
   The stream is the warm-up, its continuations, the payload, its continuations.
   */
  method Run(g: Group, broadcast: bool, messages: nat) returns (o: RunOutcome)
    requires g.Valid() && 1 <= messages <= MAXIMUM_MESSAGES
    modifies g
    ensures g.Valid()
    ensures o.Rejected? ==>
      && Because(Fails(o.failure), g.now >= old(g.now) + TIMEOUT, SomeHolds(g.queued, old(g.acked), PENDING_LIMIT),
           Exhausted(g.stream, 0) || Exhausted(g.stream, WARMUP_MESSAGES))
      && Answered(Fails(o.failure), broadcast, old(g.refused), old(g.missed), g.refused, g.missed)
    ensures o.Accepted? ==>
      var r := o.run;
      && Answered(Clear, broadcast, old(g.refused), old(g.missed), g.refused, g.missed)
      && g.stops >= old(g.stops) + 2
      && |r.before| == |r.after| == |g.queued|
      && |r.warmup.continuationCopies| == |r.measured.payloadCopies| == |r.measured.continuationCopies| == |g.queued|
      && Accounted(Report(r.warmup, r.measured, r.before, r.after), messages,
                   r.measured.continuationMessages, broadcast)
      && r.warmup.continuationMessages <= CONTINUATION_LIMIT
      && r.measured.continuationMessages <= CONTINUATION_LIMIT
      && r.measured.digest == Range(WARMUP_MESSAGES, messages)
      && g.stream == old(g.stream)
           + SenderStream(r.warmup.continuationMessages, messages, r.measured.continuationMessages)
  {
    var warm, before, a1 := CountedPhase(g, broadcast, 0, WARMUP_MESSAGES);
    if warm.Aborted? {
      return Rejected(warm.failure);
    }
    ghost var q1, s1, acked := g.queued, g.stream, g.acked;
    var phase, after, a2 := CountedPhase(g, broadcast, WARMUP_MESSAGES, messages);
    if phase.Aborted? {
      if phase.failure == WindowTimeout {
        StillHolds(g.queued, old(g.acked), acked, PENDING_LIMIT);
      }
      return Rejected(phase.failure);
    }
    var previous, current := warm.result, phase.result;
    DeltasAccounted(old(g.queued), q1, g.queued, a1, a2, previous, current, before, after, messages, broadcast);
    StreamOfBoth(old(g.stream), s1, g.stream, previous.continuationMessages, messages, current.continuationMessages);
    var ok := ValidateAccounting(Report(previous, current, before, after), messages,
                                 current.continuationMessages, broadcast);
    if !ok {
      return Rejected(InvalidAccounting);
    }
    return Accepted(RunResult(previous, current, before, after));
  }

  // ------------------------------------------------------------------ receiver

  ghost function Payloads(s: seq<Word>): seq<Word> {
    if s == [] then []
    else if s[|s| - 1] >= FLAG then Payloads(s[..|s| - 1])
    else Payloads(s[..|s| - 1]) + [s[|s| - 1]]
  }

  ghost function Continuations(s: seq<Word>): nat {
    if s == [] then 0
    else Continuations(s[..|s| - 1]) + (if s[|s| - 1] >= FLAG then 1 else 0)
  }

  /** What can be wrong with a message apart from its index, or with the time it takes. */
  datatype Fault = NoFault | DeadlinePassed | WrongSize | BadTimestamp | Corrupted

  /** How a receiving phase ends; `at` is the stream position it had reached. */
  datatype Receipt =
    | Received(at: nat, continuationMessages: nat, digest: seq<Word>)
    | BudgetExceeded(at: nat)
    | SequenceMismatch(at: nat)
    | Starved(at: nat)
    | Faulted(at: nat, fault: Fault)

  /** The message at `at` was taken and the phase went on. */
  ghost predicate Passed(stream: seq<Word>, faults: nat -> Fault, start: nat, first: nat, count: nat, at: nat)
    requires start <= at < |stream|
  {
    var before := stream[start..at];
    && |Payloads(before)| < count && faults(at) == NoFault
    && (stream[at] < FLAG ==> stream[at] == first + |Payloads(before)|)
    && (stream[at] >= FLAG ==> Continuations(before) < 2 * CONTINUATION_LIMIT)
  }

  /** What each way of ending says about the words consumed before it and the message it is about. */
  ghost predicate Truthful(stream: seq<Word>, faults: nat -> Fault, start: nat, first: nat, count: nat, r: Receipt) {
    && start <= r.at <= |stream|
    && (forall p :: start <= p < r.at ==> Passed(stream, faults, start, first, count, p))
    && var consumed := stream[start..r.at];
    var done := |Payloads(consumed)|;
    && Payloads(consumed) == Range(first, done)
    && match r
       case Received(at, continuationMessages, digest) =>
         && digest == Payloads(consumed) && done == count
         && continuationMessages == Continuations(consumed) <= 2 * CONTINUATION_LIMIT
       case BudgetExceeded(at) =>
         && done < count && at < |stream| && faults(at) == NoFault
         && stream[at] >= FLAG && Continuations(consumed) == 2 * CONTINUATION_LIMIT
       case SequenceMismatch(at) =>
         && done < count && at < |stream| && faults(at) != DeadlinePassed && faults(at) != WrongSize
         && first + done != stream[at] < FLAG
       case Starved(at) =>
         done < count && at == |stream| && faults(at) != DeadlinePassed
       case Faulted(at, fault) =>
         && done < count && fault == faults(at) != NoFault
         && (fault != DeadlinePassed ==> at < |stream|)
         && (fault == BadTimestamp || fault == Corrupted ==> stream[at] >= FLAG || stream[at] == first + done)
  }

  /** Stream and faults determine how a receiving phase ends. */
  lemma ReceiptUnique(stream: seq<Word>, faults: nat -> Fault, start: nat, first: nat, count: nat, a: Receipt, b: Receipt)
    requires Truthful(stream, faults, start, first, count, a) && Truthful(stream, faults, start, first, count, b)
    ensures a == b
  {
    assert a.at < b.at ==> Passed(stream, faults, start, first, count, a.at);
    assert b.at < a.at ==> Passed(stream, faults, start, first, count, b.at);
  }

  lemma ConsumeNext(stream: seq<Word>, start: nat, position: nat)
    requires start <= position < |stream|
    ensures Payloads(stream[start..position + 1])
      == Payloads(stream[start..position]) + if stream[position] < FLAG then [stream[position]] else []
    ensures Continuations(stream[start..position + 1])
      == Continuations(stream[start..position]) + if stream[position] < FLAG then 0 else 1
  {
    assert stream[start..position + 1][..position - start] == stream[start..position];
  }

  /** `done` payloads and some continuations consumed, none of them faulty. */
  ghost predicate Taken(stream: seq<Word>, faults: nat -> Fault, start: nat, position: nat, first: nat, count: nat,
                        done: nat, continuations: nat)
  {
    && start <= position <= |stream|
    && Payloads(stream[start..position]) == Range(first, done)
    && Continuations(stream[start..position]) == continuations
    && forall p :: start <= p < position ==> Passed(stream, faults, start, first, count, p)
  }

  lemma TakeNext(stream: seq<Word>, faults: nat -> Fault, start: nat, position: nat, first: nat, count: nat, done: nat,
                 continuations: nat)
    requires Taken(stream, faults, start, position, first, count, done, continuations)
    requires position < |stream| && Passed(stream, faults, start, first, count, position)
    ensures stream[position] >= FLAG ==> Taken(stream, faults, start, position + 1, first, count, done, continuations + 1)
    ensures stream[position] < FLAG ==> Taken(stream, faults, start, position + 1, first, count, done + 1, continuations)
  {
    ConsumeNext(stream, start, position);
    RangeNext([], first, done);
  }

  /** The receiving phase: payload in exact order, continuations skipped within a budget. */
  method ReceivePhase(stream: seq<Word>, faults: nat -> Fault, start: nat, first: nat, count: nat) returns (r: Receipt)
    requires start <= |stream| && first + count <= FLAG
    ensures Truthful(stream, faults, start, first, count, r)
  {
    var done, position, continuations := 0, start, 0;
    var digest := [];
    while done < count
      invariant done <= count && digest == Range(first, done) && continuations <= 2 * CONTINUATION_LIMIT
      invariant Taken(stream, faults, start, position, first, count, done, continuations)
      decreases |stream| - position
    {
      var fault := faults(position);
      if fault == DeadlinePassed || (position < |stream| && fault == WrongSize) {
        return Faulted(position, fault);
      }
      if position == |stream| {
        return Starved(position);
      }
      var word := stream[position];
      if word < FLAG && word != first + done {
        return SequenceMismatch(position);
      }
      if fault != NoFault {
        return Faulted(position, fault);
      }
      if word >= FLAG {
        continuations := continuations + 1;
        if continuations > 2 * CONTINUATION_LIMIT {
          return BudgetExceeded(position);
        }
        TakeNext(stream, faults, start, position, first, count, done, continuations - 1);
      } else {
        TakeNext(stream, faults, start, position, first, count, done, continuations);
        RangeNext([], first, done);
        digest := digest + [word];
        done := done + 1;
      }
      position := position + 1;
    }
    r := Received(position, continuations, digest);
  }

  lemma {:induction false} PayloadsGrow(s: seq<Word>, n: nat)
    requires n <= |s|
    ensures |Payloads(s[..n])| <= |Payloads(s)|
  {
    if n < |s| {
      PayloadsGrow(s[..|s| - 1], n);
      assert s[..|s| - 1][..n] == s[..n];
    } else {
      assert s[..n] == s;
    }
  }

  /** Delivery in send order: `c` continuations of the previous phase, then this phase's payload. */
  ghost predicate InOrder(s: seq<Word>, c: nat, first: nat, count: nat) {
    && c + count <= |s|
    && (forall k :: 0 <= k < c ==> s[k] >= FLAG)
    && (forall k :: c <= k < c + count ==> s[k] == first + k - c)
  }

  lemma {:induction false} InOrderPrefix(s: seq<Word>, c: nat, first: nat, count: nat, n: nat)
    requires InOrder(s, c, first, count) && first + count <= FLAG && n <= c + count
    ensures Payloads(s[..n]) == Range(first, if n < c then 0 else n - c)
    ensures Continuations(s[..n]) == if n < c then n else c
  {
    if n > 0 {
      InOrderPrefix(s, c, first, count, n - 1);
      assert s[..n][..n - 1] == s[..n - 1];
      if n > c {
        RangeNext([], first, n - 1 - c);
        assert s[n - 1] == first + (n - 1 - c);
      }
    }
  }

  lemma InOrderIncomplete(s: seq<Word>, c: nat, first: nat, count: nat, n: nat)
    requires InOrder(s, c, first, count) && first + count <= FLAG && n <= |s|
    ensures |Payloads(s[..n])| < count ==> n < c + count
  {
    if n >= c + count {
      assert s[..n][..c + count] == s[..c + count];
      InOrderPrefix(s, c, first, count, c + count);
      PayloadsGrow(s[..n], c + count);
    }
  }

  /** In-order delivery within the budget is always received, and nothing more is consumed. */
  lemma InOrderReceived(stream: seq<Word>, faults: nat -> Fault, start: nat, c: nat, first: nat, count: nat, r: Receipt)
    requires start <= |stream| && first + count <= FLAG && c <= 2 * CONTINUATION_LIMIT && count > 0
    requires InOrder(stream[start..], c, first, count)
    requires Truthful(stream, faults, start, first, count, r)
    ensures r.Faulted? || r == Received(start + c + count, c, Range(first, count))
  {
    var s, n := stream[start..], r.at - start;
    assert stream[start..r.at] == s[..n];
    if r.Received? {
      assert Passed(stream, faults, start, first, count, r.at - 1);
      assert stream[start..r.at - 1] == s[..n - 1];
      InOrderIncomplete(s, c, first, count, n - 1);
      InOrderPrefix(s, c, first, count, n - 1);
      InOrderPrefix(s, c, first, count, n);
    } else if !r.Faulted? {
      InOrderIncomplete(s, c, first, count, n);
      InOrderPrefix(s, c, first, count, n);
      assert false;
    }
  }

  /** The sender's stream is in order for both receiving phases. */
  lemma SenderInOrder(stream: seq<Word>, warm: nat, messages: nat, continuations: nat)
    requires stream == SenderStream(warm, messages, continuations)
    ensures |stream| == WARMUP_MESSAGES + warm + messages + continuations
    ensures InOrder(stream[0..], 0, 0, WARMUP_MESSAGES)
    ensures InOrder(stream[WARMUP_MESSAGES..], warm, WARMUP_MESSAGES, messages)
  {
  }

  /**
   Both receiving phases on the stream that an accepted sender run produced, with any
   faults: the budget, order and length checks never fire, and without a fault the
   measured phase sees exactly the warm-up's continuations and the sender's digest.
   */
  method ReceiveRun(stream: seq<Word>, faults: nat -> Fault, messages: nat, ghost warmContinuations: nat,
                    ghost continuations: nat)
    returns (warm: Receipt, measured: Receipt)
    requires 1 <= messages <= MAXIMUM_MESSAGES && warmContinuations <= CONTINUATION_LIMIT
    requires stream == SenderStream(warmContinuations, messages, continuations)
    ensures warm.Faulted? || warm == Received(WARMUP_MESSAGES, 0, Range(0, WARMUP_MESSAGES))
    ensures warm.Faulted? ==> measured == warm
    ensures measured.Faulted? || measured == Received(
      WARMUP_MESSAGES + warmContinuations + messages, warmContinuations, Range(WARMUP_MESSAGES, messages))
    ensures (forall p :: faults(p) == NoFault) ==> measured.Received?
  {
    SenderInOrder(stream, warmContinuations, messages, continuations);
    warm := ReceivePhase(stream, faults, 0, 0, WARMUP_MESSAGES);
    InOrderReceived(stream, faults, 0, 0, 0, WARMUP_MESSAGES, warm);
    if warm.Faulted? {
      return warm, warm;
    }
    measured := ReceivePhase(stream, faults, warm.at, WARMUP_MESSAGES, messages);
    InOrderReceived(stream, faults, warm.at, warmContinuations, WARMUP_MESSAGES, messages, measured);
  }
}
