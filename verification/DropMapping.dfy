/**
 The sender-drop trace check: every too-late removal was submitted before, is
 consistent with its own age and cutoff, and is covered by exactly one counter
 event whose circular sequence range, poll, order and byte sum agree with it.
 */
module DropMapping {

  const MODULUS: int := 0x8000_0000 // 31-bit sequence numbers

  datatype Submission = Submission(sequence: int, monotonicNs: int)

  datatype Drop = Drop(sequence: int, monotonicNs: int, enqueueUs: int, cutoffUs: int, protocolNowUs: int,
                       ageUs: int, payloadBytes: int)

  datatype Counter = Counter(first: int, last: int, packetDelta: int, payloadByteDelta: int,
                             protocolNowUs: int, monotonicNs: int)

  // ------------------------------------------------- what the trace has to satisfy

  ghost predicate Distinct(drops: seq<Drop>) {
    forall i, j :: 0 <= i < j < |drops| ==> drops[i].sequence != drops[j].sequence
  }

  /** Submission k is the last one of its sequence number. */
  ghost predicate LastOf(submissions: seq<Submission>, k: nat) {
    k < |submissions| && forall j :: k < j < |submissions| ==> submissions[j].sequence != submissions[k].sequence
  }

  ghost predicate SubmittedBefore(submissions: seq<Submission>, drop: Drop) {
    exists k: nat :: LastOf(submissions, k) && submissions[k].sequence == drop.sequence
      && 0 < submissions[k].monotonicNs < drop.monotonicNs
  }

  ghost predicate AgeConsistent(drop: Drop) {
    && drop.enqueueUs <= drop.cutoffUs
    && drop.enqueueUs <= drop.protocolNowUs
    && drop.ageUs == drop.protocolNowUs - drop.enqueueUs
  }

  ghost predicate InBounds(c: Counter) {
    0 <= c.first < MODULUS && 0 <= c.last < MODULUS
  }

  /** From first to last, over the end of the sequence space if last comes before first. */
  ghost predicate Within(c: Counter, s: int) {
    if c.first <= c.last then c.first <= s <= c.last else s >= c.first || s <= c.last
  }

  ghost function Range(c: Counter): set<int> {
    set s | 0 <= s < MODULUS && Within(c, s)
  }

  ghost function Sequences(drops: seq<Drop>): set<int> {
    set i | 0 <= i < |drops| :: drops[i].sequence
  }

  /** The payload bytes of the removals whose sequence is in s. */
  ghost function Bytes(drops: seq<Drop>, s: set<int>): int {
    if drops == [] then 0 else
      var last := drops[|drops| - 1];
      Bytes(drops[..|drops| - 1], s) + (if last.sequence in s then last.payloadBytes else 0)
  }

  /** Sequence s was removed in the counter's poll and not after the counter. */
  ghost predicate RemovedIn(drops: seq<Drop>, c: Counter, s: int) {
    exists i :: 0 <= i < |drops| && drops[i].sequence == s
      && drops[i].protocolNowUs == c.protocolNowUs && drops[i].monotonicNs <= c.monotonicNs
  }

  ghost predicate CounterExact(drops: seq<Drop>, c: Counter) {
    && InBounds(c)
    && c.packetDelta == |Range(c)|
    && (forall s :: s in Range(c) ==> RemovedIn(drops, c, s))
    && c.payloadByteDelta == Bytes(drops, Range(c))
  }

  ghost predicate InSomeRange(counters: seq<Counter>, s: int) {
    exists i :: 0 <= i < |counters| && s in Range(counters[i])
  }

  /** The counter ranges partition the removed sequences. */
  ghost predicate Partition(drops: seq<Drop>, counters: seq<Counter>) {
    && (forall i, j :: 0 <= i < j < |counters| ==> Range(counters[i]) !! Range(counters[j]))
    && (forall s :: s in Sequences(drops) <==> InSomeRange(counters, s))
  }

  /** The whole-trace statement that the checker decides. */
  ghost predicate Mapped(submissions: seq<Submission>, drops: seq<Drop>, counters: seq<Counter>) {
    && Distinct(drops)
    && (forall i :: 0 <= i < |drops| ==> SubmittedBefore(submissions, drops[i]) && AgeConsistent(drops[i]))
    && (forall i :: 0 <= i < |counters| ==> CounterExact(drops, counters[i]))
    && Partition(drops, counters)
  }

  // ------------------------------------------------------------- circular ranges

  /** How many packets a counter's range holds, and the packet at an offset into it. */
  function Count(c: Counter): (n: nat)
    ensures 1 <= n <= MODULUS
  {
    (c.last - c.first) % MODULUS + 1
  }

  function Sequence(c: Counter, offset: nat): int {
    (c.first + offset) % MODULUS
  }

  /** The first n sequence numbers of a counter's circular range. */
  ghost function Prefix(c: Counter, n: nat): set<int> {
    if n == 0 then {} else Prefix(c, n - 1) + {Sequence(c, n - 1)}
  }

  lemma SequenceInjective(c: Counter, j: nat, k: nat)
    requires j < k < MODULUS
    ensures Sequence(c, j) != Sequence(c, k)
  {
  }

  lemma {:induction false} PrefixMember(c: Counter, n: nat, s: int)
    ensures s in Prefix(c, n) <==> exists k: nat :: k < n && Sequence(c, k) == s
  {
    if n > 0 {
      PrefixMember(c, n - 1, s);
      if s == Sequence(c, n - 1) {
        assert n - 1 < n;
      }
    }
  }

  lemma {:induction false} PrefixSize(c: Counter, n: nat)
    requires n <= MODULUS
    ensures |Prefix(c, n)| == n
    ensures n < MODULUS ==> Sequence(c, n) !in Prefix(c, n)
  {
    if n > 0 {
      PrefixSize(c, n - 1);
    }
    PrefixMember(c, n, Sequence(c, n));
    forall k: nat | k < n && n < MODULUS
      ensures Sequence(c, k) != Sequence(c, n)
    {
      SequenceInjective(c, k, n);
    }
  }

  /** Counting from the first sequence number modulo 2^31 runs exactly through the range. */
  lemma RangeIsPrefix(c: Counter)
    requires InBounds(c)
    ensures Prefix(c, Count(c)) == Range(c) && |Range(c)| == Count(c)
  {
    forall s
      ensures s in Prefix(c, Count(c)) <==> s in Range(c)
    {
      PrefixMember(c, Count(c), s);
      if s in Range(c) {
        var k: nat := if s >= c.first then s - c.first else s - c.first + MODULUS;
        assert k < Count(c) && Sequence(c, k) == s;
      }
    }
    PrefixSize(c, Count(c));
  }

  // ---------------------------------------------------------------------- bytes

  lemma {:induction false} BytesUnlisted(drops: seq<Drop>, s: set<int>, x: int)
    requires forall i :: 0 <= i < |drops| ==> drops[i].sequence != x
    ensures Bytes(drops, s + {x}) == Bytes(drops, s)
  {
    if drops != [] {
      BytesUnlisted(drops[..|drops| - 1], s, x);
    }
  }

  lemma {:induction false} BytesAdd(drops: seq<Drop>, s: set<int>, i: nat)
    requires Distinct(drops) && i < |drops| && drops[i].sequence !in s
    ensures Bytes(drops, s + {drops[i].sequence}) == Bytes(drops, s) + drops[i].payloadBytes
  {
    var n := |drops| - 1;
    if i == n {
      BytesUnlisted(drops[..n], s, drops[i].sequence);
    } else {
      BytesAdd(drops[..n], s, i);
    }
  }

  lemma {:induction false} BytesEmpty(drops: seq<Drop>)
    ensures Bytes(drops, {}) == 0
  {
    if drops != [] {
      BytesEmpty(drops[..|drops| - 1]);
    }
  }

  // -------------------------------------------------------------------- indexes

  /** The dictionary of the last submission per sequence number. */
  ghost predicate IndexesSubmissions(m: map<int, nat>, submissions: seq<Submission>, n: nat) {
    && n <= |submissions|
    && (forall s :: s in m ==> m[s] < n && submissions[m[s]].sequence == s)
    && (forall s, j :: s in m && m[s] < j < n ==> submissions[j].sequence != s)
    && (forall j :: 0 <= j < n ==> submissions[j].sequence in m)
  }

  method IndexSubmissions(submissions: seq<Submission>) returns (m: map<int, nat>)
    ensures IndexesSubmissions(m, submissions, |submissions|)
  {
    m := map[];
    for i := 0 to |submissions|
      invariant IndexesSubmissions(m, submissions, i)
    {
      m := m[submissions[i].sequence := i];
    }
  }

  lemma LookupDecides(m: map<int, nat>, submissions: seq<Submission>, drop: Drop)
    requires IndexesSubmissions(m, submissions, |submissions|)
    ensures SubmittedBefore(submissions, drop) <==>
      drop.sequence in m && 0 < submissions[m[drop.sequence]].monotonicNs < drop.monotonicNs
  {
  }

  /** The dictionary of removals by sequence number. */
  ghost predicate IndexesDrops(m: map<int, nat>, drops: seq<Drop>, n: nat) {
    && n <= |drops|
    && (forall s :: s in m ==> m[s] < n && drops[m[s]].sequence == s)
    && (forall j :: 0 <= j < n ==> drops[j].sequence in m)
  }

  lemma IndexStep(drops: seq<Drop>, i: nat, m: map<int, nat>)
    requires i < |drops| && IndexesDrops(m, drops, i) && |m| <= i
    requires |m| == i <==> Distinct(drops[..i])
    ensures IndexesDrops(m[drops[i].sequence := i], drops, i + 1)
    ensures |m[drops[i].sequence := i]| <= i + 1
    ensures |m[drops[i].sequence := i]| == i + 1 <==> Distinct(drops[..i + 1])
  {
  }

  /** A dictionary as large as the list means that no sequence number repeats. */
  method IndexDrops(drops: seq<Drop>) returns (m: map<int, nat>)
    ensures IndexesDrops(m, drops, |drops|)
    ensures |m| == |drops| <==> Distinct(drops)
    ensures |m| <= |drops|
  {
    m := map[];
    for i := 0 to |drops|
      invariant IndexesDrops(m, drops, i) && |m| <= i
      invariant |m| == i <==> Distinct(drops[..i])
    {
      IndexStep(drops, i, m);
      m := m[drops[i].sequence := i];
    }
    assert drops[..|drops|] == drops;
  }

  // ------------------------------------------------------------------ one counter

  datatype Verdict =
    | Accepted
    | DuplicateDrop | NoPriorSubmission | InconsistentAge
    | InvalidSequence | CountMismatch | MissingOrOverlapping | WrongPoll | ByteMismatch
    | Uncovered

  lemma RangeWithin(drops: seq<Drop>, m: map<int, nat>, c: Counter)
    requires IndexesDrops(m, drops, |drops|) && |m| <= |drops| && CounterExact(drops, c)
    ensures |Range(c)| <= |drops|
  {
    forall s | s in Range(c)
      ensures s in m.Keys
    {
      assert RemovedIn(drops, c, s);
    }
    SubsetSize(Range(c), m.Keys);
  }

  lemma SubsetSize(a: set<int>, b: set<int>)
    requires a <= b
    ensures |a| <= |b|
  {
    assert b == a + (b - a);
  }

  lemma RemovedDecides(drops: seq<Drop>, m: map<int, nat>, c: Counter, s: int)
    requires IndexesDrops(m, drops, |drops|) && Distinct(drops)
    ensures RemovedIn(drops, c, s) <==>
      && s in m
      && drops[m[s]].protocolNowUs == c.protocolNowUs && drops[m[s]].monotonicNs <= c.monotonicNs
  {
  }

  /** The state of the walk over a counter's range after `offset` steps. */
  ghost predicate Walked(drops: seq<Drop>, removed: map<int, nat>, c: Counter, matched: set<int>,
                         more: set<int>, offset: nat, bytes: int)
  {
    var done := Prefix(c, offset);
    && done !! matched && more == matched + done && more <= removed.Keys
    && |more| == |matched| + offset
    && (forall s :: s in done ==> RemovedIn(drops, c, s))
    && bytes == Bytes(drops, done)
  }

  lemma WalkStep(drops: seq<Drop>, removed: map<int, nat>, c: Counter, matched: set<int>,
                 more: set<int>, offset: nat, bytes: int)
    requires Distinct(drops) && IndexesDrops(removed, drops, |drops|) && offset < MODULUS
    requires Walked(drops, removed, c, matched, more, offset, bytes)
    requires Sequence(c, offset) in removed && Sequence(c, offset) !in more
    requires RemovedIn(drops, c, Sequence(c, offset))
    ensures
      var s := Sequence(c, offset);
      Walked(drops, removed, c, matched, more + {s}, offset + 1, bytes + drops[removed[s]].payloadBytes)
  {
    var s := Sequence(c, offset);
    assert Prefix(c, offset + 1) == Prefix(c, offset) + {s};
    BytesAdd(drops, Prefix(c, offset), removed[s]);
  }

  lemma InRange(c: Counter, offset: nat)
    requires InBounds(c) && offset < Count(c)
    ensures Sequence(c, offset) in Range(c)
  {
    PrefixMember(c, Count(c), Sequence(c, offset));
    RangeIsPrefix(c);
  }

  /** Which removals the counters before it and the walk so far leave to a counter. */
  ghost predicate Free(drops: seq<Drop>, c: Counter, matched: set<int>, s: int) {
    RemovedIn(drops, c, s) && s !in matched
  }

  ghost predicate AllFree(drops: seq<Drop>, c: Counter, matched: set<int>, range: set<int>) {
    forall s :: s in range ==> Free(drops, c, matched, s)
  }

  /** Why the walk stops at sequence number s. */
  ghost predicate Stuck(drops: seq<Drop>, c: Counter, matched: set<int>, s: int, verdict: Verdict) {
    if s !in Sequences(drops) || s in matched then verdict == MissingOrOverlapping
    else verdict == WrongPoll && !RemovedIn(drops, c, s)
  }

  ghost predicate StuckAt(drops: seq<Drop>, c: Counter, matched: set<int>, verdict: Verdict, offset: nat) {
    && offset < Count(c)
    && AllFree(drops, c, matched, Prefix(c, offset))
    && Stuck(drops, c, matched, Sequence(c, offset), verdict)
  }

  /** What a refused counter is refused for, after `matched` was taken by earlier ones. */
  ghost predicate Refutes(drops: seq<Drop>, c: Counter, matched: set<int>, verdict: Verdict) {
    if !InBounds(c) then verdict == InvalidSequence
    else if |Range(c)| > |drops| || c.packetDelta != |Range(c)| then verdict == CountMismatch
    else if AllFree(drops, c, matched, Range(c)) then
      verdict == ByteMismatch && c.payloadByteDelta != Bytes(drops, Range(c))
    else exists offset: nat :: StuckAt(drops, c, matched, verdict, offset)
  }

  /** A sequence that is missing, taken, or from another poll refutes the counter. */
  lemma WalkFails(drops: seq<Drop>, removed: map<int, nat>, c: Counter, matched: set<int>,
                  more: set<int>, offset: nat, bytes: int, verdict: Verdict)
    requires Distinct(drops) && IndexesDrops(removed, drops, |drops|) && InBounds(c) && offset < Count(c)
    requires Walked(drops, removed, c, matched, more, offset, bytes)
    requires
      var s := Sequence(c, offset);
      if s !in removed || s in more then verdict == MissingOrOverlapping
      else verdict == WrongPoll && !RemovedIn(drops, c, s)
    ensures StuckAt(drops, c, matched, verdict, offset)
    ensures !AllFree(drops, c, matched, Range(c))
  {
    PrefixSize(c, offset);
    KeysAreSequences(drops, removed);
    InRange(c, offset);
    assert !Free(drops, c, matched, Sequence(c, offset));
  }

  /** Does the packet at this offset belong to the counter, and to no counter before it? */
  method WalkOne(drops: seq<Drop>, removed: map<int, nat>, c: Counter, ghost matched: set<int>, more: set<int>,
                 offset: nat, bytes: int) returns (verdict: Verdict, longer: set<int>, total: int)
    requires Distinct(drops) && IndexesDrops(removed, drops, |drops|) && InBounds(c) && offset < Count(c)
    requires Walked(drops, removed, c, matched, more, offset, bytes)
    ensures verdict == Accepted ==> Walked(drops, removed, c, matched, longer, offset + 1, total)
    ensures verdict != Accepted ==>
      longer == more && StuckAt(drops, c, matched, verdict, offset) && !AllFree(drops, c, matched, Range(c))
  {
    var s := Sequence(c, offset);
    longer, total := more, bytes;
    RemovedDecides(drops, removed, c, s);
    if s !in removed || s in more {
      WalkFails(drops, removed, c, matched, more, offset, bytes, MissingOrOverlapping);
      return MissingOrOverlapping, longer, total;
    }
    var drop := drops[removed[s]];
    if drop.protocolNowUs != c.protocolNowUs || drop.monotonicNs > c.monotonicNs {
      WalkFails(drops, removed, c, matched, more, offset, bytes, WrongPoll);
      return WrongPoll, longer, total;
    }
    WalkStep(drops, removed, c, matched, more, offset, bytes);
    verdict, longer, total := Accepted, more + {s}, bytes + drop.payloadBytes;
  }

  /** Walk a counter's range, packet by packet, until one does not belong to it. */
  method Walk(drops: seq<Drop>, removed: map<int, nat>, c: Counter, matched: set<int>)
    returns (verdict: Verdict, more: set<int>, steps: nat, payloadBytes: int)
    requires Distinct(drops) && IndexesDrops(removed, drops, |drops|) && InBounds(c) && matched <= removed.Keys
    ensures verdict == Accepted ==> Walked(drops, removed, c, matched, more, Count(c), payloadBytes) && steps == Count(c)
    ensures verdict != Accepted ==>
      !AllFree(drops, c, matched, Range(c)) && exists offset: nat :: StuckAt(drops, c, matched, verdict, offset)
    ensures matched <= more <= removed.Keys
    ensures steps <= |more| - |matched| + 1
  {
    verdict, more, steps, payloadBytes := Accepted, matched, 0, 0;
    BytesEmpty(drops);
    for offset := 0 to Count(c)
      invariant Walked(drops, removed, c, matched, more, offset, payloadBytes)
      invariant verdict == Accepted && steps == offset
    {
      steps := steps + 1;
      verdict, more, payloadBytes := WalkOne(drops, removed, c, matched, more, offset, payloadBytes);
      if verdict != Accepted {
        return;
      }
    }
  }

  /**
   One counter event: its range is walked once, and the walk adds exactly that
   range to the matched sequences.
   */
  method MatchCounter(drops: seq<Drop>, removed: map<int, nat>, c: Counter, matched: set<int>)
    returns (verdict: Verdict, more: set<int>, steps: nat)
    requires Distinct(drops) && IndexesDrops(removed, drops, |drops|) && |removed| <= |drops|
    requires matched <= removed.Keys
    ensures verdict == Accepted <==> CounterExact(drops, c) && Range(c) !! matched
    ensures verdict != Accepted ==> Refutes(drops, c, matched, verdict)
    ensures verdict == Accepted ==> more == matched + Range(c) && steps == |more| - |matched|
    ensures matched <= more <= removed.Keys
    ensures steps <= |more| - |matched| + 1
  {
    more, steps := matched, 0;
    if !(0 <= c.first < MODULUS && 0 <= c.last < MODULUS) {
      return InvalidSequence, more, steps;
    }
    RangeIsPrefix(c);
    var count := Count(c);
    if count > |drops| || count != c.packetDelta {
      if CounterExact(drops, c) {
        RangeWithin(drops, removed, c);
      }
      return CountMismatch, more, steps;
    }
    var payloadBytes;
    verdict, more, steps, payloadBytes := Walk(drops, removed, c, matched);
    if verdict == Accepted && payloadBytes != c.payloadByteDelta {
      verdict := ByteMismatch;
    }
  }

  // ------------------------------------------------------------------ the checker

  ghost function Union(counters: seq<Counter>, n: nat): set<int>
    requires n <= |counters|
  {
    if n == 0 then {} else Union(counters, n - 1) + Range(counters[n - 1])
  }

  lemma {:induction false} UnionMember(counters: seq<Counter>, n: nat, s: int)
    requires n <= |counters|
    ensures s in Union(counters, n) <==> exists i :: 0 <= i < n && s in Range(counters[i])
  {
    if n > 0 {
      UnionMember(counters, n - 1, s);
    }
  }

  ghost predicate Exact(drops: seq<Drop>, counters: seq<Counter>, n: nat)
    requires n <= |counters|
  {
    forall i :: 0 <= i < n ==> CounterExact(drops, counters[i]) && Range(counters[i]) !! Union(counters, i)
  }

  lemma ExactNext(drops: seq<Drop>, counters: seq<Counter>, n: nat)
    requires n < |counters| && Exact(drops, counters, n)
    ensures CounterExact(drops, counters[n]) && Range(counters[n]) !! Union(counters, n)
      ==> Exact(drops, counters, n + 1)
    ensures !(CounterExact(drops, counters[n]) && Range(counters[n]) !! Union(counters, n))
      ==> !Exact(drops, counters, |counters|)
  {
  }

  /** Pairwise disjoint ranges are each disjoint from the union of the earlier ones. */
  lemma DisjointByUnion(counters: seq<Counter>)
    ensures (forall i, j :: 0 <= i < j < |counters| ==> Range(counters[i]) !! Range(counters[j]))
      <==> forall i :: 0 <= i < |counters| ==> Range(counters[i]) !! Union(counters, i)
  {
    if forall i, j :: 0 <= i < j < |counters| ==> Range(counters[i]) !! Range(counters[j]) {
      forall i, s | 0 <= i < |counters| && s in Range(counters[i])
        ensures s !in Union(counters, i)
      {
        UnionMember(counters, i, s);
      }
    }
    if forall i :: 0 <= i < |counters| ==> Range(counters[i]) !! Union(counters, i) {
      forall i, j, s | 0 <= i < j < |counters| && s in Range(counters[i])
        ensures s !in Range(counters[j])
      {
        UnionMember(counters, j, s);
      }
    }
  }

  lemma KeysAreSequences(drops: seq<Drop>, removed: map<int, nat>)
    requires IndexesDrops(removed, drops, |drops|)
    ensures Sequences(drops) == removed.Keys
  {
    forall s | s in removed
      ensures s in Sequences(drops)
    {
      assert drops[removed[s]].sequence == s;
    }
  }

  lemma CoveredByUnion(drops: seq<Drop>, removed: map<int, nat>, counters: seq<Counter>)
    requires IndexesDrops(removed, drops, |drops|)
    ensures (forall s :: s in Sequences(drops) <==> InSomeRange(counters, s))
      <==> Union(counters, |counters|) == removed.Keys
  {
    KeysAreSequences(drops, removed);
    var union := Union(counters, |counters|);
    forall s
      ensures s in union <==> InSomeRange(counters, s)
    {
      UnionMember(counters, |counters|, s);
    }
    if forall s :: s in Sequences(drops) <==> InSomeRange(counters, s) {
      forall s
        ensures s in union <==> s in removed.Keys
      {
        assert s in Sequences(drops) <==> InSomeRange(counters, s);
      }
    }
  }

  lemma PartitionByUnion(drops: seq<Drop>, removed: map<int, nat>, counters: seq<Counter>)
    requires IndexesDrops(removed, drops, |drops|)
    ensures (forall i :: 0 <= i < |counters| ==> CounterExact(drops, counters[i])) && Partition(drops, counters)
      <==> Exact(drops, counters, |counters|) && Union(counters, |counters|) == removed.Keys
  {
    DisjointByUnion(counters);
    CoveredByUnion(drops, removed, counters);
  }

  ghost predicate GoodDrops(submissions: seq<Submission>, drops: seq<Drop>, n: nat)
    requires n <= |drops|
  {
    forall i :: 0 <= i < n ==> SubmittedBefore(submissions, drops[i]) && AgeConsistent(drops[i])
  }

  /** The first bad removal, and what is wrong with it. */
  ghost predicate BadDrop(submissions: seq<Submission>, drops: seq<Drop>, i: nat, verdict: Verdict) {
    && i < |drops| && GoodDrops(submissions, drops, i)
    && if !SubmittedBefore(submissions, drops[i]) then verdict == NoPriorSubmission
       else verdict == InconsistentAge && !AgeConsistent(drops[i])
  }

  /** The removals one by one. */
  method CheckDrops(submissions: seq<Submission>, drops: seq<Drop>) returns (verdict: Verdict)
    ensures verdict == Accepted <==> GoodDrops(submissions, drops, |drops|)
    ensures verdict != Accepted ==> exists i: nat :: BadDrop(submissions, drops, i, verdict)
  {
    var submitted := IndexSubmissions(submissions);
    for i := 0 to |drops|
      invariant GoodDrops(submissions, drops, i)
    {
      var drop := drops[i];
      LookupDecides(submitted, submissions, drop);
      if drop.sequence !in submitted
         || submissions[submitted[drop.sequence]].monotonicNs <= 0
         || submissions[submitted[drop.sequence]].monotonicNs >= drop.monotonicNs {
        assert BadDrop(submissions, drops, i, NoPriorSubmission);
        return NoPriorSubmission;
      }
      if drop.enqueueUs > drop.cutoffUs || drop.protocolNowUs < drop.enqueueUs
         || drop.ageUs != drop.protocolNowUs - drop.enqueueUs {
        assert BadDrop(submissions, drops, i, InconsistentAge);
        return InconsistentAge;
      }
    }
    verdict := Accepted;
  }

  /** The first bad counter, and what is wrong with it. */
  ghost predicate BadCounter(drops: seq<Drop>, counters: seq<Counter>, i: nat, verdict: Verdict) {
    i < |counters| && Exact(drops, counters, i) && Refutes(drops, counters[i], Union(counters, i), verdict)
  }

  ghost predicate CountersRefused(drops: seq<Drop>, counters: seq<Counter>, verdict: Verdict) {
    if Exact(drops, counters, |counters|) then verdict == Uncovered
    else exists i: nat :: BadCounter(drops, counters, i, verdict)
  }

  /** The counter events one by one. */
  method CheckCounters(drops: seq<Drop>, removed: map<int, nat>, counters: seq<Counter>)
    returns (verdict: Verdict, steps: nat)
    requires Distinct(drops) && IndexesDrops(removed, drops, |drops|) && |removed| == |drops|
    ensures verdict == Accepted <==>
      Exact(drops, counters, |counters|) && Union(counters, |counters|) == removed.Keys
    ensures verdict != Accepted ==> CountersRefused(drops, counters, verdict)
    ensures steps <= |drops| + 1
  {
    steps := 0;
    var matched: set<int> := {};
    for i := 0 to |counters|
      invariant matched == Union(counters, i) <= removed.Keys
      invariant Exact(drops, counters, i)
      invariant steps == |matched|
    {
      var why, more, walked := MatchCounter(drops, removed, counters[i], matched);
      steps := steps + walked;
      SubsetSize(more, removed.Keys);
      ExactNext(drops, counters, i);
      if why != Accepted {
        assert BadCounter(drops, counters, i, why);
        return why, steps;
      }
      matched := more;
    }
    SubsetSize(matched, removed.Keys);
    verdict := if matched == removed.Keys then Accepted else Uncovered;
  }

  /** What a refused trace is refused for: the first thing wrong with it, in the order of the checks. */
  ghost predicate Because(submissions: seq<Submission>, drops: seq<Drop>, counters: seq<Counter>, verdict: Verdict) {
    if !Distinct(drops) then verdict == DuplicateDrop
    else if !GoodDrops(submissions, drops, |drops|) then exists i: nat :: BadDrop(submissions, drops, i, verdict)
    else CountersRefused(drops, counters, verdict)
  }

  /**
   validate_drop_mapping: accepts exactly the traces in which the mapping holds,
   after at most one step more than there are removals, and names the first fault otherwise.
   */
  method Validate(submissions: seq<Submission>, drops: seq<Drop>, counters: seq<Counter>)
    returns (verdict: Verdict, steps: nat)
    ensures verdict == Accepted <==> Mapped(submissions, drops, counters)
    ensures verdict != Accepted ==> Because(submissions, drops, counters, verdict)
    ensures steps <= |drops| + 1
  {
    var removed := IndexDrops(drops);
    if |removed| != |drops| {
      return DuplicateDrop, 0;
    }
    verdict := CheckDrops(submissions, drops);
    if verdict != Accepted {
      return verdict, 0;
    }
    PartitionByUnion(drops, removed, counters);
    verdict, steps := CheckCounters(drops, removed, counters);
  }

  // --------------------------------------------------------------- consequences

  ghost function PacketSum(counters: seq<Counter>): int {
    if counters == [] then 0
    else PacketSum(counters[..|counters| - 1]) + counters[|counters| - 1].packetDelta
  }

  lemma DisjointSize(a: set<int>, b: set<int>)
    requires a !! b
    ensures |a + b| == |a| + |b|
  {
  }

  lemma {:induction false} PacketSumIsUnion(drops: seq<Drop>, counters: seq<Counter>, n: nat)
    requires n <= |counters| && Exact(drops, counters, n)
    ensures PacketSum(counters[..n]) == |Union(counters, n)|
  {
    if n > 0 {
      PacketSumIsUnion(drops, counters, n - 1);
      DisjointSize(Union(counters, n - 1), Range(counters[n - 1]));
      assert counters[..n][..n - 1] == counters[..n - 1];
    } else {
      assert counters[..0] == [];
    }
  }

  /** The caller's later comparison of packet deltas with the number of removals can never fail. */
  lemma PacketSumRedundant(submissions: seq<Submission>, drops: seq<Drop>, counters: seq<Counter>)
    requires Mapped(submissions, drops, counters)
    ensures PacketSum(counters) == |drops|
  {
    var removed := map i | 0 <= i < |drops| :: drops[i].sequence := i;
    assert IndexesDrops(removed, drops, |drops|);
    PartitionByUnion(drops, removed, counters);
    PacketSumIsUnion(drops, counters, |counters|);
    assert counters[..|counters|] == counters;
    SequencesSize(drops);
    KeysAreSequences(drops, removed);
  }

  lemma {:induction false} SequencesSize(drops: seq<Drop>)
    requires Distinct(drops)
    ensures |Sequences(drops)| == |drops|
  {
    if drops != [] {
      var n := |drops| - 1;
      SequencesSize(drops[..n]);
      assert Sequences(drops) == Sequences(drops[..n]) + {drops[n].sequence} by {
        assert forall i :: 0 <= i < n ==> drops[..n][i] == drops[i];
      }
    }
  }
}
