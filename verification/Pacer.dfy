/**
 The offered-rate pacer of the many-socket sender, in exact arithmetic. Times are
 real milliseconds; `period` is the time one message takes at the target rate.
 */
module Pacer {

  /** One accepted message: the clock at its pacing check, the origin in force then, when it was due, when it left. */
  datatype Enqueue = Enqueue(check: real, origin: real, due: real, at: real)

  /** The time `count` messages take. */
  function Offset(count: nat, period: real): real {
    if count == 0 then 0.0 else Offset(count - 1, period) + period
  }

  lemma {:induction false} OffsetIsProduct(count: nat, period: real)
    ensures Offset(count, period) == count as real * period
  {
    if count > 0 {
      OffsetIsProduct(count - 1, period);
      assert (count - 1) as real * period + period == count as real * period;
    }
  }

  lemma {:induction false} OffsetGrows(j: nat, k: nat, period: real)
    requires j <= k && period > 0.0
    ensures Offset(j, period) <= Offset(k, period)
  {
    if j < k {
      OffsetGrows(j, k - 1, period);
    }
  }

  datatype Settings = Settings(start: real, period: real, burst: nat)

  /** How far behind the clock a message may be due; only with a burst setting. */
  function Credit(s: Settings): real {
    if s.burst == 0 then 0.0 else Offset(s.burst - 1, s.period)
  }

  /**
   What the pacer guarantees about the messages enqueued so far: the origin only
   moves forward, successive messages are one period apart relative to it, no
   message leaves before it is due, and with a burst setting no message is due
   earlier than the credit allows at its own check.
   */
  ghost predicate Paced(s: Settings, h: seq<Enqueue>) {
    && (forall k :: 0 <= k < |h| ==>
      && h[k].check <= h[k].at && h[k].due <= h[k].at
      && s.start <= h[k].origin
      && (s.burst == 0 ==> h[k].origin == s.start)
      && (s.burst > 0 ==> h[k].check - Credit(s) <= h[k].due))
    && (h != [] ==> h[0].due == h[0].origin)
    && (forall j, k :: 0 <= j < k < |h| ==>
      && h[j].origin <= h[k].origin && h[j].at <= h[k].check
      && (k == j + 1 ==> h[k].due - h[k].origin == h[j].due - h[j].origin + s.period))
  }

  lemma {:induction false} Spacing(s: Settings, h: seq<Enqueue>, j: nat, k: nat)
    requires Paced(s, h) && j <= k < |h|
    ensures h[k].due - h[k].origin == h[j].due - h[j].origin + Offset(k - j, s.period)
  {
    if j < k {
      Spacing(s, h, j, k - 1);
    }
  }

  /** Messages j..k together take no less than their own time minus the burst credit. */
  lemma BurstBound(s: Settings, h: seq<Enqueue>, j: nat, k: nat)
    requires s.period > 0.0 && s.burst > 0 && Paced(s, h) && j <= k < |h|
    ensures Offset(k - j + 1, s.period) <= h[k].at - h[j].check + Offset(s.burst, s.period)
  {
    Spacing(s, h, j, k);
    assert j < k ==> h[j].origin <= h[k].origin;
  }

  /** The same bound between two enqueue times costs one more message. */
  lemma WindowBound(s: Settings, h: seq<Enqueue>, j: nat, k: nat)
    requires s.period > 0.0 && s.burst > 0 && Paced(s, h) && j <= k < |h|
    ensures Offset(k - j + 1, s.period) <= h[k].at - h[j].at + Offset(s.burst + 1, s.period)
  {
    if j < k {
      BurstBound(s, h, j + 1, k);
    } else {
      OffsetGrows(0, s.burst, s.period);
    }
  }

  /** Every message is due at the origin plus its exact offset; without a burst setting that is its fixed slot. */
  lemma {:induction false} ExactSlots(s: Settings, h: seq<Enqueue>, k: nat)
    requires Paced(s, h) && k < |h|
    ensures h[k].due == h[k].origin + Offset(k, s.period)
    ensures s.burst == 0 ==> s.start + Offset(k, s.period) <= h[k].at
  {
    Spacing(s, h, 0, k);
  }

  // ------------------------------------------------------ one-millisecond buckets

  function Bucket(h: seq<Enqueue>, k: nat): int
    requires k < |h|
  {
    (h[k].at - h[0].at).Floor
  }

  ghost function Count(h: seq<Enqueue>, bucket: int): nat {
    if h == [] then 0
    else Count(h[..|h| - 1], bucket) + (if Bucket(h, |h| - 1) == bucket then 1 else 0)
  }

  lemma BucketsAscend(s: Settings, h: seq<Enqueue>, j: nat, k: nat)
    requires Paced(s, h) && j <= k < |h|
    ensures Bucket(h, j) <= Bucket(h, k)
  {
  }

  lemma BetweenEqual(s: Settings, h: seq<Enqueue>, i: nat, j: nat, k: nat)
    requires Paced(s, h) && i <= j <= k < |h| && Bucket(h, i) == Bucket(h, k)
    ensures Bucket(h, j) == Bucket(h, i)
  {
  }

  lemma BucketPrefix(h: seq<Enqueue>, n: nat, k: nat)
    requires k < n <= |h|
    ensures Bucket(h[..n], k) == Bucket(h, k)
  {
  }

  lemma PacedPrefix(s: Settings, h: seq<Enqueue>, n: nat)
    requires Paced(s, h) && n <= |h|
    ensures Paced(s, h[..n])
  {
  }

  /** A bucket's messages are consecutive. */
  lemma {:induction false} CountSpan(s: Settings, h: seq<Enqueue>, bucket: int) returns (j: nat, k: nat)
    requires Paced(s, h) && Count(h, bucket) > 0
    ensures j <= k < |h| && k - j + 1 == Count(h, bucket)
    ensures forall i :: 0 <= i < |h| ==> (j <= i <= k <==> Bucket(h, i) == bucket)
  {
    var n := |h| - 1;
    PacedPrefix(s, h, n);
    forall i | 0 <= i < n ensures Bucket(h[..n], i) == Bucket(h, i) { BucketPrefix(h, n, i); }
    if Count(h[..n], bucket) > 0 {
      j, k := CountSpan(s, h[..n], bucket);
      assert forall i :: 0 <= i < n ==> (j <= i <= k <==> Bucket(h[..n], i) == bucket);
      if Bucket(h, n) == bucket {
        if k < n - 1 {
          BetweenEqual(s, h, k, k + 1, n);
        }
        k := n;
      }
    } else {
      j, k := n, n;
      NoneCounted(h[..n], bucket);
    }
  }

  lemma {:induction false} NoneCounted(h: seq<Enqueue>, bucket: int)
    requires Count(h, bucket) == 0
    ensures forall i :: 0 <= i < |h| ==> Bucket(h, i) != bucket
  {
    if h != [] {
      var n := |h| - 1;
      NoneCounted(h[..n], bucket);
      forall i | 0 <= i < n ensures Bucket(h, i) == Bucket(h[..n], i) { BucketPrefix(h, n, i); }
    }
  }

  /** What a burst-limited pacer implies for any fixed one-millisecond bucket. */
  lemma BucketBound(s: Settings, h: seq<Enqueue>, bucket: int)
    requires s.period > 0.0 && s.burst > 0 && Paced(s, h) && Count(h, bucket) > 0
    ensures Offset(Count(h, bucket), s.period) < 1.0 + Offset(s.burst + 1, s.period)
  {
    var j, k := CountSpan(s, h, bucket);
    assert Bucket(h, j) == Bucket(h, k) == bucket;
    WindowBound(s, h, j, k);
  }

  /** `maximum` is the largest number of messages in any one bucket. */
  ghost predicate IsMaximum(h: seq<Enqueue>, maximum: nat) {
    && (forall bucket :: Count(h, bucket) <= maximum)
    && (h != [] ==> exists bucket :: Count(h, bucket) == maximum)
    && (h == [] ==> maximum == 0)
  }

  lemma MaximumBound(s: Settings, h: seq<Enqueue>, maximum: nat)
    requires s.period > 0.0 && s.burst > 0 && Paced(s, h) && IsMaximum(h, maximum)
    ensures Offset(maximum, s.period) < 1.0 + Offset(s.burst + 1, s.period)
  {
    OffsetGrows(0, s.burst + 1, s.period);
    if maximum > 0 {
      var bucket :| Count(h, bucket) == maximum;
      BucketBound(s, h, bucket);
    }
  }

  lemma CountNext(h: seq<Enqueue>, e: Enqueue, bucket: int)
    ensures Count(h + [e], bucket) == Count(h, bucket) + (if Bucket(h + [e], |h|) == bucket then 1 else 0)
  {
  }

  lemma {:induction false} NothingLater(s: Settings, h: seq<Enqueue>, last: int, bucket: int)
    requires Paced(s, h) && last < bucket && (h != [] ==> Bucket(h, |h| - 1) <= last)
    ensures Count(h, bucket) == 0
  {
    if h != [] {
      var n := |h| - 1;
      PacedPrefix(s, h, n);
      if n > 0 {
        BucketsAscend(s, h, n - 1, n);
        BucketPrefix(h, n, n - 1);
      }
      NothingLater(s, h[..n], last, bucket);
    }
  }

  /** The origin is the start plus all forgiven time, and nothing recorded is ahead of it or of the clock. */
  ghost predicate Progressed(s: Settings, h: seq<Enqueue>, origin: real, forgiven: real, clock: real) {
    && Paced(s, h)
    && origin == s.start + forgiven && forgiven >= 0.0
    && (s.burst == 0 ==> forgiven == 0.0)
    && forall k :: 0 <= k < |h| ==> h[k].origin <= origin && h[k].at <= clock
  }

  /** A history stays paced when the next message keeps to its slot and to the credit. */
  lemma PacedNext(s: Settings, h: seq<Enqueue>, e: Enqueue)
    requires Paced(s, h) && s.start <= e.origin && (s.burst == 0 ==> e.origin == s.start)
    requires e.check <= e.at && e.due <= e.at && (s.burst > 0 ==> e.check - Credit(s) <= e.due)
    requires forall k :: 0 <= k < |h| ==> h[k].origin <= e.origin && h[k].at <= e.check
    requires h == [] ==> e.due == e.origin
    requires h != [] ==> e.due - e.origin == h[|h| - 1].due - h[|h| - 1].origin + s.period
    ensures Paced(s, h + [e])
  {
  }

  lemma ProgressedNext(s: Settings, h: seq<Enqueue>, origin: real, forgiven: real, check: real, due: real, at: real)
    requires Progressed(s, h, origin, forgiven, check)
    requires check <= at && due <= at && due == origin + Offset(|h|, s.period)
    requires s.burst > 0 ==> check - Credit(s) <= due
    ensures Progressed(s, h + [Enqueue(check, origin, due, at)], origin, forgiven, at)
  {
    if h != [] {
      ExactSlots(s, h, |h| - 1);
    }
    PacedNext(s, h, Enqueue(check, origin, due, at));
  }

  /** The sender's bucket variables describe the history. */
  ghost predicate Buckets(h: seq<Enqueue>, first: real, last: real, bucket: int, packets: nat, maximum: nat) {
    && (h != [] ==> first == h[0].at && last == h[|h| - 1].at && bucket == Bucket(h, |h| - 1))
    && (h == [] ==> bucket == 0)
    && packets == Count(h, bucket)
    && IsMaximum(h, maximum)
  }

  /** The streaming bucket counter stays exact: buckets never come back once left. */
  lemma BucketStep(s: Settings, h: seq<Enqueue>, e: Enqueue, first: real, last: real, bucket: int, packets: nat,
                   maximum: nat)
    requires Paced(s, h + [e]) && Buckets(h, first, last, bucket, packets, maximum)
    ensures
      var origin := if h == [] then e.at else first;
      var current := (e.at - origin).Floor;
      var counted := (if current == bucket then packets else 0) + 1;
      Buckets(h + [e], origin, e.at, current, counted, if counted > maximum then counted else maximum)
  {
    var next := h + [e];
    var current := Bucket(next, |h|);
    assert next[..|h|] == h;
    PacedPrefix(s, next, |h|);
    if h != [] {
      BucketsAscend(s, next, |h| - 1, |h|);
      BucketPrefix(next, |h|, |h| - 1);
    }
    if current != bucket {
      NothingLater(s, h, bucket, current);
    }
    CountNext(h, e, current);
    MaximumNext(h, e, maximum);
  }

  /** Only the bucket of the new message can raise the maximum. */
  lemma MaximumNext(h: seq<Enqueue>, e: Enqueue, maximum: nat)
    requires IsMaximum(h, maximum)
    ensures var counted := Count(h + [e], Bucket(h + [e], |h|));
      IsMaximum(h + [e], if counted > maximum then counted else maximum)
  {
    var next, current := h + [e], Bucket(h + [e], |h|);
    forall v
      ensures Count(next, v) == Count(h, v) + (if v == current then 1 else 0)
    {
      CountNext(h, e, v);
    }
    if Count(next, current) <= maximum {
      var v :| Count(h, v) == maximum;
      assert Count(next, v) == maximum;
    }
  }

  /** The pacing variables of the sender's loop. */
  class PacingState {
    const settings: Settings
    var origin: real
    var forgiven: real
    var sent: nat
    var firstEnqueue: real
    var lastEnqueue: real
    var enqueueBucket: int
    var bucketPackets: nat
    var maximumBucketPackets: nat
    var clock: real
    ghost var history: seq<Enqueue>

    /** The origin is the start plus all forgiven time, and the counters describe the history. */
    ghost predicate Valid()
      reads this
    {
      && settings.period > 0.0
      && |history| == sent
      && Progressed(settings, history, origin, forgiven, clock)
      && Buckets(history, firstEnqueue, lastEnqueue, enqueueBucket, bucketPackets, maximumBucketPackets)
    }

    /** When the next message is due. */
    ghost function Due(): real
      reads this
    {
      origin + Offset(sent, settings.period)
    }

    constructor (settings: Settings)
      requires settings.period > 0.0
      ensures Valid() && sent == 0 && this.settings == settings && clock == settings.start
    {
      this.settings := settings;
      origin, forgiven, sent := settings.start, 0.0, 0;
      firstEnqueue, lastEnqueue, enqueueBucket := 0.0, 0.0, 0;
      bucketPackets, maximumBucketPackets := 0, 0;
      history, clock := [], settings.start;
    }

    /** The pacing check: when may the next message leave? Debt beyond the credit is forgiven. */
    method Check(now: real) returns (due: real)
      requires Valid() && clock <= now
      modifies this`origin, this`forgiven, this`clock
      ensures Valid() && clock == now
      ensures due == origin + Offset(sent, settings.period)
      ensures origin - old(origin) == forgiven - old(forgiven) >= 0.0
      ensures settings.burst > 0 ==> now - Credit(settings) <= due
      ensures forgiven > old(forgiven) ==>
        settings.burst > 0 && due == now - Credit(settings)
    {
      clock := now;
      due := origin + Offset(sent, settings.period);
      if settings.burst != 0 {
        var earliest := now - Credit(settings);
        if due < earliest {
          var debt := earliest - due;
          origin := origin + debt;
          due := earliest;
          forgiven := forgiven + debt;
        }
      }
    }

    /** Account for a message accepted at `at`, which is not before it was due. */
    method Accepted(check: real, at: real)
      requires Valid() && clock == check <= at
      requires Due() <= at && (settings.burst > 0 ==> check - Credit(settings) <= Due())
      modifies this
      ensures Valid() && clock == at && sent == old(sent) + 1
      ensures history == old(history) + [Enqueue(check, origin, old(Due()), at)]
      ensures origin == old(origin) && forgiven == old(forgiven)
    {
      ghost var e := Enqueue(check, origin, origin + Offset(sent, settings.period), at);
      ProgressedNext(settings, history, origin, forgiven, check, e.due, at);
      CountBucket(e, at);
      history := history + [e];
      clock := at;
      sent := sent + 1;
    }

    /** The fixed one-millisecond bucket bookkeeping for one accepted message. */
    method CountBucket(ghost e: Enqueue, at: real)
      requires Paced(settings, history + [e]) && e.at == at && |history| == sent
      requires Buckets(history, firstEnqueue, lastEnqueue, enqueueBucket, bucketPackets, maximumBucketPackets)
      modifies this`firstEnqueue, this`lastEnqueue, this`enqueueBucket, this`bucketPackets, this`maximumBucketPackets
      ensures Buckets(history + [e], firstEnqueue, lastEnqueue, enqueueBucket, bucketPackets, maximumBucketPackets)
    {
      BucketStep(settings, history, e, firstEnqueue, lastEnqueue, enqueueBucket, bucketPackets, maximumBucketPackets);
      lastEnqueue := at;
      if sent == 0 {
        firstEnqueue := at;
      }
      var bucket := (lastEnqueue - firstEnqueue).Floor;
      if bucket != enqueueBucket {
        bucketPackets := 0;
        enqueueBucket := bucket;
      }
      bucketPackets := bucketPackets + 1;
      maximumBucketPackets := if bucketPackets > maximumBucketPackets then bucketPackets else maximumBucketPackets;
    }
  }

  method Elapse(from: real) returns (now: real)
    ensures now >= from
  {
    now := *;
    if now < from {
      now := from;
    }
  }

  /** Every message so far was due before the deadline. */
  ghost predicate Timely(h: seq<Enqueue>, deadline: real) {
    forall k :: 0 <= k < |h| ==> h[k].due < deadline
  }

  /** Is the next message due too late? */
  ghost predicate TooLate(p: PacingState, deadline: real)
    reads p
  {
    p.Due() >= deadline
  }

  /**
   One trip through the pacing branch: check, refuse a message that is due at the deadline or
   later, and otherwise sleep until it is due.
   */
  method Attempt(p: PacingState, deadline: real) returns (ok: bool, check: real, awake: real)
    requires p.Valid()
    modifies p
    ensures p.Valid() && p.sent == old(p.sent) && p.history == old(p.history) && p.origin >= old(p.origin)
    ensures ok <==> !TooLate(p, deadline)
    ensures ok ==> p.clock == check <= awake && p.Due() <= awake
    ensures ok && p.settings.burst > 0 ==> check - Credit(p.settings) <= p.Due()
  {
    check := Elapse(p.clock);
    var due := p.Check(check);
    awake := check;
    if due >= deadline {
      return false, check, awake;
    }
    awake := Elapse(if due > check then due else check);
    ok := true;
  }
}
