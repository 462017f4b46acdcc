/**
 The retransmission trace analysis: one pass over a sender's transport events that
 explains every retransmitted packet by the request that queued it. Events are
 identified by their position in the time-ordered trace.
 */
module RetransmissionTrace {
  import opened Common

  datatype Kind =
    | Bind | RequestNak | RequestTail | RequestAll | Queued | Selected
    | Ack | Nak | Timer | WireSend | Other

  datatype Event = Event(kind: Kind, pid: int, subject: int, a: int, b: int)

  datatype Trace = Trace(events: seq<Event>, sender: int)

  datatype Key = Key(session: int, sequence: int)

  predicate IsRequest(k: Kind) {
    k == RequestNak || k == RequestTail || k == RequestAll
  }

  /** Events that name a send buffer instead of its session. */
  predicate NamesBuffer(k: Kind) {
    IsRequest(k) || k == Queued || k == Selected
  }

  // ---------------------------------------------------------- latest matching event

  datatype Query =
    | Request(session: int) | Negative(session: int) | Elapsed(session: int) | Acknowledged(session: int)
    | Enqueued(key: Key) | Picked(key: Key) | Original(key: Key) | Resent(key: Key)

  /** The send buffer's session, as bound anywhere in the trace; other events name their session. */
  ghost function SessionOf(t: Trace, i: nat): Option<int>
    requires i < |t.events|
  {
    var e := t.events[i];
    if !NamesBuffer(e.kind) then Some(e.subject)
    else
      BoundAt(t, e.subject, |t.events|)
  }

  ghost predicate Binds(t: Trace, buffer: int, i: nat)
    requires i < |t.events|
  {
    t.events[i].kind == Bind && t.events[i].pid == t.sender && t.events[i].a == buffer
  }

  ghost function LastBinding(t: Trace, buffer: int, n: nat): int
    requires n <= |t.events|
    ensures LastBinding(t, buffer, n) < n
  {
    if n == 0 then -1 else if Binds(t, buffer, n - 1) then n - 1 else LastBinding(t, buffer, n - 1)
  }

  lemma {:induction false} LastBindingIs(t: Trace, buffer: int, n: nat)
    requires n <= |t.events|
    ensures
      var last := LastBinding(t, buffer, n);
      && (last >= 0 ==> Binds(t, buffer, last))
      && forall i :: 0 <= last < i < n || last < 0 <= i < n ==> !Binds(t, buffer, i)
  {
    if n > 0 {
      LastBindingIs(t, buffer, n - 1);
    }
  }

  ghost function BoundAt(t: Trace, buffer: int, n: nat): Option<int>
    requires n <= |t.events|
  {
    var last := LastBinding(t, buffer, n);
    if last < 0 then None else Some(t.events[last].subject)
  }

  /** Sender event i belongs to this session. */
  ghost predicate At(t: Trace, i: nat, session: int)
    requires i < |t.events|
  {
    t.events[i].pid == t.sender && SessionOf(t, i) == Some(session)
  }

  ghost predicate Matches(t: Trace, q: Query, i: nat)
    requires i < |t.events|
  {
    var e := t.events[i];
    match q
    case Request(s) => IsRequest(e.kind) && At(t, i, s)
    case Negative(s) => e.kind == Nak && At(t, i, s)
    case Elapsed(s) => e.kind == Timer && At(t, i, s)
    case Acknowledged(s) => e.kind == Ack && At(t, i, s)
    case Enqueued(k) => e.kind == Queued && At(t, i, k.session) && e.a == k.sequence
    case Picked(k) => e.kind == Selected && At(t, i, k.session) && e.a == k.sequence
    case Original(k) => e.kind == WireSend && e.b == 0 && At(t, i, k.session) && e.a == k.sequence
    case Resent(k) => e.kind == WireSend && e.b != 0 && At(t, i, k.session) && e.a == k.sequence
  }

  /** The latest match before position n, or -1. */
  ghost function Last(t: Trace, q: Query, n: nat): (r: int)
    requires n <= |t.events|
    ensures -1 <= r < n
    ensures r >= 0 ==> Matches(t, q, r)
  {
    if n == 0 then -1 else if Matches(t, q, n - 1) then n - 1 else Last(t, q, n - 1)
  }

  lemma {:induction false} LastIsLatest(t: Trace, q: Query, n: nat, i: nat)
    requires i < n <= |t.events| && Matches(t, q, i)
    ensures i <= Last(t, q, n)
  {
    if i < n - 1 && !Matches(t, q, n - 1) {
      LastIsLatest(t, q, n - 1, i);
    }
  }

  ghost predicate NoneBetween(t: Trace, q: Query, from: int, to: nat)
    requires to <= |t.events|
  {
    forall i: nat :: from < i < to ==> !Matches(t, q, i)
  }

  /** Position r is the latest match before n, or there is none and r is -1. */
  ghost predicate IsLatest(t: Trace, q: Query, n: nat, r: int)
    requires n <= |t.events|
  {
    -1 <= r < n && (r >= 0 ==> Matches(t, q, r)) && NoneBetween(t, q, r, n)
  }

  lemma LatestIff(t: Trace, q: Query, n: nat, r: int)
    requires n <= |t.events|
    ensures Last(t, q, n) == r <==> IsLatest(t, q, n, r)
  {
    var last := Last(t, q, n);
    forall i: nat | last < i < n
      ensures !Matches(t, q, i)
    {
      if Matches(t, q, i) {
        LastIsLatest(t, q, n, i);
      }
    }
  }

  // ------------------------------------------------------------- reference lineage

  /** Why a packet was queued: positions of its request, its queue entry and the request's trigger. */
  datatype Lineage = Lineage(request: int, queued: nat, trigger: int)

  ghost function LineageAt(t: Trace, session: int, queued: nat): Lineage
    requires queued < |t.events|
  {
    var request := Last(t, Request(session), queued);
    var trigger :=
      if request >= 0 && t.events[request].kind == RequestNak then Last(t, Negative(session), queued)
      else Last(t, Elapsed(session), queued);
    Lineage(request, queued, trigger)
  }

  /** The queue entry that is waiting for selection just before position n. */
  ghost function PendingAt(t: Trace, k: Key, n: nat): Option<Lineage>
    requires n <= |t.events|
  {
    var queued := Last(t, Enqueued(k), n);
    if queued > Last(t, Picked(k), n) then Some(LineageAt(t, k.session, queued)) else None
  }

  /** The selection that is waiting for its wire send just before position n. */
  ghost function SelectedAt(t: Trace, k: Key, n: nat): Option<Option<Lineage>>
    requires n <= |t.events|
  {
    var picked := Last(t, Picked(k), n);
    if picked > Last(t, Resent(k), n) then Some(PendingAt(t, k, picked)) else None
  }

  datatype Row = Row(key: Key, send: nat, lineage: Option<Lineage>, original: int, ack: int)

  ghost predicate IsResend(t: Trace, i: nat)
    requires i < |t.events|
  {
    t.events[i].pid == t.sender && t.events[i].kind == WireSend && t.events[i].b != 0
  }

  function KeyOf(e: Event): Key {
    Key(e.subject, e.a)
  }

  ghost function RowAt(t: Trace, i: nat): Row
    requires i < |t.events|
  {
    var k := KeyOf(t.events[i]);
    var lineage := match SelectedAt(t, k, i) case None => None case Some(l) => l;
    Row(k, i, lineage, Last(t, Original(k), i), Last(t, Acknowledged(k.session), i))
  }

  ghost function Rows(t: Trace, n: nat): seq<Row>
    requires n <= |t.events|
  {
    if n == 0 then [] else Rows(t, n - 1) + (if IsResend(t, n - 1) then [RowAt(t, n - 1)] else [])
  }

  ghost predicate IsOriginal(t: Trace, i: nat)
    requires i < |t.events|
  {
    t.events[i].pid == t.sender && t.events[i].kind == WireSend && t.events[i].b == 0
  }

  ghost function Originals(t: Trace, n: nat): nat
    requires n <= |t.events|
  {
    if n == 0 then 0 else Originals(t, n - 1) + (if IsOriginal(t, n - 1) then 1 else 0)
  }

  datatype Problem = UnmappedBuffer | NoRequest | NoTrigger | NoLineage

  /** What is wrong with a sender event on its own. */
  ghost predicate Faulty(t: Trace, i: nat, p: Problem)
    requires i < |t.events|
  {
    var e := t.events[i];
    && e.pid == t.sender
    && match p
      case UnmappedBuffer => SessionOf(t, i) == None
      case NoRequest => e.kind == Queued && SessionOf(t, i).Some? && LineageAt(t, SessionOf(t, i).value, i).request < 0
      case NoTrigger => e.kind == Queued && SessionOf(t, i).Some? && LineageAt(t, SessionOf(t, i).value, i).trigger < 0
      case NoLineage => IsResend(t, i) && Unexplained(RowAt(t, i))
  }

  predicate Unexplained(r: Row) {
    r.lineage.None? || r.lineage.value.request < 0 || r.original < 0
  }

  ghost predicate FaultyBefore(t: Trace, n: nat, p: Problem)
    requires n <= |t.events|
  {
    exists i :: 0 <= i < n && Faulty(t, i, p)
  }

  ghost predicate Acked(t: Trace, n: nat)
    requires n <= |t.events|
  {
    exists i :: 0 <= i < n && t.events[i].kind == Ack && t.events[i].pid == t.sender
  }

  /** The verdict as a statement about the whole trace. */
  ghost predicate Sound(t: Trace, originals: int, retransmissions: int) {
    var n := |t.events|;
    && (forall p :: !FaultyBefore(t, n, p))
    && Originals(t, n) == originals
    && |Rows(t, n)| == retransmissions
    && Acked(t, n)
  }

  // ------------------------------------------------------------- the whole-trace facts

  /** What a request answers: its own NAK request a NAK, every other request a timer. */
  ghost function Answers(t: Trace, session: int, request: nat): Query
    requires request < |t.events|
  {
    if t.events[request].kind == RequestNak then Negative(session) else Elapsed(session)
  }

  /**
   One retransmission explained: request < queue entry < selection < send, after an
   original send. Each of them, the request's trigger and the acknowledgement
   reported are the latest of their kind at their place.
   */
  ghost predicate Explained(t: Trace, r: Row, picked: nat) {
    && r.lineage.Some?
    && var l, s := r.lineage.value, r.key.session;
    && 0 <= l.request < l.queued < picked < r.send < |t.events| && r.original >= 0
    && Matches(t, Resent(r.key), r.send)
    && IsLatest(t, Request(s), l.queued, l.request)
    && IsLatest(t, Answers(t, s, l.request), l.queued, l.trigger)
    && IsLatest(t, Enqueued(r.key), picked, l.queued) && NoneBetween(t, Picked(r.key), l.queued, picked)
    && IsLatest(t, Picked(r.key), r.send, picked) && NoneBetween(t, Resent(r.key), picked, r.send)
    && IsLatest(t, Original(r.key), r.send, r.original)
    && IsLatest(t, Acknowledged(s), r.send, r.ack)
  }

  lemma {:induction false} RowsAre(t: Trace, n: nat, j: nat)
    requires n <= |t.events| && j < |Rows(t, n)|
    ensures
      var r := Rows(t, n)[j];
      && r.send < n && IsResend(t, r.send) && r == RowAt(t, r.send)
      && forall k :: 0 <= k < j ==> Rows(t, n)[k].send < r.send
  {
    if n > 0 {
      if j < |Rows(t, n - 1)| {
        RowsAre(t, n - 1, j);
      } else {
        forall k | 0 <= k < j ensures Rows(t, n)[k].send < n - 1 { RowsAre(t, n - 1, k); }
      }
    }
  }

  /** Each queueing problem, as a statement about the events before the queue entry. */
  lemma QueueFaultIff(t: Trace, i: nat, session: int)
    requires i < |t.events| && t.events[i].kind == Queued && At(t, i, session)
    ensures Faulty(t, i, NoRequest) <==> NoneBetween(t, Request(session), -1, i)
    ensures forall r: nat :: r < i && IsLatest(t, Request(session), i, r) ==>
      (Faulty(t, i, NoTrigger) <==> NoneBetween(t, Answers(t, session, r), -1, i))
    ensures NoneBetween(t, Request(session), -1, i) ==>
      (Faulty(t, i, NoTrigger) <==> NoneBetween(t, Elapsed(session), -1, i))
  {
    LatestIff(t, Request(session), i, -1);
    LatestIff(t, Negative(session), i, -1);
    LatestIff(t, Elapsed(session), i, -1);
    forall r: nat | r < i && IsLatest(t, Request(session), i, r)
      ensures Faulty(t, i, NoTrigger) <==> NoneBetween(t, Answers(t, session, r), -1, i)
    {
      LatestIff(t, Request(session), i, r);
    }
  }

  /** A send buffer counts as unmapped exactly if the sender never binds it. */
  lemma UnmappedIff(t: Trace, i: nat)
    requires i < |t.events| && t.events[i].pid == t.sender
    ensures Faulty(t, i, UnmappedBuffer) <==>
      NamesBuffer(t.events[i].kind) && forall j :: 0 <= j < |t.events| ==> !Binds(t, t.events[i].subject, j)
  {
    LastBindingIs(t, t.events[i].subject, |t.events|);
  }

  lemma ExplainedUnlessFaulty(t: Trace, i: nat)
    requires i < |t.events| && IsResend(t, i) && !Faulty(t, i, NoLineage)
    ensures Explained(t, RowAt(t, i), Last(t, Picked(KeyOf(t.events[i])), i))
  {
    var r := RowAt(t, i);
    var k, l, picked := r.key, r.lineage.value, Last(t, Picked(r.key), i);
    LatestIff(t, Request(k.session), l.queued, l.request);
    LatestIff(t, Answers(t, k.session, l.request), l.queued, l.trigger);
    LatestIff(t, Enqueued(k), picked, l.queued);
    LatestIff(t, Picked(k), picked, Last(t, Picked(k), picked));
    LatestIff(t, Picked(k), i, picked);
    LatestIff(t, Resent(k), i, Last(t, Resent(k), i));
    LatestIff(t, Original(k), i, r.original);
    LatestIff(t, Acknowledged(k.session), i, r.ack);
  }

  lemma PendingIs(t: Trace, k: Key, n: nat, l: Lineage)
    requires 0 <= l.request < l.queued < n <= |t.events|
    requires IsLatest(t, Request(k.session), l.queued, l.request)
    requires IsLatest(t, Answers(t, k.session, l.request), l.queued, l.trigger)
    requires IsLatest(t, Enqueued(k), n, l.queued) && NoneBetween(t, Picked(k), l.queued, n)
    ensures PendingAt(t, k, n) == Some(l)
  {
    LatestIff(t, Request(k.session), l.queued, l.request);
    LatestIff(t, Answers(t, k.session, l.request), l.queued, l.trigger);
    LatestIff(t, Enqueued(k), n, l.queued);
    LatestIff(t, Picked(k), n, Last(t, Picked(k), n));
  }

  lemma SelectedIs(t: Trace, k: Key, n: nat, picked: nat, l: Lineage)
    requires picked < n <= |t.events| && PendingAt(t, k, picked) == Some(l)
    requires IsLatest(t, Picked(k), n, picked) && NoneBetween(t, Resent(k), picked, n)
    ensures SelectedAt(t, k, n) == Some(Some(l))
  {
    LatestIff(t, Picked(k), n, picked);
    LatestIff(t, Resent(k), n, Last(t, Resent(k), n));
  }

  /** Nothing else can explain a retransmission, and one that is explained is not reported. */
  lemma ExplainedIs(t: Trace, r: Row, picked: nat)
    requires Explained(t, r, picked)
    ensures IsResend(t, r.send) && r == RowAt(t, r.send) && !Faulty(t, r.send, NoLineage)
  {
    var k, l := r.key, r.lineage.value;
    PendingIs(t, k, picked, l);
    SelectedIs(t, k, r.send, picked, l);
    LatestIff(t, Original(k), r.send, r.original);
    LatestIff(t, Acknowledged(k.session), r.send, r.ack);
  }

  /** In a sound trace every retransmission has its full chain. */
  lemma SoundExplains(t: Trace, originals: int, retransmissions: int, j: nat)
    requires Sound(t, originals, retransmissions) && j < |Rows(t, |t.events|)|
    ensures
      var r := Rows(t, |t.events|)[j];
      r.lineage.Some? && r.lineage.value.trigger >= 0 && exists picked: nat :: Explained(t, r, picked)
  {
    RowsAre(t, |t.events|, j);
    var r := Rows(t, |t.events|)[j];
    assert !FaultyBefore(t, |t.events|, NoLineage);
    ExplainedUnlessFaulty(t, r.send);
    assert !FaultyBefore(t, |t.events|, NoTrigger);
    assert !Faulty(t, r.lineage.value.queued, NoTrigger);
  }

  lemma ExplainedApart(t: Trace, a: Row, b: Row, first: nat, second: nat)
    requires Explained(t, a, first) && Explained(t, b, second) && a.send < b.send
    ensures a.lineage.value.queued != b.lineage.value.queued
  {
  }

  /** No queue entry explains two retransmissions. */
  lemma SoundInjective(t: Trace, originals: int, retransmissions: int, i: nat, j: nat)
    requires Sound(t, originals, retransmissions) && i < j < |Rows(t, |t.events|)|
    ensures
      var a, b := Rows(t, |t.events|)[i], Rows(t, |t.events|)[j];
      a.lineage.Some? && b.lineage.Some? && a.lineage.value.queued != b.lineage.value.queued
  {
    var rows := Rows(t, |t.events|);
    SoundExplains(t, originals, retransmissions, i);
    SoundExplains(t, originals, retransmissions, j);
    var first: nat :| Explained(t, rows[i], first);
    var second: nat :| Explained(t, rows[j], second);
    RowsAre(t, |t.events|, j);
    ExplainedApart(t, rows[i], rows[j], first, second);
  }

  /** An original send, an acknowledgement, `cause`, then a request of this kind and the packet sent again. */
  function Ordinary(kind: Kind, cause: Kind, sender: int, session: int, buffer: int, sequence: int): Trace {
    Trace([
      Event(Bind, sender, session, buffer, 0), Event(WireSend, sender, session, sequence, 0),
      Event(Ack, sender, session, 0, 0), Event(cause, sender, session, 0, 0), Event(kind, sender, buffer, 0, 0),
      Event(Queued, sender, buffer, sequence, 0), Event(Selected, sender, buffer, sequence, 0),
      Event(WireSend, sender, session, sequence, 1)
    ], sender)
  }

  /** The same trace with its send buffer resolved. */
  ghost predicate Chained(t: Trace, kind: Kind, cause: Kind, k: Key) {
    && |t.events| == 8 && (forall i :: 0 <= i < 8 ==> At(t, i, k.session))
    && t.events[0].kind == Bind && t.events[1].kind == WireSend && t.events[1].b == 0 && t.events[1].a == k.sequence
    && t.events[2].kind == Ack && t.events[3].kind == cause && t.events[4].kind == kind
    && t.events[5].kind == Queued && t.events[5].a == k.sequence
    && t.events[6].kind == Selected && t.events[6].a == k.sequence
    && t.events[7].kind == WireSend && t.events[7].b == 1 && KeyOf(t.events[7]) == k
  }

  lemma OrdinaryBound(kind: Kind, cause: Kind, sender: int, session: int, buffer: int, sequence: int)
    requires kind in {RequestNak, RequestTail, RequestAll} && cause in {Nak, Timer}
    ensures Chained(Ordinary(kind, cause, sender, session, buffer, sequence), kind, cause, Key(session, sequence))
  {
    var t := Ordinary(kind, cause, sender, session, buffer, sequence);
    assert Binds(t, buffer, 0);
    LastBindingIs(t, buffer, 8);
    assert BoundAt(t, buffer, 8) == Some(session);
  }

  lemma ChainExplained(t: Trace, kind: Kind, cause: Kind, k: Key)
    requires kind in {RequestNak, RequestTail, RequestAll} && cause in {Nak, Timer} && Chained(t, kind, cause, k)
    ensures
      var trigger := if kind == RequestNak <==> cause == Nak then 3 else -1;
      Explained(t, Row(k, 7, Some(Lineage(4, 5, trigger)), 1, 2), 6)
  {
  }

  lemma ChainCounts(t: Trace, kind: Kind, cause: Kind, k: Key)
    requires kind in {RequestNak, RequestTail, RequestAll} && cause in {Nak, Timer} && Chained(t, kind, cause, k)
    ensures |Rows(t, 8)| == 1 && Originals(t, 8) == 1 && Acked(t, 8)
  {
    assert At(t, 1, k.session) && At(t, 2, k.session) && At(t, 7, k.session);
    for i := 0 to 7
      invariant Rows(t, i) == [] && Originals(t, i) == if i < 2 then 0 else 1
    {
    }
  }

  lemma ChainQueued(t: Trace, kind: Kind, cause: Kind, k: Key)
    requires kind in {RequestNak, RequestTail, RequestAll} && cause in {Nak, Timer} && Chained(t, kind, cause, k)
    ensures !Faulty(t, 5, NoRequest) && (Faulty(t, 5, NoTrigger) <==> !(kind == RequestNak <==> cause == Nak))
  {
    ChainExplained(t, kind, cause, k);
    assert At(t, 3, k.session) && At(t, 4, k.session) && At(t, 5, k.session);
    QueueFaultIff(t, 5, k.session);
    assert Matches(t, Request(k.session), 4);
  }

  lemma ChainSent(t: Trace, kind: Kind, cause: Kind, k: Key)
    requires kind in {RequestNak, RequestTail, RequestAll} && cause in {Nak, Timer} && Chained(t, kind, cause, k)
    ensures !Faulty(t, 7, NoLineage)
  {
    ChainExplained(t, kind, cause, k);
    ExplainedIs(t, Row(k, 7, Some(Lineage(4, 5, if kind == RequestNak <==> cause == Nak then 3 else -1)), 1, 2), 6);
  }

  lemma FaultyOnlyAt(t: Trace, i: nat, p: Problem, session: int)
    requires i < |t.events| && At(t, i, session) && Faulty(t, i, p)
    ensures (p == NoLineage && IsResend(t, i)) || ((p == NoRequest || p == NoTrigger) && t.events[i].kind == Queued)
  {
  }

  lemma ChainFaults(t: Trace, kind: Kind, cause: Kind, k: Key)
    requires kind in {RequestNak, RequestTail, RequestAll} && cause in {Nak, Timer} && Chained(t, kind, cause, k)
    ensures forall p :: FaultyBefore(t, 8, p) <==> p == NoTrigger && !(kind == RequestNak <==> cause == Nak)
  {
    ChainSent(t, kind, cause, k);
    ChainQueued(t, kind, cause, k);
    forall p
      ensures FaultyBefore(t, 8, p) <==> p == NoTrigger && !(kind == RequestNak <==> cause == Nak)
    {
      if i: nat :| i < 8 && Faulty(t, i, p) {
        FaultyOnlyAt(t, i, p, k.session);
        assert i == 5 || i == 7;
      }
    }
  }

  /** A retransmission in answer to the right trigger is valid for each kind of request; any other trigger is missed. */
  lemma OrdinarySound(kind: Kind, cause: Kind, sender: int, session: int, buffer: int, sequence: int)
    requires kind in {RequestNak, RequestTail, RequestAll} && cause in {Nak, Timer}
    ensures
      var t := Ordinary(kind, cause, sender, session, buffer, sequence);
      Sound(t, 1, 1) <==> (kind == RequestNak <==> cause == Nak)
  {
    var t := Ordinary(kind, cause, sender, session, buffer, sequence);
    OrdinaryBound(kind, cause, sender, session, buffer, sequence);
    ChainCounts(t, kind, cause, Key(session, sequence));
    ChainFaults(t, kind, cause, Key(session, sequence));
    assert |t.events| == 8;
    assert FaultyBefore(t, 8, NoTrigger) <==> !(kind == RequestNak <==> cause == Nak);
  }

  // ----------------------------------------------------------------- the one-pass analysis

  function Get<K, V>(m: map<K, V>, k: K): Option<V> {
    if k in m then Some(m[k]) else None
  }

  function Position(o: Option<nat>): int {
    match o case None => -1 case Some(i) => i
  }

  datatype State = State(
    causes: map<int, nat>,
    naks: map<int, nat>,
    timers: map<int, nat>,
    acks: map<int, nat>,
    originals: map<Key, nat>,
    pending: map<Key, Lineage>,
    selected: map<Key, Option<Lineage>>,
    rows: seq<Row>,
    wireOriginals: nat,
    problems: set<Problem>)

  /** A dictionary holds exactly the latest event for each of its keys. */
  ghost predicate Latest<K(!new)>(t: Trace, n: nat, m: map<K, nat>, q: K -> Query)
    requires n <= |t.events|
  {
    forall x :: Position(Get(m, x)) == Last(t, q(x), n)
  }

  ghost function RequestOf(session: int): Query { Request(session) }
  ghost function NegativeOf(session: int): Query { Negative(session) }
  ghost function ElapsedOf(session: int): Query { Elapsed(session) }
  ghost function AcknowledgedOf(session: int): Query { Acknowledged(session) }
  ghost function OriginalOf(key: Key): Query { Original(key) }

  /** The dictionaries hold exactly the latest events. */
  ghost predicate Indexed(t: Trace, n: nat, s: State)
    requires n <= |t.events|
  {
    && Latest(t, n, s.causes, RequestOf)
    && Latest(t, n, s.naks, NegativeOf)
    && Latest(t, n, s.timers, ElapsedOf)
    && Latest(t, n, s.acks, AcknowledgedOf)
    && Latest(t, n, s.originals, OriginalOf)
  }

  ghost predicate Tracked(t: Trace, n: nat, s: State)
    requires n <= |t.events|
  {
    && (forall k :: Get(s.pending, k) == PendingAt(t, k, n))
    && (forall k :: Get(s.selected, k) == SelectedAt(t, k, n))
  }

  ghost predicate Reported(t: Trace, n: nat, s: State)
    requires n <= |t.events|
  {
    && s.rows == Rows(t, n)
    && s.wireOriginals == Originals(t, n)
    && (s.acks == map[] <==> !Acked(t, n))
    && (forall p :: p in s.problems <==> FaultyBefore(t, n, p))
  }

  ghost predicate Models(t: Trace, n: nat, s: State) {
    n <= |t.events| && Indexed(t, n, s) && Tracked(t, n, s) && Reported(t, n, s)
  }

  lemma PendingStep(t: Trace, k: Key, n: nat)
    requires n < |t.events|
    ensures PendingAt(t, k, n + 1) ==
      if Matches(t, Enqueued(k), n) then Some(LineageAt(t, k.session, n))
      else if Matches(t, Picked(k), n) then None
      else PendingAt(t, k, n)
  {
  }

  lemma SelectedStep(t: Trace, k: Key, n: nat)
    requires n < |t.events|
    ensures SelectedAt(t, k, n + 1) ==
      if Matches(t, Picked(k), n) then Some(PendingAt(t, k, n))
      else if Matches(t, Resent(k), n) then None
      else SelectedAt(t, k, n)
  {
  }

  /** The session a sender event belongs to, from the bindings collected over the whole trace. */
  function Resolve(bindings: map<int, int>, e: Event): Option<int> {
    if NamesBuffer(e.kind) then Get(bindings, e.subject) else Some(e.subject)
  }

  /** The dictionary of bound send buffers; a later binding replaces an earlier one. */
  method CollectBindings(t: Trace) returns (bindings: map<int, int>)
    ensures forall i :: 0 <= i < |t.events| ==> Resolve(bindings, t.events[i]) == SessionOf(t, i)
  {
    bindings := map[];
    for n := 0 to |t.events|
      invariant forall b :: Get(bindings, b) == BoundAt(t, b, n)
    {
      var e := t.events[n];
      ghost var before := bindings;
      if e.kind == Bind && e.pid == t.sender {
        bindings := bindings[e.a := e.subject];
      }
      forall b
        ensures Get(bindings, b) == BoundAt(t, b, n + 1)
      {
        assert Get(before, b) == BoundAt(t, b, n);
      }
    }
  }

  /** What a queue entry at position n records. */
  function Cause(t: Trace, s: State, session: int, n: nat): Lineage
    requires session in s.causes ==> s.causes[session] < |t.events|
  {
    var request := Position(Get(s.causes, session));
    var trigger :=
      if request >= 0 && t.events[request].kind == RequestNak then Position(Get(s.naks, session))
      else Position(Get(s.timers, session));
    Lineage(request, n, trigger)
  }

  /** Problems of event n are exactly those it adds. */
  ghost predicate Adds(t: Trace, n: nat, before: set<Problem>, after: set<Problem>)
    requires n < |t.events|
  {
    forall p :: p in after <==> p in before || Faulty(t, n, p)
  }

  lemma AddsNothing(t: Trace, n: nat, before: set<Problem>)
    requires n < |t.events| && t.events[n].kind != Queued && !IsResend(t, n)
    requires t.events[n].pid == t.sender ==> SessionOf(t, n).Some?
    ensures Adds(t, n, before, before)
  {
  }

  lemma AddsQueueFaults(t: Trace, n: nat, before: set<Problem>, l: Lineage)
    requires n < |t.events| && t.events[n].kind == Queued && t.events[n].pid == t.sender
    requires SessionOf(t, n).Some? && l == LineageAt(t, SessionOf(t, n).value, n)
    ensures Adds(t, n, before,
      before + (if l.request < 0 then {NoRequest} else {}) + (if l.trigger < 0 then {NoTrigger} else {}))
  {
  }

  lemma AddsResendFaults(t: Trace, n: nat, before: set<Problem>, r: Row)
    requires n < |t.events| && IsResend(t, n) && r == RowAt(t, n)
    ensures Adds(t, n, before, before + (if Unexplained(r) then {NoLineage} else {}))
  {
  }

  lemma AddsUnmapped(t: Trace, n: nat, before: set<Problem>)
    requires n < |t.events| && t.events[n].pid == t.sender && SessionOf(t, n).None?
    ensures Adds(t, n, before, before + {UnmappedBuffer})
  {
  }

  lemma ReportedStep(t: Trace, n: nat, s: State, u: State)
    requires n < |t.events| && Reported(t, n, s) && Adds(t, n, s.problems, u.problems)
    requires u.rows == s.rows + (if IsResend(t, n) then [RowAt(t, n)] else [])
    requires u.wireOriginals == s.wireOriginals + (if IsOriginal(t, n) then 1 else 0)
    requires
      var ack := t.events[n].kind == Ack && t.events[n].pid == t.sender;
      (ack ==> u.acks != map[]) && (!ack ==> u.acks == s.acks)
    ensures Reported(t, n + 1, u)
  {
  }

  lemma TrackedStep(t: Trace, n: nat, s: State, u: State, session: int)
    requires n < |t.events| && Tracked(t, n, s) && Owner(t, n) == Some(session)
    requires
      var e, k := t.events[n], Key(session, t.events[n].a);
      && u.pending == (if e.kind == Queued then s.pending[k := LineageAt(t, session, n)]
                       else if e.kind == Selected then s.pending - {k} else s.pending)
      && u.selected == (if e.kind == Selected then s.selected[k := PendingAt(t, k, n)]
                        else if IsResend(t, n) then s.selected - {k} else s.selected)
    ensures Tracked(t, n + 1, u)
  {
    forall k
      ensures Get(u.pending, k) == PendingAt(t, k, n + 1)
    {
      PendingStep(t, k, n);
      assert Get(s.pending, k) == PendingAt(t, k, n);
    }
    forall k
      ensures Get(u.selected, k) == SelectedAt(t, k, n + 1)
    {
      SelectedStep(t, k, n);
      assert Get(s.selected, k) == SelectedAt(t, k, n);
    }
  }

  /** The session that event n belongs to, if it is a mapped sender event. */
  ghost function Owner(t: Trace, n: nat): Option<int>
    requires n < |t.events|
  {
    if t.events[n].pid == t.sender then SessionOf(t, n) else None
  }

  lemma TrackedKept(t: Trace, n: nat, s: State)
    requires n < |t.events| && Tracked(t, n, s) && Owner(t, n).None?
    ensures Tracked(t, n + 1, s)
  {
  }

  /** Each dictionary moves at the events of its own kind and nowhere else. */
  lemma CausesStep(t: Trace, n: nat, m: map<int, nat>, session: int)
    requires n < |t.events| && Latest(t, n, m, RequestOf)
    requires Owner(t, n).Some? ==> Owner(t, n) == Some(session)
    ensures Latest(t, n + 1, if Owner(t, n).Some? && IsRequest(t.events[n].kind) then m[session := n] else m, RequestOf)
  {
  }

  lemma NaksStep(t: Trace, n: nat, m: map<int, nat>, session: int)
    requires n < |t.events| && Latest(t, n, m, NegativeOf)
    requires Owner(t, n).Some? ==> Owner(t, n) == Some(session)
    ensures Latest(t, n + 1, if Owner(t, n).Some? && t.events[n].kind == Nak then m[session := n] else m, NegativeOf)
  {
  }

  lemma TimersStep(t: Trace, n: nat, m: map<int, nat>, session: int)
    requires n < |t.events| && Latest(t, n, m, ElapsedOf)
    requires Owner(t, n).Some? ==> Owner(t, n) == Some(session)
    ensures Latest(t, n + 1, if Owner(t, n).Some? && t.events[n].kind == Timer then m[session := n] else m, ElapsedOf)
  {
  }

  lemma AcksStep(t: Trace, n: nat, m: map<int, nat>, session: int)
    requires n < |t.events| && Latest(t, n, m, AcknowledgedOf)
    requires Owner(t, n).Some? ==> Owner(t, n) == Some(session)
    ensures Latest(t, n + 1, if Owner(t, n).Some? && t.events[n].kind == Ack then m[session := n] else m, AcknowledgedOf)
  {
  }

  lemma OriginalsStep(t: Trace, n: nat, m: map<Key, nat>, k: Key)
    requires n < |t.events| && Latest(t, n, m, OriginalOf)
    requires Owner(t, n).Some? ==> Owner(t, n) == Some(k.session) && k.sequence == t.events[n].a
    ensures Latest(t, n + 1, if IsOriginal(t, n) then m[k := n] else m, OriginalOf)
  {
  }

  lemma IndexedStep(t: Trace, n: nat, s: State, u: State, session: int)
    requires n < |t.events| && Indexed(t, n, s)
    requires Owner(t, n).Some? ==> Owner(t, n) == Some(session)
    requires
      var e, k, mine := t.events[n], Key(session, t.events[n].a), Owner(t, n).Some?;
      && u.causes == (if mine && IsRequest(e.kind) then s.causes[session := n] else s.causes)
      && u.naks == (if mine && e.kind == Nak then s.naks[session := n] else s.naks)
      && u.timers == (if mine && e.kind == Timer then s.timers[session := n] else s.timers)
      && u.acks == (if mine && e.kind == Ack then s.acks[session := n] else s.acks)
      && u.originals == (if IsOriginal(t, n) then s.originals[k := n] else s.originals)
    ensures Indexed(t, n + 1, u)
  {
    CausesStep(t, n, s.causes, session);
    NaksStep(t, n, s.naks, session);
    TimersStep(t, n, s.timers, session);
    AcksStep(t, n, s.acks, session);
    OriginalsStep(t, n, s.originals, Key(session, t.events[n].a));
  }

  /** The dictionaries answer for one session and key just before position n. */
  lemma Lookups(t: Trace, n: nat, s: State, k: Key)
    requires Models(t, n, s)
    ensures Position(Get(s.causes, k.session)) == Last(t, Request(k.session), n)
    ensures Position(Get(s.naks, k.session)) == Last(t, Negative(k.session), n)
    ensures Position(Get(s.timers, k.session)) == Last(t, Elapsed(k.session), n)
    ensures Position(Get(s.acks, k.session)) == Last(t, Acknowledged(k.session), n)
    ensures Position(Get(s.originals, k)) == Last(t, Original(k), n)
    ensures Get(s.pending, k) == PendingAt(t, k, n)
    ensures Get(s.selected, k) == SelectedAt(t, k, n)
  {
  }

  lemma Concluded(t: Trace, n: nat, s: State, u: State, session: int)
    requires n < |t.events| && Models(t, n, s) && Owner(t, n) == Some(session) && Adds(t, n, s.problems, u.problems)
    requires
      var e, k := t.events[n], Key(session, t.events[n].a);
      && u.causes == (if IsRequest(e.kind) then s.causes[session := n] else s.causes)
      && u.naks == (if e.kind == Nak then s.naks[session := n] else s.naks)
      && u.timers == (if e.kind == Timer then s.timers[session := n] else s.timers)
      && u.acks == (if e.kind == Ack then s.acks[session := n] else s.acks)
      && u.originals == (if IsOriginal(t, n) then s.originals[k := n] else s.originals)
      && u.pending == (if e.kind == Queued then s.pending[k := LineageAt(t, session, n)]
                       else if e.kind == Selected then s.pending - {k} else s.pending)
      && u.selected == (if e.kind == Selected then s.selected[k := PendingAt(t, k, n)]
                        else if IsResend(t, n) then s.selected - {k} else s.selected)
      && u.rows == s.rows + (if IsResend(t, n) then [RowAt(t, n)] else [])
      && u.wireOriginals == s.wireOriginals + (if IsOriginal(t, n) then 1 else 0)
    ensures Models(t, n + 1, u)
  {
    IndexedStep(t, n, s, u, session);
    TrackedStep(t, n, s, u, session);
    assert t.events[n].kind == Ack ==> session in u.acks;
    ReportedStep(t, n, s, u);
  }

  /** An event that is neither queueing, selection nor a send changes only the per-session memories. */
  lemma ConcludedQuietly(t: Trace, n: nat, s: State, u: State, session: int)
    requires n < |t.events| && Models(t, n, s) && Owner(t, n) == Some(session)
    requires
      var e := t.events[n];
      && e.kind !in {Queued, Selected, WireSend}
      && u == s.(
        causes := if IsRequest(e.kind) then s.causes[session := n] else s.causes,
        naks := if e.kind == Nak then s.naks[session := n] else s.naks,
        timers := if e.kind == Timer then s.timers[session := n] else s.timers,
        acks := if e.kind == Ack then s.acks[session := n] else s.acks)
    ensures Models(t, n + 1, u)
  {
    assert s.rows + [] == s.rows;
    AddsNothing(t, n, s.problems);
    Concluded(t, n, s, u, session);
  }

  lemma ConcludedQueueing(t: Trace, n: nat, s: State, u: State, k: Key)
    requires n < |t.events| && Models(t, n, s) && Owner(t, n) == Some(k.session)
    requires t.events[n].kind == Queued && k.sequence == t.events[n].a
    requires u == s.(pending := s.pending[k := LineageAt(t, k.session, n)], problems := u.problems)
    requires Adds(t, n, s.problems, u.problems)
    ensures Models(t, n + 1, u)
  {
    assert s.rows + [] == s.rows;
    Concluded(t, n, s, u, k.session);
  }

  lemma ConcludedResending(t: Trace, n: nat, s: State, u: State, k: Key)
    requires n < |t.events| && Models(t, n, s) && Owner(t, n) == Some(k.session)
    requires IsResend(t, n) && k.sequence == t.events[n].a
    requires u == s.(selected := s.selected - {k}, rows := s.rows + [RowAt(t, n)], problems := u.problems)
    requires Adds(t, n, s.problems, u.problems)
    ensures Models(t, n + 1, u)
  {
    Concluded(t, n, s, u, k.session);
  }

  /** The row of a retransmission, from the dictionaries. */
  method Lineaged(t: Trace, n: nat, s: State, k: Key) returns (row: Row)
    requires n < |t.events| && Models(t, n, s) && IsResend(t, n) && k == KeyOf(t.events[n])
    ensures row == RowAt(t, n)
  {
    Lookups(t, n, s, k);
    var lineage := match Get(s.selected, k) case None => None case Some(l) => l;
    row := Row(k, n, lineage, Position(Get(s.originals, k)), Position(Get(s.acks, k.session)));
  }

  /** Requests, acknowledgements, NAKs and timers are remembered per session. */
  method Remember(t: Trace, n: nat, s: State, session: int) returns (u: State)
    requires n < |t.events| && Models(t, n, s) && Owner(t, n) == Some(session)
    requires t.events[n].kind !in {Queued, Selected, WireSend}
    ensures Models(t, n + 1, u)
  {
    var kind := t.events[n].kind;
    u := s;
    if IsRequest(kind) {
      u := u.(causes := u.causes[session := n]);
    } else if kind == Ack {
      u := u.(acks := u.acks[session := n]);
    } else if kind == Nak {
      u := u.(naks := u.naks[session := n]);
    } else if kind == Timer {
      u := u.(timers := u.timers[session := n]);
    }
    ConcludedQuietly(t, n, s, u, session);
  }

  /** A queue entry records the latest request and what triggered it. */
  method Enqueue(t: Trace, n: nat, s: State, k: Key) returns (u: State)
    requires n < |t.events| && Models(t, n, s) && Owner(t, n) == Some(k.session)
    requires t.events[n].kind == Queued && k.sequence == t.events[n].a
    ensures Models(t, n + 1, u)
  {
    Lookups(t, n, s, k);
    var lineage := Cause(t, s, k.session, n);
    var noRequest := if lineage.request < 0 then {NoRequest} else {};
    var noTrigger := if lineage.trigger < 0 then {NoTrigger} else {};
    u := s.(pending := s.pending[k := lineage], problems := s.problems + noRequest + noTrigger);
    AddsQueueFaults(t, n, s.problems, lineage);
    ConcludedQueueing(t, n, s, u, k);
  }

  /** A selection takes the queue entry over. */
  method Select(t: Trace, n: nat, s: State, k: Key) returns (u: State)
    requires n < |t.events| && Models(t, n, s) && Owner(t, n) == Some(k.session)
    requires t.events[n].kind == Selected && k.sequence == t.events[n].a
    ensures Models(t, n + 1, u)
  {
    Lookups(t, n, s, k);
    u := s.(selected := s.selected[k := Get(s.pending, k)], pending := s.pending - {k});
    assert s.rows + [] == s.rows;
    AddsNothing(t, n, s.problems);
    Concluded(t, n, s, u, k.session);
  }

  /** An original send is remembered; a retransmission consumes its selection and becomes a row. */
  method Send(t: Trace, n: nat, s: State, k: Key) returns (u: State)
    requires n < |t.events| && Models(t, n, s) && Owner(t, n) == Some(k.session)
    requires t.events[n].kind == WireSend && k.sequence == t.events[n].a
    ensures Models(t, n + 1, u)
  {
    if t.events[n].b == 0 {
      u := s.(originals := s.originals[k := n], wireOriginals := s.wireOriginals + 1);
      assert s.rows + [] == s.rows;
      AddsNothing(t, n, s.problems);
      Concluded(t, n, s, u, k.session);
    } else {
      u := Resend(t, n, s, k);
    }
  }

  method Resend(t: Trace, n: nat, s: State, k: Key) returns (u: State)
    requires n < |t.events| && Models(t, n, s) && Owner(t, n) == Some(k.session)
    requires IsResend(t, n) && k.sequence == t.events[n].a
    ensures Models(t, n + 1, u)
  {
    var row := Lineaged(t, n, s, k);
    var unexplained := if Unexplained(row) then {NoLineage} else {};
    u := s.(selected := s.selected - {k}, rows := s.rows + [row], problems := s.problems + unexplained);
    AddsResendFaults(t, n, s.problems, row);
    ConcludedResending(t, n, s, u, k);
  }

  /** A sender event of a known session. */
  method Dispatch(t: Trace, n: nat, s: State, session: int) returns (u: State)
    requires n < |t.events| && Models(t, n, s) && Owner(t, n) == Some(session)
    ensures Models(t, n + 1, u)
  {
    var e := t.events[n];
    match e.kind
    case Queued => u := Enqueue(t, n, s, Key(session, e.a));
    case Selected => u := Select(t, n, s, Key(session, e.a));
    case WireSend => u := Send(t, n, s, Key(session, e.a));
    case _ => u := Remember(t, n, s, session);
  }

  /** One event of the pass. */
  method Process(t: Trace, n: nat, s: State, bindings: map<int, int>) returns (u: State)
    requires n < |t.events| && Models(t, n, s)
    requires Resolve(bindings, t.events[n]) == SessionOf(t, n)
    ensures Models(t, n + 1, u)
  {
    var e := t.events[n];
    var bound := Resolve(bindings, e);
    if e.pid == t.sender && bound.Some? {
      u := Dispatch(t, n, s, bound.value);
      return;
    }
    u := if e.pid == t.sender then s.(problems := s.problems + {UnmappedBuffer}) else s;
    if e.pid == t.sender {
      AddsUnmapped(t, n, s.problems);
    }
    IndexedStep(t, n, s, u, 0);
    TrackedKept(t, n, s);
    ReportedStep(t, n, s, u);
  }

  // ------------------------------------------------------------------------- report

  /** Why a packet was sent again: the kind of the request behind it, if there is one. */
  function ReasonOf(t: Trace, r: Row): Option<Kind> {
    if r.lineage.None? || !(0 <= r.lineage.value.request < |t.events|) then None
    else Some(t.events[r.lineage.value.request].kind)
  }

  ghost function CountOf(t: Trace, rows: seq<Row>, reason: Option<Kind>): nat {
    if rows == [] then 0
    else CountOf(t, rows[..|rows| - 1], reason) + (if ReasonOf(t, rows[|rows| - 1]) == reason then 1 else 0)
  }

  /** The reason counter. */
  method CountReasons(t: Trace, rows: seq<Row>) returns (reasons: map<Option<Kind>, nat>)
    ensures forall r :: (if r in reasons then reasons[r] else 0) == CountOf(t, rows, r)
  {
    reasons := map[];
    for i := 0 to |rows|
      invariant forall r :: (if r in reasons then reasons[r] else 0) == CountOf(t, rows[..i], r)
    {
      var reason := ReasonOf(t, rows[i]);
      assert rows[..i + 1][..i] == rows[..i];
      reasons := reasons[reason := (if reason in reasons then reasons[reason] else 0) + 1];
    }
    assert rows[..|rows|] == rows;
  }

  predicate IsReason(reason: Option<Kind>) {
    reason == None || IsRequest(reason.value)
  }

  lemma ReasonsKnown(t: Trace, i: nat)
    requires i < |t.events|
    ensures IsReason(ReasonOf(t, RowAt(t, i)))
  {
  }

  ghost function Total(t: Trace, rows: seq<Row>): nat {
    CountOf(t, rows, Some(RequestNak)) + CountOf(t, rows, Some(RequestTail)) + CountOf(t, rows, Some(RequestAll))
    + CountOf(t, rows, None)
  }

  lemma {:induction false} KnownAddUp(t: Trace, rows: seq<Row>)
    requires forall j :: 0 <= j < |rows| ==> IsReason(ReasonOf(t, rows[j]))
    ensures Total(t, rows) == |rows|
  {
    if rows != [] {
      KnownAddUp(t, rows[..|rows| - 1]);
    }
  }

  /** The reasons account for every row. */
  lemma ReasonsAddUp(t: Trace, n: nat)
    requires n <= |t.events|
    ensures Total(t, Rows(t, n)) == |Rows(t, n)|
  {
    forall j | 0 <= j < |Rows(t, n)|
      ensures IsReason(ReasonOf(t, Rows(t, n)[j]))
    {
      RowsAre(t, n, j);
      ReasonsKnown(t, Rows(t, n)[j].send);
    }
    KnownAddUp(t, Rows(t, n));
  }

  lemma {:induction false} NoneUnknown(t: Trace, rows: seq<Row>)
    requires forall j :: 0 <= j < |rows| ==> ReasonOf(t, rows[j]) != None
    ensures CountOf(t, rows, None) == 0
  {
    if rows != [] {
      NoneUnknown(t, rows[..|rows| - 1]);
    }
  }

  /** In a sound trace every retransmission has a known reason, and the known reasons sum to their number. */
  lemma SoundReasons(t: Trace, originals: int, retransmissions: int)
    requires Sound(t, originals, retransmissions)
    ensures
      var rows := Rows(t, |t.events|);
      CountOf(t, rows, Some(RequestNak)) + CountOf(t, rows, Some(RequestTail)) + CountOf(t, rows, Some(RequestAll))
        == retransmissions
  {
    var rows := Rows(t, |t.events|);
    forall j | 0 <= j < |rows|
      ensures ReasonOf(t, rows[j]) != None
    {
      SoundExplains(t, originals, retransmissions, j);
      var picked: nat :| Explained(t, rows[j], picked);
    }
    NoneUnknown(t, rows);
    ReasonsAddUp(t, |t.events|);
  }

  datatype Analysis = Analysis(valid: bool, rows: seq<Row>, reasons: map<Option<Kind>, nat>, problems: set<Problem>)

  /** analyze_events: the verdict is valid exactly for sound traces. */
  method Analyze(t: Trace, originals: int, retransmissions: int) returns (a: Analysis)
    ensures a.valid <==> Sound(t, originals, retransmissions)
    ensures a.rows == Rows(t, |t.events|)
    ensures forall r :: (if r in a.reasons then a.reasons[r] else 0) == CountOf(t, a.rows, r)
    ensures forall p :: p in a.problems <==> FaultyBefore(t, |t.events|, p)
  {
    var bindings := CollectBindings(t);
    var s := State(map[], map[], map[], map[], map[], map[], map[], [], 0, {});
    for n := 0 to |t.events|
      invariant Models(t, n, s)
    {
      s := Process(t, n, s, bindings);
    }
    var reasons := CountReasons(t, s.rows);
    var valid := s.problems == {} && s.wireOriginals == originals && |s.rows| == retransmissions && s.acks != map[];
    assert s.problems == {} <==> forall p :: !FaultyBefore(t, |t.events|, p) by {
      if s.problems != {} {
        var p :| p in s.problems;
        assert FaultyBefore(t, |t.events|, p);
      }
    }
    a := Analysis(valid, s.rows, reasons, s.problems);
  }
}
