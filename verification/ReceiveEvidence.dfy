/**
 The receiver's side of a transport trace: every insertion outcome must follow the window recorded
 just before it. Events are identified by their position in the time-ordered trace.
 */
module ReceiveEvidence {
  import opened Common

  datatype Kind = Bind | Window | Insert | Pop | Other

  datatype Event = Event(pid: int, kind: Kind, target: int, a: int, b: int, c: int, d: int)

  datatype Key = Key(target: int, sequence: int)

  datatype Problem = NoWindow | UnknownStatus | UnmappedPop | NoOutcome

  datatype Status = InOrder | OutOfOrder | Duplicate | Older | Beyond | Unknown | Failed

  /** The statuses by their code. */
  const STATUSES: seq<Status> := [InOrder, OutOfOrder, Duplicate, Older, Beyond]

  /** An insertion, the window it consumed and the name of its status. */
  datatype Insertion = Insertion(at: nat, window: Option<nat>, status: Status)

  type Trace = seq<Event>

  function KeyOf(e: Event): Key {
    Key(e.target, e.a)
  }

  predicate Is(t: Trace, pid: int, kind: Kind, k: Key, i: nat)
    requires i < |t|
  {
    t[i].pid == pid && t[i].kind == kind && KeyOf(t[i]) == k
  }

  // ---------------------------------------------------------------- whole-trace statements

  /** Neither a window nor an insertion of this key lies in between. */
  ghost predicate Quiet(t: Trace, pid: int, k: Key, from: nat, to: nat)
    requires to <= |t|
  {
    forall i :: from <= i < to ==> !Is(t, pid, Window, k, i) && !Is(t, pid, Insert, k, i)
  }

  /** Window `w` of this key is the latest before n and no insertion has consumed it. */
  ghost predicate Open(t: Trace, pid: int, k: Key, n: nat, w: nat)
    requires n <= |t|
  {
    w < n && Is(t, pid, Window, k, w) && Quiet(t, pid, k, w + 1, n)
  }

  ghost predicate Mapped(t: Trace, pid: int, buffer: int) {
    exists i :: 0 <= i < |t| && t[i].pid == pid && t[i].kind == Bind && t[i].d != 0 && t[i].d == buffer
  }

  ghost predicate Faulty(t: Trace, pid: int, i: nat, p: Problem)
    requires i < |t|
  {
    && t[i].pid == pid
    && match p
       case NoWindow => t[i].kind == Insert && forall w :: !Open(t, pid, KeyOf(t[i]), i, w)
       case UnknownStatus => t[i].kind == Insert && !(0 <= t[i].b < 5)
       case UnmappedPop => t[i].kind == Pop && !Mapped(t, pid, t[i].target)
       case NoOutcome => Open(t, pid, KeyOf(t[i]), |t|, i)
  }

  ghost predicate Occurs(t: Trace, pid: int, n: nat, p: Problem)
    requires n <= |t|
  {
    exists i: nat :: i < n && Faulty(t, pid, i, p)
  }

  /** The name of a status code, and the status an insertion is counted under. */
  function Named(code: int): Status {
    if 0 <= code < |STATUSES| then STATUSES[code] else Unknown
  }

  function StatusOf(e: Event): Status {
    if e.c == 0 then Named(e.b) else Failed
  }

  /** An insertion that the receive buffer took, in order or not. */
  ghost predicate Accepts(t: Trace, pid: int, i: nat)
    requires i < |t|
  {
    t[i].pid == pid && t[i].kind == Insert && (StatusOf(t[i]) == InOrder || StatusOf(t[i]) == OutOfOrder)
  }

  // ---------------------------------------------------------------- one window, one outcome

  /** No window explains two insertions. */
  lemma WindowsUsedOnce(t: Trace, pid: int, i: nat, j: nat, w: nat)
    requires i < j < |t| && t[i].pid == pid && t[i].kind == Insert
    requires Open(t, pid, KeyOf(t[i]), i, w)
    ensures !Open(t, pid, KeyOf(t[j]), j, w)
  {
    assert Is(t, pid, Insert, KeyOf(t[i]), i);
    assert KeyOf(t[w]) == KeyOf(t[i]);
  }

  /** Without problems every window but a superseded one has its outcome: the next event of its key is an insertion. */
  lemma EveryWindowAnswered(t: Trace, pid: int, w: nat) returns (i: nat)
    requires w < |t| && t[w].pid == pid && t[w].kind == Window && !Occurs(t, pid, |t|, NoOutcome)
    ensures w < i < |t| && t[i].pid == pid && KeyOf(t[i]) == KeyOf(t[w])
    ensures t[i].kind == Window || t[i].kind == Insert
    ensures Quiet(t, pid, KeyOf(t[w]), w + 1, i)
  {
    var k := KeyOf(t[w]);
    assert !Faulty(t, pid, w, NoOutcome);
    assert !Open(t, pid, k, |t|, w);
    i := w + 1;
    while i < |t| && !Is(t, pid, Window, k, i) && !Is(t, pid, Insert, k, i)
      invariant w < i <= |t| && Quiet(t, pid, k, w + 1, i)
    {
      i := i + 1;
    }
  }

  // ---------------------------------------------------------------- the pass

  /** The dictionary of open windows. */
  ghost predicate Tracks(t: Trace, pid: int, n: nat, windows: map<Key, nat>)
    requires n <= |t|
  {
    && (forall k :: k in windows ==> Open(t, pid, k, n, windows[k]))
    && (forall k, w :: Open(t, pid, k, n, w) ==> k in windows)
  }

  lemma OpenNext(t: Trace, pid: int, k: Key, n: nat, w: nat)
    requires n < |t|
    ensures Open(t, pid, k, n + 1, w) <==>
      if Is(t, pid, Window, k, n) then w == n
      else !Is(t, pid, Insert, k, n) && Open(t, pid, k, n, w)
  {
  }

  function NextWindows(windows: map<Key, nat>, pid: int, e: Event, n: nat): map<Key, nat> {
    if e.pid != pid then windows
    else if e.kind == Window then windows[KeyOf(e) := n]
    else if e.kind == Insert then windows - {KeyOf(e)}
    else windows
  }

  lemma TracksNext(t: Trace, pid: int, n: nat, windows: map<Key, nat>)
    requires n < |t| && Tracks(t, pid, n, windows)
    ensures Tracks(t, pid, n + 1, NextWindows(windows, pid, t[n], n))
  {
    var next, m := NextWindows(windows, pid, t[n], n), n + 1;
    forall k | k in next
      ensures Open(t, pid, k, m, next[k])
    {
      OpenNext(t, pid, k, n, next[k]);
    }
    forall k, w | Open(t, pid, k, m, w)
      ensures k in next
    {
      OpenNext(t, pid, k, n, w);
    }
  }

  /** The problems recorded while reading: all but windows left open, which only the end can tell. */
  ghost predicate Reported(t: Trace, pid: int, n: nat, problems: set<Problem>)
    requires n <= |t|
  {
    NoOutcome !in problems && forall p :: p != NoOutcome ==> (p in problems <==> Occurs(t, pid, n, p))
  }

  lemma ReportedNext(t: Trace, pid: int, n: nat, problems: set<Problem>, found: set<Problem>)
    requires n < |t| && Reported(t, pid, n, problems) && NoOutcome !in found
    requires forall p :: p != NoOutcome ==> (p in found <==> Faulty(t, pid, n, p))
    ensures Reported(t, pid, n + 1, problems + found)
  {
  }

  function Insertions(t: Trace, pid: int, n: nat): seq<nat>
    requires n <= |t|
  {
    if n == 0 then []
    else if t[n - 1].pid == pid && t[n - 1].kind == Insert then Insertions(t, pid, n - 1) + [n - 1]
    else Insertions(t, pid, n - 1)
  }

  function StatusCount(t: Trace, pid: int, n: nat, s: Status): nat
    requires n <= |t|
  {
    if n == 0 then 0
    else StatusCount(t, pid, n - 1, s)
         + if t[n - 1].pid == pid && t[n - 1].kind == Insert && StatusOf(t[n - 1]) == s then 1 else 0
  }

  /** Every insertion is counted under exactly one status. */
  lemma {:induction false} StatusesAddUp(t: Trace, pid: int, n: nat)
    requires n <= |t|
    ensures StatusCount(t, pid, n, InOrder) + StatusCount(t, pid, n, OutOfOrder) + StatusCount(t, pid, n, Duplicate)
      + StatusCount(t, pid, n, Older) + StatusCount(t, pid, n, Beyond) + StatusCount(t, pid, n, Unknown)
      + StatusCount(t, pid, n, Failed) == |Insertions(t, pid, n)|
  {
    if n > 0 {
      StatusesAddUp(t, pid, n - 1);
    }
  }

  ghost function AcceptedKeys(t: Trace, pid: int, n: nat): set<Key>
    requires n <= |t|
  {
    set i | 0 <= i < n && Accepts(t, pid, i) :: KeyOf(t[i])
  }

  /** A packet is accepted at most as often as insertions count as taken, and not at all if none does. */
  lemma {:induction false} AcceptedBounded(t: Trace, pid: int, n: nat)
    requires n <= |t|
    ensures |AcceptedKeys(t, pid, n)| <= StatusCount(t, pid, n, InOrder) + StatusCount(t, pid, n, OutOfOrder)
  {
    if n > 0 {
      AcceptedBounded(t, pid, n - 1);
      AcceptedNext(t, pid, n - 1);
    } else {
      assert AcceptedKeys(t, pid, 0) == {};
    }
  }

  /** Without an unknown status every insertion has one of the five, or failed. */
  lemma {:induction false} NoneUnknown(t: Trace, pid: int, n: nat)
    requires n <= |t| && !Occurs(t, pid, n, UnknownStatus)
    ensures StatusCount(t, pid, n, Unknown) == 0
  {
    if n > 0 {
      assert !Faulty(t, pid, n - 1, UnknownStatus);
      NoneUnknown(t, pid, n - 1);
    }
  }

  function PoppedBytes(t: Trace, pid: int, n: nat): int
    requires n <= |t|
  {
    if n == 0 then 0
    else PoppedBytes(t, pid, n - 1) + if t[n - 1].pid == pid && t[n - 1].kind == Pop then t[n - 1].d else 0
  }

  function Pops(t: Trace, pid: int, n: nat): nat
    requires n <= |t|
  {
    if n == 0 then 0
    else Pops(t, pid, n - 1) + if t[n - 1].pid == pid && t[n - 1].kind == Pop then 1 else 0
  }

  /** The recorded window is the one that was open when the insertion happened. */
  ghost predicate Explains(t: Trace, pid: int, x: Insertion) {
    && x.at < |t| && x.status == Named(t[x.at].b)
    && match x.window
       case Some(w) => Open(t, pid, KeyOf(t[x.at]), x.at, w)
       case None => forall w :: !Open(t, pid, KeyOf(t[x.at]), x.at, w)
  }

  ghost predicate Recorded(t: Trace, pid: int, n: nat, insertions: seq<Insertion>)
    requires n <= |t|
  {
    && |insertions| == |Insertions(t, pid, n)|
    && forall j :: 0 <= j < |insertions| ==>
      insertions[j].at == Insertions(t, pid, n)[j] && Explains(t, pid, insertions[j])
  }

  ghost predicate Counted(t: Trace, pid: int, n: nat, counts: map<Status, nat>)
    requires n <= |t|
  {
    forall s: Status :: (if s in counts then counts[s] else 0) == StatusCount(t, pid, n, s)
  }

  datatype Evidence = Evidence(
    insertions: seq<Insertion>,
    problems: set<Problem>,
    counts: map<Status, nat>,
    accepted: set<Key>,
    pops: nat,
    poppedBytes: int)

  ghost predicate Describes(t: Trace, pid: int, n: nat, r: Evidence)
    requires n <= |t|
  {
    && Recorded(t, pid, n, r.insertions)
    && Counted(t, pid, n, r.counts)
    && r.accepted == AcceptedKeys(t, pid, n)
    && r.pops == Pops(t, pid, n)
    && r.poppedBytes == PoppedBytes(t, pid, n)
  }

  lemma AcceptedNext(t: Trace, pid: int, n: nat)
    requires n < |t|
    ensures AcceptedKeys(t, pid, n + 1)
      == AcceptedKeys(t, pid, n) + if Accepts(t, pid, n) then {KeyOf(t[n])} else {}
  {
  }

  method CollectBuffers(t: Trace, pid: int) returns (buffers: set<int>)
    ensures forall b :: b in buffers <==> Mapped(t, pid, b)
  {
    buffers := set i | 0 <= i < |t| && t[i].pid == pid && t[i].kind == Bind && t[i].d != 0 :: t[i].d;
    forall b
      ensures b in buffers <==> Mapped(t, pid, b)
    {
    }
  }

  /** What an insertion adds. */
  method RecordInsertion(t: Trace, pid: int, n: nat, r: Evidence, windows: map<Key, nat>) returns (u: Evidence)
    requires n < |t| && t[n].pid == pid && t[n].kind == Insert
    requires Tracks(t, pid, n, windows) && Describes(t, pid, n, r)
    ensures Describes(t, pid, n + 1, u) && u.problems == r.problems + InsertionProblems(t[n], windows)
  {
    var k := KeyOf(t[n]);
    var window := if k in windows then Some(windows[k]) else None;
    var status := Named(t[n].b);
    var counted := if t[n].c == 0 then status else Failed;
    var counts := r.counts[counted := (if counted in r.counts then r.counts[counted] else 0) + 1];
    var accepted := t[n].c == 0 && (t[n].b == 0 || t[n].b == 1);
    AcceptedNext(t, pid, n);
    u := Evidence(r.insertions + [Insertion(n, window, status)], r.problems + InsertionProblems(t[n], windows), counts,
                  if accepted then r.accepted + {k} else r.accepted, r.pops, r.poppedBytes);
    assert Explains(t, pid, Insertion(n, window, status));
  }

  function InsertionProblems(e: Event, windows: map<Key, nat>): set<Problem> {
    (if KeyOf(e) in windows then {} else {NoWindow}) + (if Named(e.b) == Unknown then {UnknownStatus} else {})
  }

  /** One event of the pass. */
  method Process(t: Trace, pid: int, n: nat, buffers: set<int>, r: Evidence, windows: map<Key, nat>)
    returns (u: Evidence, after: map<Key, nat>)
    requires n < |t| && (forall b :: b in buffers <==> Mapped(t, pid, b))
    requires Tracks(t, pid, n, windows) && Describes(t, pid, n, r) && Reported(t, pid, n, r.problems)
    ensures Tracks(t, pid, n + 1, after) && Describes(t, pid, n + 1, u) && Reported(t, pid, n + 1, u.problems)
  {
    u, after := r, windows;
    TracksNext(t, pid, n, windows);
    AcceptedNext(t, pid, n);
    ghost var found: set<Problem> := {};
    if t[n].pid == pid {
      if t[n].kind == Window {
        after := windows[KeyOf(t[n]) := n];
      } else if t[n].kind == Insert {
        u := RecordInsertion(t, pid, n, r, windows);
        found := InsertionProblems(t[n], windows);
        after := windows - {KeyOf(t[n])};
      } else if t[n].kind == Pop {
        if t[n].target !in buffers {
          u := u.(problems := u.problems + {UnmappedPop});
          found := {UnmappedPop};
        }
        u := u.(pops := u.pops + 1, poppedBytes := u.poppedBytes + t[n].d);
      }
    }
    ReportedNext(t, pid, n, r.problems, found);
    assert u.problems == r.problems + found;
  }

  lemma OpenAtEnd(t: Trace, pid: int, windows: map<Key, nat>)
    requires Tracks(t, pid, |t|, windows)
    ensures windows != map[] <==> Occurs(t, pid, |t|, NoOutcome)
  {
    if windows != map[] {
      var k :| k in windows;
      assert Faulty(t, pid, windows[k], NoOutcome);
    }
    if Occurs(t, pid, |t|, NoOutcome) {
      var i: nat :| i < |t| && Faulty(t, pid, i, NoOutcome);
      assert Open(t, pid, KeyOf(t[i]), |t|, i);
    }
  }

  /** The whole pass reports exactly the problems of the trace, and its totals are those of the trace. */
  method Collect(t: Trace, pid: int) returns (r: Evidence)
    ensures Describes(t, pid, |t|, r)
    ensures forall p :: p in r.problems <==> Occurs(t, pid, |t|, p)
  {
    var buffers := CollectBuffers(t, pid);
    var windows: map<Key, nat> := map[];
    r := Evidence([], {}, map[], {}, 0, 0);
    for n := 0 to |t|
      invariant Tracks(t, pid, n, windows) && Describes(t, pid, n, r) && Reported(t, pid, n, r.problems)
    {
      r, windows := Process(t, pid, n, buffers, r, windows);
    }
    OpenAtEnd(t, pid, windows);
    if windows != map[] {
      r := r.(problems := r.problems + {NoOutcome});
    }
  }
}
