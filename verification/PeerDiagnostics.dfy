/**
 * The benchmark peer's diagnostics: one thread reports call boundaries through atomics, another samples
 * them without a lock. The writer's steps fall anywhere between the observer's loads.
 */
module PeerDiagnostics {
  import opened Common

  const INDEX_LIMIT: nat := 0x100_0000_0000_0000

  const PHASES: nat := 14

  datatype Call = Call(phase: nat, index: nat)

  ghost predicate Legal(c: Call) {
    c.phase < PHASES
  }

  /** What `phase` stores: the index shifted past the phase, in 64 bits. */
  function Encoded(c: Call): nat {
    (c.index * 256) % WORD + c.phase
  }

  /** Phase and index come back from the one stored word; the index exactly when it fits 56 bits. */
  lemma DecodeEncoded(c: Call)
    requires Legal(c)
    ensures Encoded(c) % 256 == c.phase && Encoded(c) < WORD
    ensures Encoded(c) / 256 == c.index % INDEX_LIMIT
    ensures Encoded(c) / 256 == c.index <==> c.index < INDEX_LIMIT
  {
  }

  /** The j-th call of `phase`; before the first one the word reads as starting. */
  ghost function CallAt(calls: seq<Call>, j: nat): Call
    requires j <= |calls|
  {
    if j == 0 then Call(0, 0) else calls[j - 1]
  }

  /** The operation word is stored first, then the sequence counts the call. */
  ghost predicate InStep(calls: seq<Call>, counted: nat, operation: nat) {
    && counted <= |calls| <= counted + 1
    && operation == Encoded(CallAt(calls, |calls|))
    && forall c :: c in calls ==> Legal(c)
  }

  datatype Record = Record(before: nat, operation: nat, after: nat)

  /** The record shows the word of call `shown`, with at least `low` calls counted before and at most `high` after. */
  ghost predicate Shows(r: Record, calls: seq<Call>, low: nat, shown: nat, high: nat) {
    && low <= shown <= high + 1 && low <= high && shown <= |calls|
    && r == Record(low % WORD, Encoded(CallAt(calls, shown)), high % WORD)
  }

  class Reporter {
    var operation: nat
    var sequence: nat
    var inCall: bool
    ghost var calls: seq<Call>
    ghost var counted: nat

    ghost predicate Valid()
      reads this
    {
      && InStep(calls, counted, operation)
      && sequence == counted % WORD
      && (inCall <==> |calls| == counted + 1)
    }

    constructor ()
      ensures Valid() && calls == []
    {
      operation, sequence, inCall, calls, counted := 0, 0, false, [], 0;
    }

    /** The first half of a call of `phase`. */
    method StoreOperation(c: Call)
      requires Valid() && !inCall && Legal(c)
      modifies this`operation, this`inCall, this`calls
      ensures Valid() && calls == old(calls) + [c]
    {
      operation := Encoded(c);
      inCall, calls := true, calls + [c];
    }

    /** The second half. */
    method CountCall()
      requires Valid() && inCall
      modifies this`sequence, this`inCall, this`counted
      ensures Valid() && counted == old(counted) + 1
    {
      sequence := (sequence + 1) % WORD;
      inCall, counted := false, counted + 1;
      assert (counted - 1) % WORD + 1 == sequence || ((counted - 1) % WORD == WORD - 1 && sequence == 0);
    }

    /** Any number of writer steps between two loads. */
    method WriterRuns()
      requires Valid()
      modifies this
      ensures Valid() && old(calls) <= calls && old(counted) <= counted
    {
      var steps: nat := *;
      while steps > 0
        invariant Valid() && old(calls) <= calls && old(counted) <= counted
      {
        if !inCall {
          var c: Call := *;
          if c.phase < PHASES {
            StoreOperation(c);
          }
        } else {
          CountCall();
        }
        steps := steps - 1;
      }
    }

    /** One record: the sequence, the operation word, then the sequence again. */
    method Emit() returns (r: Record, ghost low: nat, ghost shown: nat, ghost high: nat)
      requires Valid()
      modifies this
      ensures Valid() && old(calls) <= calls
      ensures Shows(r, calls, low, shown, high)
      ensures old(counted) <= low && old(|calls|) <= shown && high == counted
    {
      WriterRuns();
      var before := sequence;
      low := counted;
      WriterRuns();
      var word := operation;
      shown := |calls|;
      ghost var seen := calls;
      WriterRuns();
      high := counted;
      r := Record(before, word, sequence);
      assert CallAt(seen, shown) == CallAt(calls, shown);
    }
  }

  /** Equal sequences, fewer than 2^64 calls apart, mean that no call was counted while the record was taken. */
  lemma EqualSequences(r: Record, calls: seq<Call>, low: nat, shown: nat, high: nat)
    requires Shows(r, calls, low, shown, high)
    ensures r.before == r.after && high - low < WORD ==> low == high && (shown == low || shown == low + 1)
  {
  }

  /** Phase and socket index of a record come from one and the same call. */
  lemma RecordDecodes(r: Record, calls: seq<Call>, low: nat, shown: nat, high: nat)
    requires Shows(r, calls, low, shown, high) && forall c :: c in calls ==> Legal(c)
    ensures r.operation % 256 == CallAt(calls, shown).phase < PHASES
    ensures r.operation / 256 == CallAt(calls, shown).index % INDEX_LIMIT
  {
    DecodeEncoded(CallAt(calls, shown));
  }

  // ---------------------------------------------------------------- a whole observation

  ghost predicate ShowsAll(records: seq<Record>, calls: seq<Call>, low: seq<nat>, shown: seq<nat>, high: seq<nat>) {
    && |records| == |low| == |shown| == |high|
    && forall i :: 0 <= i < |records| ==> Shows(records[i], calls, low[i], shown[i], high[i])
  }

  /** Records never go back: neither in the calls counted nor in the call they show. */
  ghost predicate Ordered(low: seq<nat>, shown: seq<nat>, high: seq<nat>) {
    && |low| == |shown| == |high|
    && forall i, k :: 0 <= i < k < |low| ==> high[i] <= low[k] && shown[i] <= shown[k]
  }

  lemma ShowsLonger(r: Record, calls: seq<Call>, longer: seq<Call>, low: nat, shown: nat, high: nat)
    requires Shows(r, calls, low, shown, high) && calls <= longer
    ensures Shows(r, longer, low, shown, high)
  {
  }

  method Observe(reporter: Reporter, rounds: nat)
    returns (records: seq<Record>, ghost low: seq<nat>, ghost shown: seq<nat>, ghost high: seq<nat>)
    requires reporter.Valid()
    modifies reporter
    ensures reporter.Valid() && |records| == rounds
    ensures ShowsAll(records, reporter.calls, low, shown, high) && Ordered(low, shown, high)
  {
    records, low, shown, high := [], [], [], [];
    for n := 0 to rounds
      invariant reporter.Valid() && |records| == n
      invariant ShowsAll(records, reporter.calls, low, shown, high) && Ordered(low, shown, high)
      invariant forall i :: 0 <= i < n ==> high[i] <= reporter.counted && shown[i] <= |reporter.calls|
    {
      ghost var before := reporter.calls;
      var r;
      ghost var l, s, h;
      r, l, s, h := reporter.Emit();
      forall i | 0 <= i < n
        ensures Shows(records[i], reporter.calls, low[i], shown[i], high[i])
      {
        ShowsLonger(records[i], before, reporter.calls, low[i], shown[i], high[i]);
      }
      records, low, shown, high := records + [r], low + [l], shown + [s], high + [h];
    }
  }

  /**
   * Two records that show one unchanged sequence prove a call in progress, or none started: between the
   * first load of the one and the last load of the other no call was counted. Repeated phases alone do not.
   */
  lemma StableSequence(records: seq<Record>, calls: seq<Call>, low: seq<nat>, shown: seq<nat>, high: seq<nat>,
                       i: nat, k: nat)
    requires ShowsAll(records, calls, low, shown, high) && Ordered(low, shown, high)
    requires i < k < |records| && records[i].before == records[k].after && high[k] - low[i] < WORD
    ensures low[i] == high[i] == low[k] == high[k]
    ensures shown[i] <= shown[k] <= shown[i] + 1
    ensures low[i] <= shown[i] && shown[k] <= low[i] + 1
  {
  }

  /** The same phase and index can be shown by two records although calls were counted in between. */
  lemma RepeatedPhaseExample()
    ensures var calls := [Call(5, 0), Call(5, 0)];
      && Shows(Record(1, 5, 1), calls, 1, 1, 1)
      && Shows(Record(2, 5, 2), calls, 2, 2, 2)
  {
  }

  // ---------------------------------------------------------------- per-socket progress

  datatype Report = Report(count: nat, logical: int)

  /** `progress` stores the count first and the logical id second. */
  class Slot {
    var progress: nat
    var logicalId: int
    var inReport: bool
    var latest: Report
    ghost var reports: seq<Report>
    ghost var completed: nat

    ghost predicate Valid()
      reads this
    {
      && completed <= |reports| <= completed + 1
      && (inReport <==> |reports| == completed + 1)
      && progress == ReportAt(reports, |reports|).count
      && logicalId == ReportAt(reports, completed).logical
      && latest == ReportAt(reports, |reports|)
    }

    constructor ()
      ensures Valid() && reports == []
    {
      progress, logicalId, inReport, latest := 0, -1, false, Report(0, -1);
      reports, completed := [], 0;
    }

    method WriterRuns()
      requires Valid()
      modifies this
      ensures Valid() && old(reports) <= reports && old(completed) <= completed
    {
      var steps: nat := *;
      while steps > 0
        invariant Valid() && old(reports) <= reports && old(completed) <= completed
      {
        if !inReport {
          latest := *;
          progress, inReport, reports := latest.count, true, reports + [latest];
        } else {
          logicalId, inReport, completed := latest.logical, false, completed + 1;
        }
        steps := steps - 1;
      }
    }

    /** The observer loads the logical id first, so the count it shows is never the older of the two. */
    method Sample() returns (count: nat, logical: int, ghost counted: nat, ghost named: nat)
      requires Valid()
      modifies this
      ensures Valid() && named <= counted <= |reports|
      ensures count == ReportAt(reports, counted).count && logical == ReportAt(reports, named).logical
    {
      logical := logicalId;
      named := completed;
      ghost var seen := reports;
      WriterRuns();
      count := progress;
      counted := |reports|;
      assert ReportAt(seen, named) == ReportAt(reports, named);
    }
  }

  ghost function ReportAt(reports: seq<Report>, j: nat): Report
    requires j <= |reports|
  {
    if j == 0 then Report(0, -1) else reports[j - 1]
  }
}
