/**
 The scorecard's process monitor: a polling loop that watches independent peer
 processes, each of which writes a completion event and later exits.
 */
module Monitor {

  /** What can be observed of a peer: its completion event in its output, and its exit. */
  datatype Peer = Peer(complete: bool, exited: bool)

  /** Output is only appended to, and an exited peer writes no more. */
  ghost predicate Evolves(before: seq<Peer>, after: seq<Peer>) {
    && |before| == |after|
    && forall i :: 0 <= i < |before| ==>
      (before[i].complete ==> after[i].complete) && (before[i].exited ==> after[i] == before[i])
  }

  /** Every peer that has exited had written its completion event. */
  ghost predicate Disciplined(peers: seq<Peer>) {
    forall i :: 0 <= i < |peers| ==> peers[i].exited ==> peers[i].complete
  }

  /** The processes run between any two observations. `disciplined` peers exit only after completing. */
  method Run(peers: seq<Peer>, disciplined: bool) returns (after: seq<Peer>)
    ensures Evolves(peers, after)
    ensures disciplined && Disciplined(peers) ==> Disciplined(after)
  {
    after := peers;
    for i := 0 to |peers|
      invariant Evolves(peers, after)
      invariant disciplined && Disciplined(peers) ==> Disciplined(after)
    {
      if !after[i].exited {
        var writes: bool := *;
        var exits: bool := *;
        var complete := after[i].complete || writes;
        after := after[i := Peer(complete, exits && (complete || !disciplined))];
      }
    }
  }

  /** One trip around the loop: its clock and what it saw of every peer. */
  datatype Iteration = Iteration(now: nat, exited: seq<bool>, complete: seq<bool>)

  ghost predicate AllTrue(s: seq<bool>) {
    forall i :: 0 <= i < |s| ==> s[i]
  }

  /** Exits are polled before output is read. */
  method Observe(peers: seq<Peer>, now: nat, disciplined: bool)
    returns (seen: Iteration, after: seq<Peer>)
    ensures Evolves(peers, after)
    ensures disciplined && Disciplined(peers) ==> Disciplined(after)
    ensures seen.now == now && |seen.exited| == |seen.complete| == |peers|
    ensures forall i :: 0 <= i < |peers| ==>
      && (seen.exited[i] ==> after[i].exited)
      && (seen.complete[i] ==> after[i].complete)
      && (seen.exited[i] && !seen.complete[i] ==> !after[i].complete)
      && (peers[i].complete ==> seen.complete[i]) && (peers[i].exited ==> seen.exited[i])
  {
    after := peers;
    var exited := [];
    for i := 0 to |peers|
      invariant Evolves(peers, after) && |exited| == i
      invariant disciplined && Disciplined(peers) ==> Disciplined(after)
      invariant forall k :: 0 <= k < i ==> (exited[k] ==> after[k].exited) && (peers[k].exited ==> exited[k])
    {
      after := Run(after, disciplined);
      exited := exited + [after[i].exited];
    }
    var complete := [];
    for i := 0 to |peers|
      invariant Evolves(peers, after) && |complete| == i
      invariant disciplined && Disciplined(peers) ==> Disciplined(after)
      invariant forall k :: 0 <= k < |peers| ==> (exited[k] ==> after[k].exited) && (peers[k].exited ==> exited[k])
      invariant forall k :: 0 <= k < i ==>
        && (complete[k] ==> after[k].complete)
        && (peers[k].complete ==> complete[k])
        && (exited[k] && !complete[k] ==> !after[k].complete)
    {
      after := Run(after, disciplined);
      complete := complete + [after[i].complete];
    }
    seen := Iteration(now, exited, complete);
  }

  datatype Outcome =
    | Returned(completeAt: nat, exitedAt: nat)
    | ExitedEarly(peer: nat)
    | TimedOut

  /** Iteration f is the first in which every peer was seen complete. */
  ghost predicate FirstComplete(log: seq<Iteration>, f: nat) {
    f < |log| && AllTrue(log[f].complete) && forall k :: 0 <= k < f ==> !AllTrue(log[k].complete)
  }

  /** `complete_observed_at or exited_at`: a recorded time of zero counts as none. */
  function Reported(observedAt: nat, exitedAt: nat): nat {
    if observedAt == 0 then exitedAt else observedAt
  }

  /** The time reported is the time observed, except for an observation at zero before a later exit. */
  lemma ReportedIff(observedAt: nat, exitedAt: nat)
    ensures Reported(observedAt, exitedAt) == observedAt <==> observedAt != 0 || exitedAt == 0
  {
  }

  /** No peer was seen exited and incomplete. */
  ghost predicate Orderly(seen: Iteration) {
    |seen.exited| == |seen.complete| && forall i :: 0 <= i < |seen.exited| ==> seen.exited[i] ==> seen.complete[i]
  }

  ghost predicate Spaced(log: seq<Iteration>, interval: nat) {
    forall j, k :: 0 <= j < k < |log| ==> log[j].now + interval <= log[k].now
  }

  ghost predicate Since(log: seq<Iteration>, start: nat) {
    forall k :: 0 <= k < |log| ==> log[k].now >= start
  }

  /** The loop goes on only before the deadline, while a peer still runs and none exited early. */
  ghost predicate GoesOn(log: seq<Iteration>, deadline: nat) {
    forall k :: 0 <= k < |log| - 1 ==> log[k].now < deadline && !AllTrue(log[k].exited) && Orderly(log[k])
  }

  /** The log while the loop goes on, and when it may look again. */
  ghost predicate Watching(log: seq<Iteration>, start: nat, deadline: nat, interval: nat, now: nat) {
    && Spaced(log, interval) && Since(log, start) && now >= start
    && forall k :: 0 <= k < |log| ==>
      && log[k].now + interval <= now && log[k].now < deadline && !AllTrue(log[k].exited) && Orderly(log[k])
  }

  lemma Watched(log: seq<Iteration>, start: nat, deadline: nat, interval: nat, seen: Iteration)
    requires Watching(log, start, deadline, interval, seen.now)
    ensures Spaced(log + [seen], interval) && Since(log + [seen], start) && GoesOn(log + [seen], deadline)
    ensures seen.now < deadline && !AllTrue(seen.exited) && Orderly(seen) ==>
      Watching(log + [seen], start, deadline, interval, seen.now + interval)
  {
  }

  /** Whether every peer has been seen complete, and in which iteration first. */
  ghost predicate Tracked(log: seq<Iteration>, observed: bool, observedAt: nat, first: nat) {
    if observed then FirstComplete(log, first) && observedAt == log[first].now
    else forall k :: 0 <= k < |log| ==> !AllTrue(log[k].complete)
  }

  lemma TrackedNext(log: seq<Iteration>, observed: bool, observedAt: nat, first: nat, seen: Iteration)
    requires Tracked(log, observed, observedAt, first)
    ensures
      if AllTrue(seen.complete) && !observed then Tracked(log + [seen], true, seen.now, |log|)
      else Tracked(log + [seen], observed, observedAt, first)
  {
  }

  /** A log as the loop leaves it on a normal return. */
  ghost predicate EndsWell(log: seq<Iteration>, interval: nat) {
    log != [] && AllTrue(log[|log| - 1].exited) && (forall seen :: seen in log ==> Orderly(seen)) && Spaced(log, interval)
  }

  /** The reported time belongs to the first complete iteration, and equals its clock unless that read zero. */
  ghost predicate Reports(log: seq<Iteration>, f: nat, completeAt: nat, exitedAt: nat) {
    && FirstComplete(log, f) && completeAt == Reported(log[f].now, exitedAt)
    && (completeAt == log[f].now <==> log[f].now != 0 || exitedAt == 0)
  }

  /** A monitor started at a nonzero clock always reports the first complete iteration's own time. */
  lemma NonzeroStart(log: seq<Iteration>, start: nat, f: nat, completeAt: nat, exitedAt: nat)
    requires Since(log, start) && Reports(log, f, completeAt, exitedAt) && start > 0
    ensures FirstComplete(log, f) && completeAt == log[f].now
  {
  }

  /** A peer completes before the first reading, at zero, and exits before the second, at five. */
  lemma ZeroReadingExample()
    ensures
      var log := [Iteration(0, [false], [true]), Iteration(5, [true], [true])];
      EndsWell(log, 5) && FirstComplete(log, 0) && Reported(log[0].now, 5) == 5 != log[0].now
  {
    assert AllTrue([true]);
  }

  method AllOf(s: seq<bool>) returns (all: bool)
    ensures all <==> AllTrue(s)
  {
    all := true;
    for i := 0 to |s|
      invariant all <==> forall k :: 0 <= k < i ==> s[k]
    {
      all := all && s[i];
    }
  }

  method FirstEarly(seen: Iteration) returns (found: bool, peer: nat)
    requires |seen.exited| == |seen.complete|
    ensures found ==> peer < |seen.exited| && seen.exited[peer] && !seen.complete[peer]
    ensures found ==> forall k :: 0 <= k < peer ==> seen.exited[k] ==> seen.complete[k]
    ensures !found ==> Orderly(seen)
  {
    for i := 0 to |seen.exited|
      invariant forall k :: 0 <= k < i ==> seen.exited[k] ==> seen.complete[k]
    {
      if seen.exited[i] && !seen.complete[i] {
        return true, i;
      }
    }
    found, peer := false, 0;
  }

  method Clock(from: nat) returns (now: nat)
    ensures now >= from
  {
    var elapsed: nat :| elapsed >= 0;
    now := from + elapsed;
  }

  /**
   monitor_processes. An early exit is reported only of a peer that really exited
   without completing, so never of disciplined peers; a normal return means that
   every peer completed and exited; and the completion time is that of the first
   iteration that saw every peer complete, unless that clock reads zero.
   */
  method MonitorProcesses(started: seq<Peer>, start: nat, timeout: nat, interval: nat, disciplined: bool)
    returns (outcome: Outcome, peers: seq<Peer>, log: seq<Iteration>)
    requires interval > 0 && (disciplined ==> Disciplined(started))
    ensures Evolves(started, peers)
    ensures outcome.ExitedEarly? ==>
      && !disciplined && outcome.peer < |peers| && peers[outcome.peer].exited && !peers[outcome.peer].complete
      && log != [] && !Orderly(log[|log| - 1])
    ensures outcome.Returned? ==>
      && (forall i :: 0 <= i < |peers| ==> peers[i].exited && peers[i].complete)
      && EndsWell(log, interval) && log[|log| - 1].now <= outcome.exitedAt
      && outcome.completeAt <= outcome.exitedAt
      && (exists f: nat :: Reports(log, f, outcome.completeAt, outcome.exitedAt))
    ensures outcome.TimedOut? ==>
      log != [] && log[|log| - 1].now >= start + timeout && !AllTrue(log[|log| - 1].exited) && Orderly(log[|log| - 1])
    ensures Spaced(log, interval) && Since(log, start) && GoesOn(log, start + timeout)
  {
    var deadline := start + timeout;
    var observed := false;
    var observedAt: nat := 0;
    ghost var first: nat := 0;
    peers, log := started, [];
    var now := start;
    while true
      invariant Evolves(started, peers) && (disciplined ==> Disciplined(peers))
      invariant Watching(log, start, deadline, interval, now) && Tracked(log, observed, observedAt, first)
      decreases deadline + interval - now
    {
      now := Clock(now);
      var seen;
      seen, peers := Observe(peers, now, disciplined);
      Watched(log, start, deadline, interval, seen);
      TrackedNext(log, observed, observedAt, first, seen);
      log := log + [seen];
      var early, peer := FirstEarly(seen);
      if early {
        return ExitedEarly(peer), peers, log;
      }
      var allComplete := AllOf(seen.complete);
      if allComplete && !observed {
        observed, observedAt := true, now;
        first := |log| - 1;
      }
      var allExited := AllOf(seen.exited);
      if allExited {
        var exitedAt := Clock(now);
        assert AllTrue(seen.complete);
        ReportedIff(observedAt, exitedAt);
        assert Reports(log, first, Reported(observedAt, exitedAt), exitedAt);
        return Returned(Reported(observedAt, exitedAt), exitedAt), peers, log;
      }
      if now >= deadline {
        return TimedOut, peers, log;
      }
      now := now + interval;
    }
  }
}
