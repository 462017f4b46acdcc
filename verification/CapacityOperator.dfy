/**
 * The operator that raises socket buffer limits, runs a measurement and restores the limits.
 * Signals and the runner's exit can fall between any two steps: a world says what happens where.
 */
module CapacityOperator {
  import opened Common

  datatype Signal = Interrupt | Terminate | Hangup

  function Number(s: Signal): (n: nat)
    ensures n > 0
  {
    match s
    case Hangup => 1
    case Interrupt => 2
    case Terminate => 15
  }

  datatype Child = NotStarted | Running | Exited(code: int)

  /** One call of `send_signal` on the runner, and whether the error path made it. */
  datatype Sent = Sent(signal: Signal, stop: bool)

  /** How one restoring command went: `None` when it could not even be launched. */
  datatype Restoration = Restoration(key: string, value: string, exit: Option<int>)

  datatype Reading = Reading(limits: map<string, string>, security: map<string, string>)

  datatype Ending = Returned(status: int) | Raised

  const KEYS: seq<string> := ["net.core.rmem_max", "net.core.wmem_max"]

  // ---------------------------------------------------------------- the world around the operator

  datatype Event = Arrive(signal: Signal) | Exit(code: int)

  /** The places of the program between which something can happen. */
  datatype Point =
    | Checking(key: nat)
    | Writing(key: nat)
    | Reading
    | Saving
    | Masked
    | Started
    | Unmasked
    | Waiting
    | Failing
    | Stopping
    | Closing

  /** What happens on reaching each place, which steps fail there, and how the runner exits when waited for. */
  datatype World = World(
    events: Point -> seq<Event>,
    fails: Point -> bool,
    exit: Point -> int,
    restores: nat -> Option<int>,
    after: Option<Reading>)

  function Either(first: Option<Signal>, second: Option<Signal>): Option<Signal> {
    if first.Some? then first else second
  }

  /** The first signal among these events. */
  function FirstSignal(events: seq<Event>): Option<Signal> {
    if events == [] then None
    else
      var last := events[|events| - 1];
      Either(FirstSignal(events[..|events| - 1]), if last.Arrive? then Some(last.signal) else None)
  }

  /** A running runner exits with its first exit event. */
  function ChildAfter(child: Child, events: seq<Event>): (r: Child)
    ensures r == NotStarted <==> child == NotStarted
  {
    if events == [] then child
    else
      var before, last := ChildAfter(child, events[..|events| - 1]), events[|events| - 1];
      if before == Running && last.Exit? then Exited(last.code) else before
  }

  function SignalsIn(events: seq<Event>): set<Signal> {
    if events == [] then {}
    else
      var last := events[|events| - 1];
      SignalsIn(events[..|events| - 1]) + if last.Arrive? then {last.signal} else {}
  }

  /** The interpreter runs handlers that became due together in order of signal number. */
  function Lowest(held: set<Signal>): Option<Signal> {
    if Hangup in held then Some(Hangup)
    else if Interrupt in held then Some(Interrupt)
    else if Terminate in held then Some(Terminate)
    else None
  }

  lemma LowestIsLowest(held: set<Signal>)
    ensures held == {} <==> Lowest(held) == None
    ensures Lowest(held).Some? ==>
      Lowest(held).value in held && forall s :: s in held ==> Number(Lowest(held).value) <= Number(s)
  {
    if held != {} {
      var s :| s in held;
      assert s == Hangup || s == Interrupt || s == Terminate;
    }
  }

  lemma {:induction false} ChildAfterBoth(child: Child, a: seq<Event>, b: seq<Event>)
    ensures ChildAfter(ChildAfter(child, a), b) == ChildAfter(child, a + b)
  {
    if b == [] {
      assert a + b == a;
    } else {
      ChildAfterBoth(child, a, b[..|b| - 1]);
      assert (a + b)[..|a + b| - 1] == a + b[..|b| - 1];
    }
  }

  // ---------------------------------------------------------------- what holds between any two steps

  ghost predicate Forwarded(sent: seq<Sent>, s: Signal) {
    Sent(s, false) in sent
  }

  /** Only the first signal is ever forwarded, and only the error path sends anything else, an interrupt. */
  ghost predicate OnlyFirst(sent: seq<Sent>, pending: Option<Signal>, child: Child) {
    && (forall x :: x in sent ==> if x.stop then x.signal == Interrupt else pending == Some(x.signal))
    && (child.NotStarted? ==> sent == [])
  }

  /** No signal is lost: each arrival was taken as the first one, came later, or is still held by the mask. */
  ghost predicate NoneLost(arrivals: set<Signal>, held: set<Signal>, pending: Option<Signal>) {
    && (pending == None ==> arrivals == held)
    && (pending.Some? ==> pending.value in arrivals)
    && held <= arrivals
  }

  ghost predicate Progress(before: Child, after: Child) {
    match before
    case NotStarted => after == NotStarted
    case Running => after != NotStarted
    case Exited(_) => after == before
  }

  ghost predicate Stopped(sent: seq<Sent>) {
    exists x :: x in sent && x.stop
  }

  /** What the handler sends when `first` is the first of the signals it is given. */
  function Forwards(pending: Option<Signal>, first: Option<Signal>, child: Child): seq<Sent> {
    if pending == None && first.Some? && child != NotStarted then [Sent(first.value, false)] else []
  }

  /** At most the command in progress is run with a signal pending; none is begun after that. */
  ghost predicate LastWriteOnly(writes: seq<bool>) {
    forall i :: 0 <= i < |writes| - 1 ==> !writes[i]
  }

  class Operator {
    var child: Child
    var pending: Option<Signal>
    var masked: bool
    var held: set<Signal>
    var sent: seq<Sent>
    var status: int
    var runnerExit: Option<int>
    var failed: bool
    var restorations: seq<Restoration>
    var cleanupPass: bool
    const original: Reading
    const world: World
    ghost var arrivals: set<Signal>
    /** For each limit written, whether a signal was pending when the command ran. */
    ghost var writes: seq<bool>

    ghost predicate Valid()
      reads this
    {
      && OnlyFirst(sent, pending, child)
      && NoneLost(arrivals, held, pending)
      && (!masked ==> held == {})
    }

    /** Once the runner has been handed over, the first signal has been forwarded to it. */
    ghost predicate HandedOver()
      reads this
    {
      child != NotStarted && pending.Some? ==> Forwarded(sent, pending.value)
    }

    constructor (reading: Reading, world: World)
      requires forall k :: k in KEYS ==> k in reading.limits
      ensures Valid() && child == NotStarted && pending == None && !masked && !failed && status == 1 && runnerExit == None
      ensures restorations == [] && writes == [] && arrivals == {} && original == reading && this.world == world
    {
      child, pending, masked, held, sent := NotStarted, None, false, {}, [];
      status, runnerExit, failed, restorations, cleanupPass := 1, None, false, [], false;
      original, this.world := reading, world;
      arrivals, writes := {}, [];
    }

    /** The handler: remember the first signal and pass it to a runner that exists. */
    method Interrupted(s: Signal)
      modifies this`pending, this`sent
      ensures pending == Either(old(pending), Some(s))
      ensures sent == old(sent) + Forwards(old(pending), Some(s), child)
    {
      if pending.Some? {
        return;
      }
      pending := Some(s);
      if child != NotStarted {
        sent := sent + [Sent(s, false)];
      }
    }

    /** Whatever happens at this place: signals are held while masked and handled otherwise, and the runner may exit. */
    method Environment(p: Point)
      requires Valid()
      modifies this`pending, this`sent, this`held, this`arrivals, this`child
      ensures Valid() && child == ChildAfter(old(child), world.events(p)) && Progress(old(child), child)
      ensures masked ==> pending == old(pending) && sent == old(sent) && held == old(held) + SignalsIn(world.events(p))
      ensures !masked ==> pending == Either(old(pending), FirstSignal(world.events(p)))
      ensures !masked ==> sent == old(sent) + Forwards(old(pending), FirstSignal(world.events(p)), old(child))
      ensures arrivals == old(arrivals) + SignalsIn(world.events(p))
      ensures old(HandedOver()) ==> HandedOver()
    {
      var events := world.events(p);
      for i := 0 to |events|
        invariant Valid() && child == ChildAfter(old(child), events[..i]) && Progress(old(child), child)
        invariant masked ==> pending == old(pending) && sent == old(sent) && held == old(held) + SignalsIn(events[..i])
        invariant !masked ==> pending == Either(old(pending), FirstSignal(events[..i]))
        invariant !masked ==> sent == old(sent) + Forwards(old(pending), FirstSignal(events[..i]), old(child))
        invariant arrivals == old(arrivals) + SignalsIn(events[..i])
        invariant old(HandedOver()) ==> HandedOver()
      {
        assert events[..i + 1][..i] == events[..i];
        Occur(events[i]);
      }
      assert events[..|events|] == events;
    }

    method Occur(e: Event)
      requires Valid()
      modifies this`pending, this`sent, this`held, this`arrivals, this`child
      ensures Valid()
      ensures child == if old(child) == Running && e.Exit? then Exited(e.code) else old(child)
      ensures masked ==> pending == old(pending) && sent == old(sent)
      ensures masked ==> held == old(held) + if e.Arrive? then {e.signal} else {}
      ensures !masked ==> pending == Either(old(pending), if e.Arrive? then Some(e.signal) else None)
      ensures !masked ==>
        sent == old(sent) + Forwards(old(pending), if e.Arrive? then Some(e.signal) else None, old(child))
      ensures arrivals == old(arrivals) + if e.Arrive? then {e.signal} else {}
      ensures old(HandedOver()) ==> HandedOver()
    {
      match e
      case Exit(code) =>
        if child == Running {
          child := Exited(code);
        }
      case Arrive(s) =>
        arrivals := arrivals + {s};
        if masked {
          held := held + {s};
        } else {
          Interrupted(s);
        }
    }

    /** Lifting the mask runs the handlers it held back. */
    method Unmask()
      requires Valid()
      modifies this`pending, this`sent, this`held, this`masked
      ensures Valid() && !masked
      ensures pending == Either(old(pending), Lowest(old(held)))
      ensures sent == old(sent) + Forwards(old(pending), Lowest(old(held)), child)
      ensures old(HandedOver()) ==> HandedOver()
    {
      if Hangup in held {
        Interrupted(Hangup);
      }
      if Interrupt in held {
        Interrupted(Interrupt);
      }
      if Terminate in held {
        Interrupted(Terminate);
      }
      assert pending == None ==> held == {} by {
        assert forall s :: s in held ==> s == Hangup || s == Interrupt || s == Terminate;
      }
      held, masked := {}, false;
    }

    /** Raise the limits one by one, checking for a signal before each; any command may fail. */
    method RaiseLimits() returns (ok: bool)
      requires Valid() && child == NotStarted && pending == None && !masked && writes == [] && arrivals == {}
      modifies this`pending, this`sent, this`held, this`arrivals, this`child, this`writes
      ensures Valid() && child == NotStarted && !masked && LastWriteOnly(writes)
      ensures forall i :: 0 <= i < |KEYS| ==> (i < |writes| <==> Writes(world, i))
      ensures ok <==> RaisesWell(world)
      ensures ok && pending == None <==> Raises(world)
      ensures pending == RaiseSignal(world, 0) && |writes| <= |KEYS|
    {
      RaisedNone(world);
      for i := 0 to |KEYS|
        invariant Valid() && child == NotStarted && !masked && RaisedTo(world, i, pending, writes)
      {
        ghost var before, wrote := pending, writes;
        var begun, done := RaiseOne(i);
        RaisedStep(world, i, before, wrote, pending, writes, begun);
        if !begun {
          break;
        }
        if !done {
          return false;
        }
      }
      Environment(Point.Reading);
      ok := !world.fails(Point.Reading);
    }

    /** Raise one limit, unless a signal is pending at the check. */
    method RaiseOne(i: nat) returns (begun: bool, done: bool)
      requires Valid() && child == NotStarted && !masked
      modifies this`pending, this`sent, this`held, this`arrivals, this`child, this`writes
      ensures Valid() && child == NotStarted && !masked
      ensures begun <==> Either(old(pending), FirstSignal(world.events(Checking(i)))) == None
      ensures pending == if begun then FirstSignal(world.events(Writing(i)))
                         else Either(old(pending), FirstSignal(world.events(Checking(i))))
      ensures writes == if begun then old(writes) + [pending.Some?] else old(writes)
      ensures begun ==> (done <==> !world.fails(Writing(i)))
    {
      Environment(Checking(i));
      begun, done := pending == None, false;
      if begun {
        Environment(Writing(i));
        writes := writes + [pending.Some?];
        done := !world.fails(Writing(i));
      }
    }

    /** Start the runner behind the signal mask; a signal may still come between the check and the mask. */
    method Start() returns (started: bool)
      requires Valid() && child == NotStarted && pending == None && !masked
      modifies this`pending, this`sent, this`held, this`arrivals, this`child, this`masked
      ensures Valid() && (started <==> Starts(world))
      ensures started ==> child == Running && masked && sent == []
      ensures started ==> pending == FirstSignal(world.events(Saving)) && held == SignalsIn(world.events(Masked))
      ensures started ==> arrivals == old(arrivals) + SignalsIn(world.events(Saving)) + SignalsIn(world.events(Masked))
      ensures !started ==> child == NotStarted && !masked && pending == UnstartedSignal(world)
    {
      Environment(Saving);
      if world.fails(Saving) {
        return false;
      }
      masked := true;
      Environment(Masked);
      if world.fails(Started) {
        Unmask();
        return false;
      }
      child := Running;
      started := true;
    }

    /** Lift the mask and send the runner the signal that is pending by then, wherever it came. */
    method HandOver()
      requires Valid() && child == Running && masked && sent == []
      requires pending == FirstSignal(world.events(Saving)) && held == SignalsIn(world.events(Masked))
      modifies this`pending, this`sent, this`held, this`arrivals, this`child, this`masked
      ensures Valid() && HandedOver() && !masked && !Stopped(sent)
      ensures child == ChildAfter(Running, world.events(Started) + world.events(Unmasked)) && child != NotStarted
      ensures pending == HandedSignal(world) && sent == HandedSends(world)
      ensures arrivals == old(arrivals) + SignalsIn(world.events(Started)) + SignalsIn(world.events(Unmasked))
    {
      Environment(Started);
      Unmask();
      Environment(Unmasked);
      ChildAfterBoth(Running, world.events(Started), world.events(Unmasked));
      if pending.Some? {
        sent := sent + [Sent(pending.value, false)];
      }
    }

    /** Start the runner, hand it over and wait for it. */
    method Launch() returns (ok: bool)
      requires Valid() && child == NotStarted && pending == None && !masked && status == 1 && runnerExit == None
      modifies this`pending, this`sent, this`held, this`arrivals, this`child, this`masked, this`status, this`runnerExit
      ensures Valid() && HandedOver() && !masked && !Stopped(sent)
      ensures child != NotStarted <==> Starts(world)
      ensures child != NotStarted ==> pending == LaunchSignal(world)
      ensures child != NotStarted ==> sent == LaunchSends(world)
      ensures child == NotStarted ==> pending == UnstartedSignal(world)
      ensures ok <==> Starts(world) && !world.fails(Waiting)
      ensures ok ==> child == WaitedFor(world) == Exited(status) && runnerExit == Some(status)
      ensures !ok ==> status == 1 && runnerExit == None
      ensures !ok && child != NotStarted ==> child == ChildAfter(Running, SinceStart(world))
      ensures Starts(world) ==> arrivals == old(arrivals) + LaunchSignals(world)
    {
      ok := Start();
      if ok {
        HandOver();
        ChildAfterBoth(Running, world.events(Started) + world.events(Unmasked), world.events(Waiting));
        ok := Wait(Waiting);
      }
    }

    /** Wait for the runner; the wait itself may fail. */
    method Wait(p: Point) returns (ok: bool)
      requires Valid() && child != NotStarted && HandedOver() && !masked
      modifies this`pending, this`sent, this`held, this`arrivals, this`child, this`status, this`runnerExit
      ensures Valid() && HandedOver() && Progress(old(child), child)
      ensures ok <==> !world.fails(p)
      ensures pending == Either(old(pending), FirstSignal(world.events(p)))
      ensures sent == old(sent) + Forwards(old(pending), FirstSignal(world.events(p)), old(child))
      ensures ok ==> child == Reaped(ChildAfter(old(child), world.events(p)), world.exit(p)) == Exited(status)
      ensures ok ==> runnerExit == Some(status)
      ensures !ok ==> status == old(status) && runnerExit == old(runnerExit)
      ensures !ok ==> child == ChildAfter(old(child), world.events(p))
      ensures arrivals == old(arrivals) + SignalsIn(world.events(p))
    {
      Environment(p);
      ok := !world.fails(p);
      if !ok {
        return;
      }
      if child == Running {
        child := Exited(world.exit(p));
      }
      status := child.code;
      runnerExit := Some(status);
    }

    /** The error path: interrupt a runner that still lives and wait for it. */
    method Recover() returns (raised: bool, stopped: bool)
      requires Valid() && HandedOver() && !Stopped(sent) && !masked && runnerExit == None && status == 1
      modifies this`pending, this`sent, this`held, this`arrivals, this`child, this`status, this`runnerExit, this`failed
      ensures Valid() && HandedOver() && failed && Progress(old(child), child)
      ensures stopped <==> ChildAfter(old(child), world.events(Failing)) == Running
      ensures stopped <==> Stopped(sent)
      ensures raised <==> stopped && world.fails(Stopping)
      ensures pending == Either(old(pending), Either(FirstSignal(world.events(Failing)), StopSignal(world, stopped)))
      ensures sent == old(sent) + RecoverSends(world, old(pending), old(child), stopped)
      ensures arrivals == old(arrivals) + SignalsIn(world.events(Failing)) + StopSignals(world, stopped)
      ensures stopped && !raised ==> child == StoppedChild(world) == Exited(status) && runnerExit == Some(status)
      ensures !stopped || raised ==> status == 1 && runnerExit == None
    {
      failed := true;
      Environment(Failing);
      raised, stopped := false, child == Running;
      if stopped {
        var ok := StopRunner();
        raised := !ok;
      } else {
        status := 1;
      }
    }

    /** Interrupt the runner and wait for it. */
    method StopRunner() returns (ok: bool)
      requires Valid() && child == Running && HandedOver() && !masked && runnerExit == None && status == 1
      modifies this`pending, this`sent, this`held, this`arrivals, this`child, this`status, this`runnerExit
      ensures Valid() && HandedOver() && child != NotStarted && Stopped(sent)
      ensures ok <==> !world.fails(Stopping)
      ensures pending == Either(old(pending), FirstSignal(world.events(Stopping)))
      ensures sent == old(sent) + [Sent(Interrupt, true)]
        + Forwards(old(pending), FirstSignal(world.events(Stopping)), Running)
      ensures arrivals == old(arrivals) + SignalsIn(world.events(Stopping))
      ensures ok ==> child == StoppedChild(world) == Exited(status) && runnerExit == Some(status)
      ensures !ok ==> status == 1 && runnerExit == None
    {
      sent := sent + [Sent(Interrupt, true)];
      ghost var n := |sent| - 1;
      ok := Wait(Stopping);
      assert sent[n].stop;
    }

    /** The measurement itself; the runner is started only if no signal is pending at the check. */
    method Measure() returns (ok: bool)
      requires Valid() && child == NotStarted && pending == None && !masked && writes == [] && arrivals == {}
      requires runnerExit == None && status == 1
      modifies this`pending, this`sent, this`held, this`arrivals, this`child, this`masked, this`status
      modifies this`runnerExit, this`writes
      ensures Valid() && HandedOver() && !masked && !Stopped(sent) && LastWriteOnly(writes)
      ensures child != NotStarted <==> Runs(world)
      ensures child != NotStarted ==> pending == LaunchSignal(world)
      ensures child != NotStarted ==> sent == LaunchSends(world) && arrivals == LaunchSignals(world)
      ensures child == NotStarted ==> pending == DeclinedSignal(world)
      ensures ok <==> MeasuresWell(world)
      ensures ok && child == NotStarted ==> pending.Some? && status == 128 + Number(pending.value) && runnerExit == None
      ensures ok && child != NotStarted ==> child == WaitedFor(world) == Exited(status) && runnerExit == Some(status)
      ensures !ok ==> status == 1 && runnerExit == None
      ensures !ok && child != NotStarted ==> child == ChildAfter(Running, SinceStart(world))
      ensures forall i :: 0 <= i < |KEYS| ==> (i < |writes| <==> Writes(world, i))
    {
      ok := RaiseLimits();
      if ok {
        if pending == None {
          ok := Launch();
        } else {
          status := 128 + Number(pending.value);
        }
      }
    }

    /** The measurement and, if it failed, the error path. */
    method Settle() returns (raised: bool, stopped: bool)
      requires Valid() && child == NotStarted && pending == None && !masked && writes == [] && arrivals == {}
      requires runnerExit == None && status == 1 && !failed
      modifies this`pending, this`sent, this`held, this`arrivals, this`child, this`masked, this`status
      modifies this`runnerExit, this`failed, this`writes
      ensures Valid() && HandedOver() && !masked && LastWriteOnly(writes)
      ensures child != NotStarted <==> Runs(world)
      ensures stopped <==> Stopped(sent)
      ensures Accounted(world, stopped, raised, failed, status, runnerExit, writes)
      ensures child == NotStarted ==> sent == []
      ensures pending == SettledSignal(world)
      ensures Runs(world) ==> sent == SettledSends(world) && arrivals == SettledSignals(world)
      ensures runnerExit.Some? ==> child == Exited(runnerExit.value)
    {
      var ok := Measure();
      raised, stopped := false, false;
      if ok {
        MeasuredWell(world, status, runnerExit, writes);
        assert sent + [] == sent;
      } else {
        raised, stopped := Fail();
      }
    }

    /** The error path after a measurement that failed, in terms of the world. */
    method Fail() returns (raised: bool, stopped: bool)
      requires Valid() && HandedOver() && !Stopped(sent) && !masked && runnerExit == None && status == 1
      requires !MeasuresWell(world) && (child != NotStarted <==> Runs(world))
      requires forall i :: 0 <= i < |KEYS| ==> (i < |writes| <==> Writes(world, i))
      requires child != NotStarted ==> pending == LaunchSignal(world) && sent == LaunchSends(world)
      requires child != NotStarted ==> arrivals == LaunchSignals(world) && child == ChildAfter(Running, SinceStart(world))
      requires child == NotStarted ==> pending == DeclinedSignal(world)
      modifies this`pending, this`sent, this`held, this`arrivals, this`child, this`status, this`runnerExit, this`failed
      ensures Valid() && HandedOver() && failed
      ensures child != NotStarted <==> Runs(world)
      ensures stopped <==> Stopped(sent)
      ensures Accounted(world, stopped, raised, failed, status, runnerExit, writes)
      ensures child == NotStarted ==> sent == []
      ensures pending == SettledSignal(world)
      ensures Runs(world) ==> sent == SettledSends(world) && arrivals == SettledSignals(world)
      ensures runnerExit.Some? ==> child == Exited(runnerExit.value)
    {
      if child != NotStarted {
        LivesIs(world);
      }
      raised, stopped := Recover();
      MeasuredBadly(world, stopped, raised, status, runnerExit, writes);
    }

    /** The same with signals until they are ignored, which is when the restoration begins. */
    method Attempt() returns (raised: bool, stopped: bool)
      requires Valid() && child == NotStarted && pending == None && !masked && writes == [] && arrivals == {}
      requires runnerExit == None && status == 1 && !failed
      modifies this`pending, this`sent, this`held, this`arrivals, this`child, this`masked, this`status
      modifies this`runnerExit, this`failed, this`writes
      ensures Valid() && HandedOver() && !masked && LastWriteOnly(writes)
      ensures child != NotStarted <==> Runs(world)
      ensures stopped <==> Stopped(sent)
      ensures Accounted(world, stopped, raised, failed, status, runnerExit, writes)
      ensures pending == FinalSignal(world)
      ensures Runs(world) ==> sent == AllSends(world)
      ensures Runs(world) ==> arrivals == SettledSignals(world) + SignalsIn(world.events(Closing))
      ensures runnerExit.Some? ==> child == Exited(runnerExit.value)
    {
      raised, stopped := Settle();
      ghost var before := sent;
      Environment(Closing);
      assert before <= sent && forall x :: x in sent && x.stop ==> x in before;
    }

    /** Restore every original limit, whatever happened before. */
    method Restore()
      requires restorations == [] && forall k :: k in KEYS ==> k in original.limits
      modifies this`restorations
      ensures RestoresAll(restorations, original.limits)
    {
      for i := 0 to |KEYS|
        invariant |restorations| == i
        invariant forall j :: 0 <= j < i ==> Restores(restorations[j], KEYS[j], original.limits)
      {
        restorations := restorations + [Restoration(KEYS[i], original.limits[KEYS[i]], world.restores(i))];
      }
    }

    /** Restore, read everything back, and turn a success into a failure unless the cleanup is confirmed. */
    method Finish()
      requires restorations == [] && forall k :: k in KEYS ==> k in original.limits
      modifies this`restorations, this`cleanupPass, this`status
      ensures RestoresAll(restorations, original.limits)
      ensures status == 0 <==> old(status) == 0 && world.after == Some(original) && AllSucceeded(restorations)
      ensures status == if old(status) == 0 && !cleanupPass then 1 else old(status)
      ensures cleanupPass <==> world.after == Some(original) && AllSucceeded(restorations)
    {
      Restore();
      cleanupPass := world.after == Some(original) && AllSucceeded(restorations);
      if status == 0 && !cleanupPass {
        status := 1;
      }
    }
  }

  ghost predicate QuietKey(w: World, k: nat) {
    FirstSignal(w.events(Checking(k))) == None && FirstSignal(w.events(Writing(k))) == None
  }

  /** The command for a limit is run: nothing failed before it and no signal was pending at its check. */
  ghost predicate Writes(w: World, i: nat) {
    && FirstSignal(w.events(Checking(i))) == None
    && forall k :: 0 <= k < i ==> QuietKey(w, k) && !w.fails(Writing(k))
  }

  /** No command that is run fails, nor the reading back. */
  ghost predicate RaisesWell(w: World) {
    !w.fails(Point.Reading) && forall i :: 0 <= i < |KEYS| && Writes(w, i) ==> !w.fails(Writing(i))
  }

  /** The first signal that comes while the limits from key i on are raised. */
  function RaiseSignal(w: World, i: nat): Option<Signal>
    requires i <= |KEYS|
    decreases |KEYS| - i
  {
    if i == |KEYS| then FirstSignal(w.events(Point.Reading))
    else
      Either(FirstSignal(w.events(Checking(i))),
        Either(FirstSignal(w.events(Writing(i))), if w.fails(Writing(i)) then None else RaiseSignal(w, i + 1)))
  }

  /** The commands for the first i limits have been run, and only the last may have had a signal. */
  ghost predicate RaisedTo(w: World, i: nat, pending: Option<Signal>, writes: seq<bool>) {
    && i <= |KEYS| && |writes| == i && LastWriteOnly(writes) && (i > 0 ==> writes[i - 1] == pending.Some?)
    && (i == 0 ==> pending == None)
    && (forall k :: 0 <= k < i ==> !w.fails(Writing(k)) && FirstSignal(w.events(Checking(k))) == None)
    && (forall k :: 0 <= k < i - 1 ==> QuietKey(w, k)) && (i > 0 ==> (pending == None <==> QuietKey(w, i - 1)))
    && RaiseSignal(w, 0) == Either(pending, RaiseSignal(w, i))
  }

  lemma RaisedNone(w: World)
    ensures RaisedTo(w, 0, None, [])
  {
  }

  /** The loop ends where the source's does: at a signal, at a failure or after the last limit. */
  lemma RaisedStep(w: World, i: nat, pending: Option<Signal>, writes: seq<bool>, after: Option<Signal>,
                   wrote: seq<bool>, begun: bool)
    requires i < |KEYS| && RaisedTo(w, i, pending, writes)
    requires begun <==> Either(pending, FirstSignal(w.events(Checking(i)))) == None
    requires after ==
      if begun then FirstSignal(w.events(Writing(i))) else Either(pending, FirstSignal(w.events(Checking(i))))
    requires wrote == if begun then writes + [after.Some?] else writes
    ensures !begun ==> (forall k :: 0 <= k < |KEYS| ==> (k < |wrote| <==> Writes(w, k))) && RaiseSignal(w, 0) == after
    ensures !begun ==> !Raises(w) && (RaisesWell(w) <==> !w.fails(Point.Reading))
    ensures begun && w.fails(Writing(i)) ==>
      (forall k :: 0 <= k < |KEYS| ==> (k < |wrote| <==> Writes(w, k))) && RaiseSignal(w, 0) == after
    ensures begun && w.fails(Writing(i)) ==> !Raises(w) && !RaisesWell(w)
    ensures begun && !w.fails(Writing(i)) ==> RaisedTo(w, i + 1, after, wrote)
  {
    assert begun ==> Writes(w, i);
    assert !begun ==> !QuietKey(w, i) || (i > 0 && !QuietKey(w, i - 1));
  }

  /** Both limits are raised and read back before any signal. */
  ghost predicate Raises(w: World) {
    && (forall k :: 0 <= k < |KEYS| ==> QuietKey(w, k) && !w.fails(Writing(k)))
    && FirstSignal(w.events(Point.Reading)) == None && !w.fails(Point.Reading)
  }

  /** The runner is started. */
  ghost predicate Starts(w: World) {
    !w.fails(Saving) && !w.fails(Started)
  }

  /** The first signal by the time the runner is handed over: before the mask, held by it, or right after. */
  function HandedSignal(w: World): Option<Signal> {
    Either(FirstSignal(w.events(Saving)),
      Either(Lowest(SignalsIn(w.events(Masked)) + SignalsIn(w.events(Started))), FirstSignal(w.events(Unmasked))))
  }

  /** The first signal by the end of the wait. */
  function LaunchSignal(w: World): Option<Signal> {
    Either(HandedSignal(w), FirstSignal(w.events(Waiting)))
  }

  /** The first signal of a measurement that never starts the runner. */
  function UnstartedSignal(w: World): Option<Signal> {
    if w.fails(Saving) then FirstSignal(w.events(Saving))
    else Either(FirstSignal(w.events(Saving)), Lowest(SignalsIn(w.events(Masked))))
  }

  ghost function DeclinedSignal(w: World): Option<Signal> {
    if Raises(w) then UnstartedSignal(w) else RaiseSignal(w, 0)
  }

  function StopSignal(w: World, stopped: bool): Option<Signal> {
    if stopped then FirstSignal(w.events(Stopping)) else None
  }

  function StopSignals(w: World, stopped: bool): set<Signal> {
    if stopped then SignalsIn(w.events(Stopping)) else {}
  }

  /** The first signal before the restoration begins, and up to the moment signals are ignored. */
  ghost function SettledSignal(w: World): Option<Signal> {
    Either(if Runs(w) then LaunchSignal(w) else DeclinedSignal(w),
      if MeasuresWell(w) then None
      else Either(FirstSignal(w.events(Failing)), StopSignal(w, Runs(w) && LivesAtError(w))))
  }

  ghost function FinalSignal(w: World): Option<Signal> {
    Either(SettledSignal(w), FirstSignal(w.events(Closing)))
  }

  /** All signals of a run that starts the runner. */
  ghost function SettledSignals(w: World): set<Signal> {
    LaunchSignals(w)
    + if MeasuresWell(w) then {} else SignalsIn(w.events(Failing)) + StopSignals(w, LivesAtError(w))
  }

  /** The runner gets the first signal once if it came before the mask, and once more from the handler otherwise. */
  function HandedSends(w: World): seq<Sent> {
    var first := HandedSignal(w);
    if first == None then []
    else if FirstSignal(w.events(Saving)).Some? then [Sent(first.value, false)]
    else [Sent(first.value, false), Sent(first.value, false)]
  }

  function LaunchSends(w: World): seq<Sent> {
    HandedSends(w) + Forwards(HandedSignal(w), FirstSignal(w.events(Waiting)), Running)
  }

  /** What the error path sends to a runner that was started. */
  function RecoverSends(w: World, pending: Option<Signal>, child: Child, stopped: bool): seq<Sent> {
    Forwards(pending, FirstSignal(w.events(Failing)), child)
    + if stopped then
        [Sent(Interrupt, true)]
        + Forwards(Either(pending, FirstSignal(w.events(Failing))), FirstSignal(w.events(Stopping)), Running)
      else []
  }

  /** Everything that is sent to a runner that was started. */
  ghost function SettledSends(w: World): seq<Sent> {
    LaunchSends(w) + if MeasuresWell(w) then [] else RecoverSends(w, LaunchSignal(w), Running, LivesAtError(w))
  }

  ghost function AllSends(w: World): seq<Sent> {
    SettledSends(w) + Forwards(SettledSignal(w), FirstSignal(w.events(Closing)), Running)
  }

  /** The measurement ends without an error: a signal came first, or the runner was waited for. */
  ghost predicate MeasuresWell(w: World) {
    RaisesWell(w) && (RaiseSignal(w, 0).Some? || (Starts(w) && !w.fails(Waiting)))
  }

  /** A runner that has been waited for. */
  function Reaped(child: Child, code: int): (r: Child)
    ensures child != NotStarted ==> r.Exited?
  {
    if child == Running then Exited(code) else child
  }

  function WaitedFor(w: World): Child {
    Reaped(ChildAfter(Running, SinceStart(w)), w.exit(Waiting))
  }

  function StoppedChild(w: World): Child {
    Reaped(ChildAfter(Running, w.events(Stopping)), w.exit(Stopping))
  }

  /** The exit of the runner, if it was waited for, and the status before the restoration. */
  ghost function MeasuredExit(w: World): Option<int> {
    if Runs(w) && MeasuresWell(w) && WaitedFor(w).Exited? then Some(WaitedFor(w).code)
    else if Runs(w) && LivesAtError(w) && !w.fails(Stopping) && StoppedChild(w).Exited? then Some(StoppedChild(w).code)
    else None
  }

  ghost function MeasuredStatus(w: World): int {
    if MeasuredExit(w).Some? then MeasuredExit(w).value
    else if MeasuresWell(w) && RaiseSignal(w, 0).Some? then 128 + Number(RaiseSignal(w, 0).value)
    else 1
  }

  /** How the measurement went, in terms of the world. */
  ghost predicate Accounted(w: World, stopped: bool, raised: bool, failed: bool, status: int, runnerExit: Option<int>,
                            writes: seq<bool>)
  {
    && (stopped <==> Runs(w) && LivesAtError(w)) && (raised <==> stopped && w.fails(Stopping))
    && (failed <==> !MeasuresWell(w)) && status == MeasuredStatus(w) && runnerExit == MeasuredExit(w)
    && forall i :: 0 <= i < |KEYS| ==> (i < |writes| <==> Writes(w, i))
  }

  lemma MeasuredWell(w: World, status: int, runnerExit: Option<int>, writes: seq<bool>)
    requires MeasuresWell(w) && forall i :: 0 <= i < |KEYS| ==> (i < |writes| <==> Writes(w, i))
    requires Runs(w) ==> WaitedFor(w) == Exited(status) && runnerExit == Some(status)
    requires !Runs(w) ==> runnerExit == None
    requires !Runs(w) && RaiseSignal(w, 0).Some? ==> status == 128 + Number(RaiseSignal(w, 0).value)
    ensures Accounted(w, false, false, false, status, runnerExit, writes)
  {
    RaisesQuietly(w);
  }

  lemma MeasuredBadly(w: World, stopped: bool, raised: bool, status: int, runnerExit: Option<int>, writes: seq<bool>)
    requires !MeasuresWell(w) && forall i :: 0 <= i < |KEYS| ==> (i < |writes| <==> Writes(w, i))
    requires stopped <==> Runs(w) && LivesAtError(w)
    requires raised <==> stopped && w.fails(Stopping)
    requires stopped && !raised ==> StoppedChild(w) == Exited(status) && runnerExit == Some(status)
    requires !stopped || raised ==> status == 1 && runnerExit == None
    ensures Accounted(w, stopped, raised, true, status, runnerExit, writes)
  {
    RaisesQuietly(w);
  }

  /** The runner lives at the error if it still runs after the events of the failing point. */
  lemma LivesIs(w: World)
    requires Runs(w) && !MeasuresWell(w)
    ensures LivesAtError(w) <==> ChildAfter(ChildAfter(Running, SinceStart(w)), w.events(Failing)) == Running
  {
    RaisesQuietly(w);
    ChildAfterBoth(Running, SinceStart(w), w.events(Failing));
  }

  lemma RaisesQuietly(w: World)
    ensures Raises(w) <==> RaisesWell(w) && RaiseSignal(w, 0) == None
  {
    assert RaiseSignal(w, 2) == FirstSignal(w.events(Point.Reading));
    if Raises(w) {
      assert QuietKey(w, 0) && QuietKey(w, 1);
    } else if RaisesWell(w) && RaiseSignal(w, 0) == None {
      assert Writes(w, 0);
      assert QuietKey(w, 0) && Writes(w, 1);
      assert QuietKey(w, 1);
    }
  }

  /** The signals a run notices from the start of the runner to the end of the wait for it. */
  function LaunchSignals(w: World): set<Signal> {
    SignalsIn(w.events(Saving)) + SignalsIn(w.events(Masked)) + SignalsIn(w.events(Started))
    + SignalsIn(w.events(Unmasked)) + SignalsIn(w.events(Waiting))
  }

  /** Everything that happened since the runner was started, when the wait for it ends. */
  function SinceStart(w: World): seq<Event> {
    w.events(Started) + w.events(Unmasked) + w.events(Waiting)
  }

  /** The runner is started: both limits raised without a signal, and nothing failed on the way. */
  ghost predicate Runs(w: World) {
    Raises(w) && Starts(w)
  }

  /** The guard of the error branch: the wait fails while the runner is still alive. */
  ghost predicate LivesAtError(w: World) {
    w.fails(Waiting) && ChildAfter(Running, SinceStart(w) + w.events(Failing)) == Running
  }

  ghost predicate Restores(r: Restoration, key: string, limits: map<string, string>) {
    r.key == key && key in limits && r.value == limits[key]
  }

  ghost predicate RestoresAll(restorations: seq<Restoration>, limits: map<string, string>) {
    |restorations| == |KEYS| && forall j :: 0 <= j < |KEYS| ==> Restores(restorations[j], KEYS[j], limits)
  }

  predicate AllSucceeded(restorations: seq<Restoration>) {
    forall r :: r in restorations ==> r.exit == Some(0)
  }

  /** Every signal the runner was sent has the value of the first signal recorded. */
  ghost predicate SameValue(sent: seq<Sent>, pending: Option<Signal>) {
    forall x :: x in sent ==> pending == Some(x.signal)
  }

  lemma ValueCondition(sent: seq<Sent>, pending: Option<Signal>, child: Child)
    requires OnlyFirst(sent, pending, child)
    ensures SameValue(sent, pending) <==> (Stopped(sent) ==> pending == Some(Interrupt))
  {
  }

  /**
   * A whole run. A recorded signal has reached a runner that was started; it was the only value sent,
   * unless the wait failed with the runner alive and the signal was not an interrupt; no limit is
   * written after a signal but the one in progress; every limit gets its restoration attempt; and the
   * status is zero exactly when the runner exited with zero and the cleanup was confirmed.
   */
  method Operate(reading: Reading, world: World) returns (op: Operator, ending: Ending)
    requires forall k :: k in KEYS ==> k in reading.limits
    ensures op.Valid() && op.HandedOver() && LastWriteOnly(op.writes)
    ensures forall i :: 0 <= i < |KEYS| ==> (i < |op.writes| <==> Writes(world, i))
    ensures op.pending == FinalSignal(world) && (op.arrivals != {} ==> op.pending.Some?)
    ensures op.child != NotStarted <==> Runs(world)
    ensures Runs(world) ==> op.sent == AllSends(world)
    ensures Runs(world) ==> op.arrivals == SettledSignals(world) + SignalsIn(world.events(Closing))
    ensures SameValue(op.sent, op.pending) <==>
      (Runs(world) && LivesAtError(world) ==> FinalSignal(world) == Some(Interrupt))
    ensures RestoresAll(op.restorations, reading.limits)
    ensures op.cleanupPass <==> world.after == Some(reading) && AllSucceeded(op.restorations)
    ensures op.runnerExit == MeasuredExit(world) && (op.runnerExit.Some? ==> op.child == Exited(op.runnerExit.value))
    ensures op.status == if MeasuredStatus(world) == 0 && !op.cleanupPass then 1 else MeasuredStatus(world)
    ensures op.status == 0 <==> op.runnerExit == Some(0) && op.cleanupPass
    ensures op.failed <==> !MeasuresWell(world)
    ensures ending == if (Runs(world) && LivesAtError(world) && world.fails(Stopping)) || world.fails(Closing) then Raised
                      else Returned(op.status)
  {
    op := new Operator(reading, world);
    var raised, stopped := op.Attempt();
    ValueCondition(op.sent, op.pending, op.child);
    op.Finish();
    ending := if raised || world.fails(Closing) then Raised else Returned(op.status);
  }

  /** A termination request arrives during the wait, and the wait then fails with the runner alive. */
  function UnluckyWorld(): World {
    World(
      p => if p == Waiting then [Arrive(Terminate)] else [],
      p => p == Waiting,
      _ => 0,
      _ => Some(0),
      None)
  }

  /** A run that sends the runner an interrupt although the operator received a termination request. */
  method OtherValueRun(reading: Reading) returns (op: Operator, ending: Ending)
    requires forall k :: k in KEYS ==> k in reading.limits
    ensures op.pending == Some(Terminate) && Sent(Terminate, false) in op.sent && !SameValue(op.sent, op.pending)
  {
    var w := UnluckyWorld();
    assert FirstSignal([Arrive(Terminate)]) == Some(Terminate);
    assert SinceStart(w) + w.events(Failing) == [Arrive(Terminate)];
    assert SignalsIn(w.events(Masked)) + SignalsIn(w.events(Started)) == {};
    op, ending := Operate(reading, w);
  }
}
